/** When a provider is asked again: what follows an attempt that ran into an error, over
    the log of a whole run. */
module Retries {
  import opened Gage
  import opened Accumulate
  import opened ToolCalls
  import opened RunLog
  import opened Goroutines
  import opened AgentLoop
  import opened Batches
  import opened LogFacts

  // ---- an attempt that fails ----

  /** Where the first error of a stream is; its end, if there is none. */
  function ErrorAt(events: seq<Event>): (i: nat)
    ensures i <= |events| && (i < |events| ==> events[i].ErrorEvent?)
  {
    if events == [] || events[0].ErrorEvent? then 0 else 1 + ErrorAt(events[1..])
  }

  /** What the attempt asked for at moment `q` was answered. */
  function ReplyTo(w: World, log: Log, q: nat): StreamReply
    requires q < |log| && log[q].Ask?
  {
    w.stream(q, log[q].turn, log[q].attempt, log[q].request)
  }

  /** It was refused, or its stream holds an error. */
  predicate Fails(w: World, log: Log, q: nat)
    requires q < |log| && log[q].Ask?
  {
    match ReplyTo(w, log, q)
    case Refused(_) => true
    case Streaming(events) => ErrorAt(events) < |events|
  }

  /** The moment it fails at, if everything before is delivered. */
  function FailsAt(w: World, log: Log, q: nat): nat
    requires q < |log| && log[q].Ask?
  {
    match ReplyTo(w, log, q)
    case Refused(_) => q + 1
    case Streaming(events) => q + 1 + ErrorAt(events)
  }

  /** The error it fails with, as an event. */
  function Failure(w: World, log: Log, q: nat): Event
    requires q < |log| && log[q].Ask? && Fails(w, log, q)
  {
    match ReplyTo(w, log, q)
    case Refused(err) => ErrorEvent(Some(err), "")
    case Streaming(events) => events[ErrorAt(events)]
  }

  /** It got that far: all events before the error were delivered. */
  predicate Reached(w: World, log: Log, q: nat)
    requires q < |log| && log[q].Ask?
  {
    && Fails(w, log, q)
    && FailsAt(w, log, q) <= |log|
    && match ReplyTo(w, log, q)
       case Refused(_) => true
       case Streaming(events) => forall j :: 0 <= j < ErrorAt(events) ==> log[q + 1 + j] == Sent(log[q].turn, events[j])
  }

  /** What an error comes down to. */
  function Cause(err: Err): Err {
    if err.Wrapped? then Cause(err.cause) else err
  }

  /** Asking again would not help: the run was cancelled or timed out, the credentials are
      wrong, or the provider cannot do what is asked. An error without a value is none of
      these. */
  predicate Final(ev: Event)
    requires ev.ErrorEvent?
  {
    ev.err.Some? && Cause(ev.err.value) in {CanceledError, DeadlineError, AuthError, UnsupportedError}
  }

  /** The attempt at `q` failed, there was an attempt left, the error was not final and the
      context was live. */
  ghost predicate MayAskAgain(c: Config, w: World, log: Log, q: nat)
    requires q < |log| && log[q].Ask? && Fails(w, log, q)
  {
    && log[q].attempt < c.maxStreamRetries
    && !Final(Failure(w, log, q))
    && w.ctxErr(FailsAt(w, log, q)).None?
  }

  /** At once the same is asked again. */
  ghost predicate AsksAgain(w: World, log: Log, q: nat)
    requires q < |log| && log[q].Ask?
  {
    var m := FailsAt(w, log, q);
    m < |log| && log[m] == log[q].(attempt := log[q].attempt + 1)
  }

  /** The event is the run's last delivery, and what the run failed with. */
  ghost predicate EndsOn(out: RunOut, m: nat, ev: Event) {
    && |out.log| == m + 1 && IsDelivery(out.log[m]) && out.log[m].event == ev && ev.ErrorEvent?
    && out.end == Failed(if ev.err.Some? then ev.err.value else OtherError(ev.msg))
  }

  /** What follows an attempt that failed: the same question again, if it may be asked, and
      else the end of the run, on the context's error if an attempt was left and it would
      have been worth it, and on the very event the attempt failed with if not. */
  ghost predicate Resolved(c: Config, w: World, out: RunOut, q: nat)
    requires q < |out.log| && out.log[q].Ask?
  {
    Reached(w, out.log, q) ==>
      var m, ev := FailsAt(w, out.log, q), Failure(w, out.log, q);
      if MayAskAgain(c, w, out.log, q) then AsksAgain(w, out.log, q)
      else if out.log[q].attempt < c.maxStreamRetries && !Final(ev) then
        EndsOn(out, m, ErrorEvent(w.ctxErr(m), ""))
      else EndsOn(out, m, ev)
  }

  /** A run that goes on after the attempt: it did not fail, or the same was asked again. */
  ghost predicate GoneOn(c: Config, w: World, log: Log, q: nat)
    requires q < |log| && log[q].Ask?
  {
    Fails(w, log, q) ==> Reached(w, log, q) && MayAskAgain(c, w, log, q) && AsksAgain(w, log, q)
  }

  /** Nothing but such a failure makes for another attempt. */
  ghost predicate Justified(c: Config, w: World, log: Log, p: nat)
    requires p < |log| && log[p].Ask?
  {
    log[p].attempt > 0 ==>
      exists q: nat :: q < p && log[q].Ask? && Fails(w, log, q) && FailsAt(w, log, q) == p
                    && Reached(w, log, q) && MayAskAgain(c, w, log, q) && AsksAgain(w, log, q)
  }

  ghost predicate AllGoneOn(c: Config, w: World, log: Log) {
    forall q: nat :: q < |log| && log[q].Ask? ==> GoneOn(c, w, log, q) && Justified(c, w, log, q)
  }

  /** What holds of a run that is over: every attempt that failed is resolved, and every
      further attempt had its failure. */
  ghost predicate AllResolved(c: Config, w: World, out: RunOut) {
    forall q: nat :: q < |out.log| && out.log[q].Ask? ==> Resolved(c, w, out, q) && Justified(c, w, out.log, q)
  }

  // ---- growing logs ----

  lemma StillReached(w: World, log: Log, later: Log, q: nat)
    requires q < |log| && log[q].Ask? && log <= later
    ensures Reached(w, log, q) ==> Reached(w, later, q)
    ensures FailsAt(w, log, q) <= |log| ==> (Reached(w, log, q) <==> Reached(w, later, q))
  {
    assert later[q] == log[q];
  }

  lemma StillJustified(c: Config, w: World, log: Log, later: Log, p: nat)
    requires p < |log| && log[p].Ask? && log <= later && Justified(c, w, log, p)
    ensures Justified(c, w, later, p)
  {
    assert later[p] == log[p];
    if log[p].attempt > 0 {
      var q: nat :| q < p && log[q].Ask? && Fails(w, log, q) && FailsAt(w, log, q) == p
                 && Reached(w, log, q) && MayAskAgain(c, w, log, q) && AsksAgain(w, log, q);
      assert later[q] == log[q];
      StillReached(w, log, later, q);
    }
  }

  lemma StillGoneOn(c: Config, w: World, log: Log, later: Log, q: nat)
    requires q < |log| && log[q].Ask? && log <= later && GoneOn(c, w, log, q)
    ensures GoneOn(c, w, later, q)
  {
    assert later[q] == log[q];
    StillReached(w, log, later, q);
  }

  lemma GoneOnIsResolved(c: Config, w: World, log: Log, out: RunOut, q: nat)
    requires q < |log| && log[q].Ask? && log <= out.log && GoneOn(c, w, log, q)
    ensures Resolved(c, w, out, q)
  {
    StillGoneOn(c, w, log, out.log, q);
  }

  /** Steps that ask nothing. */
  lemma Quietly(c: Config, w: World, log: Log, later: Log)
    requires AllGoneOn(c, w, log) && log <= later
    requires forall k: nat :: |log| <= k < |later| ==> !later[k].Ask?
    ensures AllGoneOn(c, w, later)
  {
    forall q: nat | q < |later| && later[q].Ask?
      ensures GoneOn(c, w, later, q) && Justified(c, w, later, q)
    {
      assert later[q] == log[q];
      StillGoneOn(c, w, log, later, q);
      StillJustified(c, w, log, later, q);
    }
  }

  lemma GoneOnAllResolved(c: Config, w: World, log: Log, out: RunOut)
    requires AllGoneOn(c, w, log) && log <= out.log
    requires forall k: nat :: |log| <= k < |out.log| ==> !out.log[k].Ask?
    ensures AllResolved(c, w, out)
  {
    Quietly(c, w, log, out.log);
    forall q: nat | q < |out.log| && out.log[q].Ask?
      ensures Resolved(c, w, out, q)
    {
      GoneOnIsResolved(c, w, out.log, out, q);
    }
  }

  // ---- the attempts of a turn ----

  ghost predicate LostWithin(log: Log, from: nat, to: nat) {
    exists p: nat :: from <= p < to && p < |log| && log[p].Lost?
  }

  /** How far consuming gets. */
  lemma {:induction false} ConsumeReaches(w: World, turn: nat, events: seq<Event>, acc: Acc, log: Log)
    ensures var r, i := Consume(w, turn, events, acc, log), ErrorAt(events);
            match r
            case Complete(_, _) => i == |events|
            case StreamError(ev, log') =>
              && i < |events| && ev == events[i] && |log'| == |log| + i && log <= log'
              && forall j :: 0 <= j < i ==> log'[|log| + j] == Sent(turn, events[j])
            case Broken(log') =>
              log <= log' && (i == |events| || LostWithin(log', |log|, |log| + i))
    decreases |events|
  {
    if events != [] && !events[0].ErrorEvent? {
      var sent := Send(w, turn, events[0], log);
      if w.delivers(|log|) {
        ConsumeReaches(w, turn, events[1..], Take(acc, events[0]), sent);
        var r, i := Consume(w, turn, events[1..], Take(acc, events[0]), sent), ErrorAt(events[1..]);
        match r
        case Complete(_, _) =>
        case StreamError(ev, log') =>
          forall j | 0 <= j < i + 1
            ensures log'[|log| + j] == Sent(turn, events[j])
          {
            if j > 0 {
              assert log'[|sent| + (j - 1)] == Sent(turn, events[1..][j - 1]);
            } else {
              assert log'[|log|] == sent[|log|];
            }
          }
        case Broken(log') =>
      } else {
        assert sent[|log|].Lost?;
        assert LostWithin(sent, |log|, |log| + 1);
      }
    }
  }

  /** What breaks off before the error never reaches it. */
  lemma BrokenIsNotReached(w: World, log: Log, q: nat, events: seq<Event>)
    requires q < |log| && log[q].Ask? && ReplyTo(w, log, q) == Streaming(events)
    requires ErrorAt(events) == |events| || LostWithin(log, q + 1, q + 1 + ErrorAt(events))
    ensures !Reached(w, log, q)
  {
    if ErrorAt(events) < |events| {
      var p: nat :| q + 1 <= p < q + 1 + ErrorAt(events) && p < |log| && log[p].Lost?;
      LostIsNotReached(w, log, q, events, p - q - 1);
    }
  }

  lemma LostIsNotReached(w: World, log: Log, q: nat, events: seq<Event>, j: nat)
    requires q < |log| && log[q].Ask? && ReplyTo(w, log, q) == Streaming(events)
    requires j < ErrorAt(events) && q + 1 + j < |log| && log[q + 1 + j].Lost?
    ensures !Reached(w, log, q)
  {
    NotSent(log, q, j, events);
  }

  lemma NotSent(log: Log, q: nat, j: nat, events: seq<Event>)
    requires j < |events| && q + 1 + j < |log| && log[q].Ask? && log[q + 1 + j].Lost?
    ensures log[q + 1 + j] != Sent(log[q].turn, events[j])
  {
  }

  /** The attempts from moment `from` on. */
  ghost predicate GoneOnFrom(c: Config, w: World, log: Log, from: nat) {
    forall q: nat :: from <= q < |log| && log[q].Ask? ==> GoneOn(c, w, log, q) && (q > from ==> Justified(c, w, log, q))
  }

  ghost predicate ResolvedFrom(c: Config, w: World, out: RunOut, from: nat) {
    forall q: nat :: from <= q < |out.log| && out.log[q].Ask? ==>
      Resolved(c, w, out, q) && (q > from ==> Justified(c, w, out.log, q))
  }

  /** The attempts of a turn so far, the last of which failed at moment `|log|`. */
  ghost predicate FailedAt(w: World, log: Log, q: nat, ev: Event) {
    && q < |log| && log[q].Ask? && Reached(w, log, q)
    && FailsAt(w, log, q) == |log| && Failure(w, log, q) == ev
    && (forall k: nat :: q < k < |log| ==> !log[k].Ask?)
  }

  ghost predicate RepliesRight(c: Config, w: World, r: TurnReply, from: nat) {
    match r
    case Took(_, log) => GoneOnFrom(c, w, log, from)
    case NotTaken(out) => ResolvedFrom(c, w, out, from)
  }

  lemma {:induction false} StreamTurnRetries(c: Config, w: World, turn: nat, attempt: nat, conversation: seq<Message>,
                                            request: seq<Message>, log: Log)
    ensures var r := StreamTurn(c, w, turn, attempt, conversation, request, log);
            && RepliesRight(c, w, r, |log|)
            && log + [Ask(turn, attempt, conversation, request)] <= TurnReplyLog(r)
    decreases c.Retries() - attempt, 1
  {
    var asked, q := log + [Ask(turn, attempt, conversation, request)], |log|;
    match w.stream(|log|, turn, attempt, request)
    case Refused(err) =>
      RetryRetries(c, w, turn, attempt, conversation, request, err, ErrorEvent(Some(err), ""), asked, q);
    case Streaming(events) =>
      ConsumeRelays(w, turn, events, EMPTY_ACC, asked);
      ConsumeReaches(w, turn, events, EMPTY_ACC, asked);
      match Consume(w, turn, events, EMPTY_ACC, asked)
      case Complete(_, log') => assert log'[q] == asked[q];
      case Broken(log') =>
        BrokenLog(asked, log', q);
        CutShortIsResolved(c, w, turn, log', q, events);
      case StreamError(ev, log') =>
        assert log'[q] == asked[q];
        RetryRetries(c, w, turn, attempt, conversation, request, ErrorOf(ev), ev, log', q);
  }

  lemma CutShortIsResolved(c: Config, w: World, turn: nat, log: Log, q: nat, events: seq<Event>)
    requires q < |log| && log[q].Ask? && ReplyTo(w, log, q) == Streaming(events)
    requires forall k: nat :: q < k < |log| ==> IsDelivery(log[k])
    requires ErrorAt(events) == |events| || LostWithin(log, q + 1, q + 1 + ErrorAt(events))
    ensures ResolvedFrom(c, w, CutShort(w, turn, log), q)
  {
    var out := CutShort(w, turn, log);
    CutShortAdds(w, turn, log);
    StillLost(log, out.log, q + 1, q + 1 + ErrorAt(events));
    BrokenIsNotReached(w, out.log, q, events);
    OnlyAsk(log, out.log, q);
    UnreachedIsResolved(c, w, out, q);
  }

  lemma BrokenLog(asked: Log, log: Log, q: nat)
    requires Relayed(asked, log) && |asked| == q + 1
    ensures log[q] == asked[q] && forall k: nat :: q < k < |log| ==> IsDelivery(log[k])
  {
  }

  lemma CutShortAdds(w: World, turn: nat, log: Log)
    ensures var later := CutShort(w, turn, log).log;
            log <= later && |later| <= |log| + 1 && (|log| < |later| ==> IsDelivery(later[|log|]))
  {
  }

  lemma OnlyAsk(log: Log, later: Log, q: nat)
    requires q < |log| && log <= later && |later| <= |log| + 1
    requires forall k: nat :: q < k < |log| ==> IsDelivery(log[k])
    requires |log| < |later| ==> IsDelivery(later[|log|])
    ensures forall k: nat :: q < k < |later| ==> !later[k].Ask?
  {
    forall k: nat | q < k < |later|
      ensures !later[k].Ask?
    {
      if k < |log| {
        assert later[k] == log[k];
      }
    }
  }

  lemma UnreachedIsResolved(c: Config, w: World, out: RunOut, q: nat)
    requires q < |out.log| && out.log[q].Ask? && !Reached(w, out.log, q)
    requires forall k: nat :: q < k < |out.log| ==> !out.log[k].Ask?
    ensures ResolvedFrom(c, w, out, q)
  {
  }

  lemma StillLost(log: Log, later: Log, from: nat, to: nat)
    requires log <= later
    ensures LostWithin(log, from, to) ==> LostWithin(later, from, to)
  {
    if p: nat :| from <= p < to && p < |log| && log[p].Lost? {
      assert later[p].Lost?;
    }
  }

  /** The errors that are final are those the loop does not try again after. */
  lemma {:induction false} FinalIsNotRetryable(ev: Event)
    requires ev.ErrorEvent?
    ensures Final(ev) <==> !Retryable(ErrorOf(ev))
  {
    var err := ErrorOf(ev);
    IsCause(err, CanceledError);
    IsCause(err, DeadlineError);
    IsCause(err, AuthError);
    IsCause(err, UnsupportedError);
  }

  lemma {:induction false} IsCause(err: Err, target: Err)
    requires !target.Wrapped?
    ensures err.Is(target) <==> Cause(err) == target
    decreases err
  {
    if err.Wrapped? {
      IsCause(err.cause, target);
    }
  }

  lemma {:induction false} RetryRetries(c: Config, w: World, turn: nat, attempt: nat, conversation: seq<Message>,
                                       request: seq<Message>, err: Err, last: Event, log: Log, q: nat)
    requires FailedAt(w, log, q, last) && last.ErrorEvent? && ErrorOf(last) == err
    requires log[q] == Ask(turn, attempt, conversation, request)
    ensures var r := Retry(c, w, turn, attempt, conversation, request, err, last, log);
            RepliesRight(c, w, r, q) && log <= TurnReplyLog(r)
    decreases c.Retries() - attempt, 0
  {
    FinalIsNotRetryable(last);
    if attempt < c.Retries() && Retryable(err) {
      var interrupted := w.ctxErr(|log|);
      if interrupted.Some? {
        EndsHere(c, w, log, q, last, FailWith(w, turn, interrupted.value, log));
      } else {
        StreamTurnRetries(c, w, turn, attempt + 1, conversation, request, log);
        var r := StreamTurn(c, w, turn, attempt + 1, conversation, request, log);
        AskedAgain(c, w, log, q, last, r);
      }
    } else {
      EndsHere(c, w, log, q, last, RunOut(Failed(err), Send(w, turn, last, log)));
    }
  }

  lemma EndsHere(c: Config, w: World, log: Log, q: nat, last: Event, out: RunOut)
    requires FailedAt(w, log, q, last) && last.ErrorEvent?
    requires |out.log| == |log| + 1 && log <= out.log && IsDelivery(out.log[|log|])
    requires EndsOn(out, |log|, if log[q].attempt < c.maxStreamRetries && !Final(last)
                                then ErrorEvent(w.ctxErr(|log|), "") else last)
    requires log[q].attempt < c.maxStreamRetries && !Final(last) ==> w.ctxErr(|log|).Some?
    ensures ResolvedFrom(c, w, out, q)
  {
    assert out.log[q] == log[q];
    forall k: nat | q <= k < |out.log| && out.log[k].Ask?
      ensures k == q
    {
      assert k < |log| ==> out.log[k] == log[k];
    }
  }

  /** The next attempt is the same question, and the one before it gone on from. */
  lemma AskedAgain(c: Config, w: World, log: Log, q: nat, last: Event, r: TurnReply)
    requires FailedAt(w, log, q, last) && last.ErrorEvent? && !Final(last)
    requires log[q].attempt < c.maxStreamRetries && w.ctxErr(|log|).None?
    requires RepliesRight(c, w, r, |log|)
    requires log + [log[q].(attempt := log[q].attempt + 1)] <= TurnReplyLog(r)
    ensures RepliesRight(c, w, r, q)
  {
    var later, next := TurnReplyLog(r), log + [log[q].(attempt := log[q].attempt + 1)];
    assert later[q] == log[q] == next[q] && later[|log|] == next[|log|];
    StillReached(w, log, later, q);
    assert GoneOn(c, w, later, q);
    assert Justified(c, w, later, |log|);
    forall k: nat | q < k < |log|
      ensures !later[k].Ask?
    {
      assert later[k] == log[k];
    }
    if r.NotTaken? {
      GoneOnIsResolved(c, w, later, r.out, q);
    }
  }

  // ---- turns and runs ----

  ghost predicate PhaseResolved(c: Config, w: World, p: Phase) {
    match p
    case Ready(st) => AllGoneOn(c, w, st.log)
    case Over(out) => AllResolved(c, w, out)
  }

  lemma CompactResolved(c: Config, w: World, st: State, turn: nat, reported: Usage)
    requires w.compactor.Some? && AllGoneOn(c, w, st.log)
    ensures PhaseResolved(c, w, Compact(c, w, st, turn, reported))
  {
    match Compact(c, w, st, turn, reported)
    case Ready(st') => Quietly(c, w, st.log, st'.log);
    case Over(out) => GoneOnAllResolved(c, w, st.log, out);
  }

  lemma AfterToolsResolved(c: Config, w: World, st: State, turn: nat, results: seq<ToolResult>, reported: Usage)
    requires AllGoneOn(c, w, st.log)
    ensures PhaseResolved(c, w, AfterTools(c, w, st, turn, results, reported))
  {
    if w.compactor.Some? {
      CompactResolved(c, w, st.(conversation := st.conversation + ToolResultMessages(results)), turn, reported);
    }
  }

  lemma RunToolsResolved(c: Config, w: World, st: State, turn: nat, acc: Acc)
    requires AllGoneOn(c, w, st.log)
    ensures PhaseResolved(c, w, RunTools(c, w, st, turn, acc))
  {
    var p := RunTools(c, w, st, turn, acc);
    var calls, issued := acc.toolCalls, st.log + [Issued(turn, acc.toolCalls)];
    Quietly(c, w, st.log, issued);
    var g := RunGuard(c, st, calls);
    if OverBudget(c, st.usage) {
      GoneOnAllResolved(c, w, st.log, p.out);
    } else if g.Tripped? {
      GoneOnAllResolved(c, w, issued, p.out);
    } else {
      BatchWorks(c, w, turn, calls, g.forced, issued);
      var r := RunBatch(c, w, turn, calls, g.forced, issued);
      Quietly(c, w, issued, r.log);
      if r.BatchDone? && r.pending == [] {
        AfterToolsResolved(c, w, st.(repeatSig := g.sig, repeatCount := g.count, log := r.log), turn, r.results,
                           acc.usage);
      } else {
        GoneOnAllResolved(c, w, r.log, p.out);
      }
    }
  }

  /** The attempts of this turn beside those before. */
  lemma TurnJoined(c: Config, w: World, log: Log, r: TurnReply)
    requires AllGoneOn(c, w, log) && RepliesRight(c, w, r, |log|) && log <= TurnReplyLog(r)
    requires |log| < |TurnReplyLog(r)| && TurnReplyLog(r)[|log|].Ask? && TurnReplyLog(r)[|log|].attempt == 0
    ensures match r
            case Took(_, log') => AllGoneOn(c, w, log')
            case NotTaken(out) => AllResolved(c, w, out)
  {
    var later := TurnReplyLog(r);
    forall q: nat | q < |later| && later[q].Ask?
      ensures Justified(c, w, later, q)
      ensures r.Took? ==> GoneOn(c, w, later, q)
      ensures r.NotTaken? ==> Resolved(c, w, r.out, q)
    {
      if q < |log| {
        assert later[q] == log[q];
        StillJustified(c, w, log, later, q);
        StillGoneOn(c, w, log, later, q);
        if r.NotTaken? {
          GoneOnIsResolved(c, w, log, r.out, q);
        }
      }
    }
  }

  lemma AskAndActResolved(c: Config, w: World, st: State, turn: nat, request: seq<Message>)
    requires AllGoneOn(c, w, st.log)
    ensures PhaseResolved(c, w, AskAndAct(c, w, st, turn, request))
  {
    StreamTurnRetries(c, w, turn, 0, st.conversation, request, st.log);
    var r := StreamTurn(c, w, turn, 0, st.conversation, request, st.log);
    var asked := st.log + [Ask(turn, 0, st.conversation, request)];
    assert TurnReplyLog(r)[|st.log|] == asked[|st.log|];
    TurnJoined(c, w, st.log, r);
    if r.Took? {
      var st' := Absorb(st, turn, r.acc, r.log);
      Quietly(c, w, r.log, st'.log);
      if r.acc.toolCalls == [] {
        GoneOnAllResolved(c, w, st'.log, AskAndAct(c, w, st, turn, request).out);
      } else {
        RunToolsResolved(c, w, st', turn, r.acc);
      }
    }
  }

  lemma TurnResolved(c: Config, w: World, st: State, turn: nat)
    requires AllGoneOn(c, w, st.log)
    ensures PhaseResolved(c, w, Turn(c, w, st, turn))
  {
    if w.compactor.Some? {
      CompactResolved(c, w, st, turn, Usage(w.estimate(|st.log|, st.conversation), 0, 0, 0, 0));
    }
    match Proactive(c, w, st, turn)
    case Over(_) =>
    case Ready(st1) =>
      match Prepare(w, st1, turn)
      case Fail(_) => GoneOnAllResolved(c, w, st1.log, Turn(c, w, st, turn).out);
      case Ok(request) => AskAndActResolved(c, w, st1, turn, request);
  }

  lemma {:induction false} TurnsResolved(c: Config, w: World, st: State, turn: nat)
    requires AllGoneOn(c, w, st.log)
    ensures AllResolved(c, w, Turns(c, w, st, turn))
    decreases c.MaxTurns() - turn
  {
    if turn >= c.MaxTurns() {
      GoneOnAllResolved(c, w, st.log, Turns(c, w, st, turn));
    } else {
      TurnResolved(c, w, st, turn);
      match Turn(c, w, st, turn)
      case Over(_) =>
      case Ready(st') => TurnsResolved(c, w, st', turn + 1);
    }
  }

  /** Over a whole run: an attempt that fails before anything else does is followed at once
      by the same question if an attempt is left, the error is not one of the four final
      ones and the context is live, and otherwise by the end of the run; and no further
      attempt is made for any other reason. */
  lemma RunRetries(c: Config, w: World, input: seq<Message>)
    ensures AllResolved(c, w, Run(c, w, input))
  {
    TurnsResolved(c, w, State(input, ZERO_USAGE, "", "", "", 0, []), 0);
  }

  /** The same of a resumed run. */
  lemma ResumeRetries(c: Config, w: World, cp: Checkpoint, decisions: map<string, Approval>)
    ensures AllResolved(c, w, Resume(c, w, cp, decisions))
  {
    DecideCallsWorks(w, cp.turn, cp.calls, decisions, 0, ByID(cp.results), false, []);
    var r := DecideCalls(w, cp.turn, cp.calls, decisions, 0, ByID(cp.results), false, []);
    ProceedRetries(c, w, cp, r);
  }

  lemma ProceedRetries(c: Config, w: World, cp: Checkpoint, r: ResumeReply)
    requires forall k: nat :: k < |r.log| ==> !r.log[k].Ask?
    ensures AllResolved(c, w, Proceed(c, w, cp, r))
  {
    if r.Resumed? && !r.stillPending {
      TurnsResolved(c, w, ResumedState(cp, InCallOrder(cp.calls, r.byID), r.log), cp.turn + 1);
    } else {
      GoneOnAllResolved(c, w, r.log, Proceed(c, w, cp, r));
    }
  }
}

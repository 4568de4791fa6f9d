/** What a run makes of the streams it accepts, and what it reports of them in the end:
    stated over the log and the events, for whole runs. */
module Reports {
  import opened Gage
  import opened Accumulate
  import opened ToolCalls
  import opened RunLog
  import opened Goroutines
  import opened AgentLoop
  import opened Batches
  import opened LogFacts
  import opened Retries
  import Transcripts
  import PauseResume
  import RunFacts
  import Strings

  // ---- what a stream says ----

  /** The text of a stream: its text deltas, joined. */
  function TextSaid(events: seq<Event>): string {
    if events == [] then ""
    else
      var last := events[|events| - 1];
      TextSaid(events[..|events| - 1]) + if last.TextDelta? then last.text else ""
  }

  /** The stop reason it gives last. */
  function StopGiven(events: seq<Event>): StopReason {
    if events == [] then ""
    else
      var last := events[|events| - 1];
      if last.MessageDone? then last.stopReason else StopGiven(events[..|events| - 1])
  }

  /** The usage it reports last. */
  function UsageReported(events: seq<Event>): Usage {
    if events == [] then Usage(0, 0, 0, 0, 0)
    else
      var last := events[|events| - 1];
      if last.UsageEvent? then last.usage else UsageReported(events[..|events| - 1])
  }

  /** The assistant message it amounts to, if it has any content. */
  function MessageSaid(events: seq<Event>): seq<Message> {
    var content := Content(TakeAll(EMPTY_ACC, events));
    if content == [] then [] else [Message(RoleAssistant, content)]
  }

  /** The text of an accumulator after one more event. */
  lemma TextAfter(acc: Acc, ev: Event)
    requires Sound(acc)
    ensures AccText(Take(acc, ev)) == AccText(acc) + if ev.TextDelta? then ev.text else ""
  {
    assert AccText(acc) + "" == AccText(acc);
    match ev
    case TextDelta(s) => TextTaken(acc, s);
    case ReasoningDelta(s) => FlushSound(acc, "");
    case ReasoningDone(sig) => ReasoningTaken(acc, sig);
    case ToolCallDone(tc) =>
      FlushSound(acc, "");
      TextOfMore(Flush(acc, "").parts, ToolUsePart(tc));
    case _ =>
  }

  lemma TextOfMore(parts: seq<Part>, part: Part)
    ensures TextOf(parts + [part]) == TextOf(parts) + if part.TextPart? then part.text else ""
  {
    assert (parts + [part])[..|parts|] == parts;
  }

  lemma TextTaken(acc: Acc, s: string)
    requires Sound(acc)
    ensures AccText(Delta(acc, OpenText, s)) == AccText(acc) + s
  {
    FlushSound(acc, "");
    if acc.openKind == OpenText {
      assert (TextOf(acc.parts) + acc.openText) + s == TextOf(acc.parts) + (acc.openText + s);
    } else {
      assert "" + s == s;
      assert AccText(acc) + "" == AccText(acc);
    }
  }

  lemma ReasoningTaken(acc: Acc, sig: string)
    requires Sound(acc)
    ensures AccText(Take(acc, ReasoningDone(sig))) == AccText(acc)
  {
    FlushSound(acc, "");
    if acc.openKind == OpenReasoning {
      ThoughtFlushed(acc, sig);
    } else {
      ThoughtFlushed(Flush(acc, "").(openKind := OpenReasoning), sig);
    }
  }

  lemma ThoughtFlushed(acc: Acc, sig: string)
    requires acc.openKind == OpenReasoning
    ensures AccText(Flush(acc, sig)) == AccText(acc)
  {
    TextOfMore(acc.parts, ReasoningPart(acc.openText, sig));
    assert TextOf(acc.parts) + "" == TextOf(acc.parts);
  }

  lemma RestAfter(acc: Acc, ev: Event)
    ensures Take(acc, ev).stopReason == if ev.MessageDone? then ev.stopReason else acc.stopReason
    ensures Take(acc, ev).usage == if ev.UsageEvent? then ev.usage else acc.usage
    ensures Take(acc, ev).toolCalls == acc.toolCalls + if ev.ToolCallDone? then [ev.call] else []
  {
    assert acc.toolCalls + [] == acc.toolCalls;
  }

  /** The accumulator's account of a stream is what the stream says. */
  lemma {:induction false} TakenIsSaid(events: seq<Event>)
    ensures var acc := TakeAll(EMPTY_ACC, events);
            && Sound(acc)
            && AccText(acc) == TextSaid(events) && acc.stopReason == StopGiven(events)
            && acc.usage == UsageReported(events) && acc.toolCalls == PauseResume.CallsDone(events)
    decreases |events|
  {
    if events != [] {
      var front, last := events[..|events| - 1], events[|events| - 1];
      assert events == front + [last];
      TakenIsSaid(front);
      TakeAllSnoc(EMPTY_ACC, front, last);
      var acc := TakeAll(EMPTY_ACC, front);
      TakeSound(acc, last);
      TextAfter(acc, last);
      RestAfter(acc, last);
      PauseResume.CallsDoneMore(front, last);
    }
  }

  // ---- the streams of a run ----

  /** The last time the provider was asked, or -1. */
  function LastAsk(log: Log): (q: int)
    ensures -1 <= q < |log|
    ensures q >= 0 ==> log[q].Ask?
    ensures forall k :: q < k < |log| ==> !log[k].Ask?
  {
    if log == [] then -1
    else if log[|log| - 1].Ask? then |log| - 1
    else LastAsk(log[..|log| - 1])
  }

  /** The stream that was opened last. */
  function Heard(w: World, log: Log): seq<Event> {
    var q := LastAsk(log);
    if q < 0 then []
    else
      match ReplyTo(w, log, q)
      case Refused(_) => []
      case Streaming(events) => events
  }

  /** The text of the latest accepted stream that has any, or `start`. */
  function LatestText(w: World, log: Log, start: string): string {
    if log == [] then start
    else
      var before := log[..|log| - 1];
      if log[|log| - 1].Accepted? && TextSaid(Heard(w, before)) != "" then TextSaid(Heard(w, before))
      else LatestText(w, before, start)
  }

  /** What is accepted at moment `p` is the stream opened last, whole and without error,
      with the usage it reports. */
  ghost predicate AcceptedRight(w: World, log: Log, p: nat)
    requires p < |log| && log[p].Accepted?
  {
    var q := LastAsk(log[..p]);
    && q >= 0 && ReplyTo(w, log, q).Streaming?
    && Transcripts.NoErrors(Heard(w, log[..p]))
    && log[p] == Accepted(log[q].turn, UsageReported(Heard(w, log[..p])))
  }

  /** What has been used by moment `p` is at the budget or over it. */
  ghost predicate Exhausted(c: Config, base: Usage, log: Log, p: nat)
    requires p < |log|
  {
    var used := base.Add(RunFacts.Spent(log[..p + 1]));
    c.tokenBudget > 0 && used.input + used.output >= c.tokenBudget
  }

  /** The run goes on after the stream: it calls tools, and those are its calls. */
  ghost predicate CallsNext(c: Config, w: World, base: Usage, log: Log, p: nat)
    requires p < |log| && log[p].Accepted?
  {
    var calls := PauseResume.CallsDone(Heard(w, log[..p]));
    && AcceptedRight(w, log, p)
    && calls != [] && !Exhausted(c, base, log, p)
    && p + 1 < |log| && log[p + 1] == Issued(log[p].turn, calls)
  }

  /** The run ends right after the stream, with this. */
  ghost predicate EndsAfter(out: RunOut, p: nat, end: End, ev: Event) {
    && |out.log| == p + 2 && IsDelivery(out.log[p + 1]) && out.log[p + 1].event == ev
    && out.end == end
  }

  /** What is reported of a run whose last stream was accepted at `p`: the conversation
      that stream was asked about and its message, the latest text, the stop reason it
      gave, what was used in all, and the turns up to its own. */
  ghost function Report(w: World, base: Usage, start: string, log: Log, p: nat): RunResult
    requires p < |log| && log[p].Accepted? && AcceptedRight(w, log, p)
  {
    var said, ask := Heard(w, log[..p]), log[LastAsk(log[..p])];
    RunResult(ask.conversation + MessageSaid(said), LatestText(w, log[..p + 1], start), StopGiven(said),
              base.Add(RunFacts.Spent(log[..p + 1])), ask.turn + 1)
  }

  /** What follows an accepted stream: without tool calls the end of the run, with the
      report; over the budget its failure; and else its tool calls. */
  ghost predicate ActedOn(c: Config, w: World, base: Usage, start: string, out: RunOut, p: nat)
    requires p < |out.log| && out.log[p].Accepted?
  {
    && AcceptedRight(w, out.log, p)
    && if PauseResume.CallsDone(Heard(w, out.log[..p])) == [] then
         var report := Report(w, base, start, out.log, p);
         EndsAfter(out, p, Finished(report), DoneEvent(report))
       else if Exhausted(c, base, out.log, p) then
         var used := base.Add(RunFacts.Spent(out.log[..p + 1]));
         var err := BudgetExceeded(used.input + used.output, c.tokenBudget);
         EndsAfter(out, p, Failed(err), ErrorEvent(Some(err), ""))
       else CallsNext(c, w, base, out.log, p)
  }

  /** A run that finishes does so after such a stream. */
  ghost predicate FinishesAfter(out: RunOut) {
    out.end.Finished? ==>
      |out.log| >= 2 && out.log[|out.log| - 2].Accepted? && IsDelivery(out.log[|out.log| - 1])
  }

  /** A pause made in a turn of this run is about the last stream accepted, and tells its
      message, calls, stop reason and turn. */
  ghost predicate PausesOn(w: World, base: Usage, out: RunOut, cp: Checkpoint, p: nat) {
    && p < |out.log| && out.log[p].Accepted? && AcceptedRight(w, out.log, p)
    && (forall k :: p < k < |out.log| ==> !out.log[k].Accepted? && !out.log[k].Compacted?)
    && var said, ask := Heard(w, out.log[..p]), out.log[LastAsk(out.log[..p])];
       && cp.messages == ask.conversation + MessageSaid(said)
       && cp.turn == ask.turn && cp.usage == base.Add(RunFacts.Spent(out.log)) && cp.stopReason == StopGiven(said)
       && cp.calls == PauseResume.CallsDone(said)
  }

  ghost predicate PausesRight(w: World, base: Usage, out: RunOut) {
    out.end.Suspended? ==> exists p: nat :: PausesOn(w, base, out, out.end.checkpoint, p)
  }

  /** What holds of the streams accepted so far in a run that goes on. */
  ghost predicate AllCallNext(c: Config, w: World, base: Usage, log: Log) {
    forall p: nat :: p < |log| && log[p].Accepted? ==> CallsNext(c, w, base, log, p)
  }

  ghost predicate AllActedOn(c: Config, w: World, base: Usage, start: string, out: RunOut) {
    && (forall p: nat :: p < |out.log| && out.log[p].Accepted? ==> ActedOn(c, w, base, start, out, p))
    && FinishesAfter(out) && PausesRight(w, base, out)
  }

  ghost predicate Told(c: Config, w: World, base: Usage, start: string, st: State) {
    && AllCallNext(c, w, base, st.log)
    && st.usage == base.Add(RunFacts.Spent(st.log))
    && st.lastText == LatestText(w, st.log, start)
  }

  ghost predicate PhaseTold(c: Config, w: World, base: Usage, start: string, p: Phase) {
    match p
    case Ready(st) => Told(c, w, base, start, st)
    case Over(out) => AllActedOn(c, w, base, start, out)
  }

  // ---- growing logs ----

  lemma SameHeard(w: World, log: Log, later: Log, p: nat)
    requires p <= |log| && log <= later
    ensures Heard(w, log[..p]) == Heard(w, later[..p]) && LastAsk(log[..p]) == LastAsk(later[..p])
  {
    assert log[..p] == later[..p];
  }

  lemma StillAccepted(w: World, log: Log, later: Log, p: nat)
    requires p < |log| && log[p].Accepted? && log <= later
    ensures AcceptedRight(w, later, p) <==> AcceptedRight(w, log, p)
  {
    SameHeard(w, log, later, p);
    var q := LastAsk(log[..p]);
    assert q >= 0 ==> later[q] == log[q];
  }

  lemma StillCallsNext(c: Config, w: World, base: Usage, log: Log, later: Log, p: nat)
    requires p < |log| && log[p].Accepted? && log <= later && CallsNext(c, w, base, log, p)
    ensures CallsNext(c, w, base, later, p)
  {
    StillAccepted(w, log, later, p);
    SameHeard(w, log, later, p);
    assert log[..p + 1] == later[..p + 1];
  }

  /** Steps that accept nothing. */
  lemma {:induction false} SameText(w: World, log: Log, later: Log, start: string)
    requires log <= later && forall k: nat :: |log| <= k < |later| ==> !later[k].Accepted?
    ensures LatestText(w, later, start) == LatestText(w, log, start)
    decreases |later|
  {
    if |later| == |log| {
      assert later == log;
    } else {
      var before := later[..|later| - 1];
      SameText(w, log, before, start);
    }
  }

  ghost predicate NoneAccepted(log: Log, later: Log) {
    log <= later && forall k: nat :: |log| <= k < |later| ==> !later[k].Accepted?
  }

  lemma StillAllCallNext(c: Config, w: World, base: Usage, log: Log, later: Log)
    requires AllCallNext(c, w, base, log) && NoneAccepted(log, later)
    ensures AllCallNext(c, w, base, later)
  {
    forall p: nat | p < |later| && later[p].Accepted?
      ensures CallsNext(c, w, base, later, p)
    {
      assert later[p] == log[p];
      StillCallsNext(c, w, base, log, later, p);
    }
  }

  /** The run ends on something else. */
  lemma EndsOtherwise(c: Config, w: World, base: Usage, start: string, log: Log, out: RunOut)
    requires AllCallNext(c, w, base, log) && NoneAccepted(log, out.log)
    requires !out.end.Finished? && !out.end.Suspended?
    ensures AllActedOn(c, w, base, start, out)
  {
    StillAllCallNext(c, w, base, log, out.log);
  }

  // ---- turns and runs ----

  /** What an attempt that is taken amounts to. */
  ghost predicate Takes(w: World, r: TurnReply, from: nat, turn: nat, conversation: seq<Message>) {
    r.Took? ==>
      var q := LastAsk(r.log);
      && from <= q && ReplyTo(w, r.log, q).Streaming?
      && Transcripts.NoErrors(Heard(w, r.log)) && r.acc == TakeAll(EMPTY_ACC, Heard(w, r.log))
      && r.log[q].turn == turn && r.log[q].conversation == conversation
  }

  lemma LastAskThen(asked: Log, log: Log)
    requires Relayed(asked, log) && asked != [] && asked[|asked| - 1].Ask?
    ensures LastAsk(log) == |asked| - 1
  {
    var q := LastAsk(log);
    assert log[|asked| - 1] == asked[|asked| - 1];
    assert q >= |asked| - 1;
    assert q >= |asked| ==> IsDelivery(log[q]);
  }

  lemma {:induction false} StreamTurnTakes(c: Config, w: World, turn: nat, attempt: nat, conversation: seq<Message>,
                                          request: seq<Message>, log: Log)
    ensures Takes(w, StreamTurn(c, w, turn, attempt, conversation, request, log), |log|, turn, conversation)
    decreases c.Retries() - attempt, 1
  {
    var asked := log + [Ask(turn, attempt, conversation, request)];
    match w.stream(|log|, turn, attempt, request)
    case Refused(err) =>
      RetryTakes(c, w, turn, attempt, conversation, request, err, ErrorEvent(Some(err), ""), asked);
    case Streaming(events) =>
      ConsumeRelays(w, turn, events, EMPTY_ACC, asked);
      Transcripts.ConsumeTakesAll(w, turn, events, EMPTY_ACC, asked);
      match Consume(w, turn, events, EMPTY_ACC, asked)
      case Complete(acc, log') =>
        LastAskThen(asked, log');
        assert log'[|log|] == asked[|log|];
      case Broken(_) =>
      case StreamError(ev, log') =>
        RetryTakes(c, w, turn, attempt, conversation, request, ErrorOf(ev), ev, log');
  }

  lemma {:induction false} RetryTakes(c: Config, w: World, turn: nat, attempt: nat, conversation: seq<Message>,
                                     request: seq<Message>, err: Err, last: Event, log: Log)
    ensures Takes(w, Retry(c, w, turn, attempt, conversation, request, err, last, log), |log|, turn, conversation)
    decreases c.Retries() - attempt, 0
  {
    if attempt < c.Retries() && Retryable(err) && w.ctxErr(|log|).None? {
      StreamTurnTakes(c, w, turn, attempt + 1, conversation, request, log);
    }
  }

  /** Taking a stream in: the account, the text, the message. */
  lemma Absorbed(c: Config, w: World, base: Usage, start: string, st: State, turn: nat, acc: Acc, log: Log)
    requires Told(c, w, base, start, st) && NoneAccepted(st.log, log)
    requires forall k: nat :: |st.log| <= k < |log| ==> !log[k].Compacted?
    requires Takes(w, Took(acc, log), |st.log|, turn, st.conversation)
    ensures var st' := Absorb(st, turn, acc, log);
            && AcceptedRight(w, st'.log, |log|)
            && st'.log == log + [Accepted(turn, UsageReported(Heard(w, log)))]
            && st'.usage == base.Add(RunFacts.Spent(st'.log))
            && st'.lastText == LatestText(w, st'.log, start)
            && st'.lastStop == StopGiven(Heard(w, log))
            && st'.conversation == st.conversation + MessageSaid(Heard(w, log))
            && acc.toolCalls == PauseResume.CallsDone(Heard(w, log))
  {
    var st', events := Absorb(st, turn, acc, log), Heard(w, log);
    TakenIsSaid(events);
    assert st'.log[..|log|] == log;
    StillAskedLast(w, log, st'.log);
    SameText(w, st.log, log, start);
    RunFacts.SpentSame(st.log, log);
    RunFacts.AddAssociates(base, RunFacts.Spent(log), acc.usage);
    assert st.conversation + [] == st.conversation;
  }

  lemma StillAskedLast(w: World, log: Log, later: Log)
    requires log < later && later[|log|].Accepted? && LastAsk(log) >= 0
    requires var q := LastAsk(log);
             ReplyTo(w, log, q).Streaming? && Transcripts.NoErrors(Heard(w, log))
             && later[|log|] == Accepted(log[q].turn, UsageReported(Heard(w, log)))
    ensures AcceptedRight(w, later, |log|)
  {
    assert later[..|log|] == log;
    assert later[LastAsk(log)] == log[LastAsk(log)];
  }

  /** The new stream beside those before it. */
  lemma OneMoreActedOn(c: Config, w: World, base: Usage, start: string, log: Log, mid: Log, out: RunOut)
    requires AllCallNext(c, w, base, log) && NoneAccepted(log, mid)
    requires mid < out.log && out.log[|mid|].Accepted? && ActedOn(c, w, base, start, out, |mid|)
    requires forall k: nat :: |mid| < k < |out.log| ==> !out.log[k].Accepted?
    requires FinishesAfter(out) && PausesRight(w, base, out)
    ensures AllActedOn(c, w, base, start, out)
  {
    forall p: nat | p < |out.log| && out.log[p].Accepted?
      ensures ActedOn(c, w, base, start, out, p)
    {
      if p < |mid| {
        assert out.log[p] == mid[p] == log[p];
        StillCallsNext(c, w, base, log, out.log, p);
      }
    }
  }

  /** The end of a run without tool calls. */
  lemma FinishedRight(c: Config, w: World, base: Usage, start: string, st: State, turn: nat, acc: Acc, log: Log,
                      out: RunOut)
    requires Told(c, w, base, start, st) && NoneAccepted(st.log, log)
    requires forall k: nat :: |st.log| <= k < |log| ==> !log[k].Compacted?
    requires Takes(w, Took(acc, log), |st.log|, turn, st.conversation) && acc.toolCalls == []
    requires var st' := Absorb(st, turn, acc, log);
             var result := Conclude(st', turn);
             out == RunOut(Finished(result), Send(w, turn, DoneEvent(result), st'.log))
    ensures AllActedOn(c, w, base, start, out)
  {
    Absorbed(c, w, base, start, st, turn, acc, log);
    var st' := Absorb(st, turn, acc, log);
    assert out.log[..|log|] == log && out.log[..|log| + 1] == st'.log;
    StillAccepted(w, st'.log, out.log, |log|);
    assert out.log[LastAsk(log)] == log[LastAsk(log)];
    assert out.end.result == Report(w, base, start, out.log, |log|);
    OneMoreActedOn(c, w, base, start, st.log, log, out);
  }

  /** A stream that calls tools. */
  lemma ToolsRight(c: Config, w: World, base: Usage, start: string, st: State, turn: nat, acc: Acc, log: Log)
    requires Told(c, w, base, start, st) && NoneAccepted(st.log, log)
    requires forall k: nat :: |st.log| <= k < |log| ==> !log[k].Compacted?
    requires Takes(w, Took(acc, log), |st.log|, turn, st.conversation) && acc.toolCalls != []
    ensures PhaseTold(c, w, base, start, RunTools(c, w, Absorb(st, turn, acc, log), turn, acc))
  {
    Absorbed(c, w, base, start, st, turn, acc, log);
    var st' := Absorb(st, turn, acc, log);
    if OverBudget(c, st'.usage) {
      OverBudgetRight(c, w, base, start, st, st', turn, log, RunTools(c, w, st', turn, acc).out);
    } else {
      IssuedRight(c, w, base, start, st, st', turn, log, acc.toolCalls);
      var issued := st'.log + [Issued(turn, acc.toolCalls)];
      var g := RunGuard(c, st', acc.toolCalls);
      if g.Tripped? {
        EndsOtherwise(c, w, base, start, issued, RunTools(c, w, st', turn, acc).out);
      } else {
        StillJustTook(c, w, base, start, st', turn, acc, log);
        PassedRight(c, w, base, start, st', turn, acc, |log|);
      }
    }
  }

  lemma StillJustTook(c: Config, w: World, base: Usage, start: string, st: State, turn: nat, acc: Acc, log: Log)
    requires |st.log| == |log| + 1 && log < st.log && st.log[|log|].Accepted? && AcceptedRight(w, st.log, |log|)
    requires st.log[|log|].turn == turn
    requires LastAsk(log) >= 0 && st.conversation == log[LastAsk(log)].conversation + MessageSaid(Heard(w, log))
    requires st.usage == base.Add(RunFacts.Spent(st.log)) && st.lastText == LatestText(w, st.log, start)
    requires acc == TakeAll(EMPTY_ACC, Heard(w, log))
    ensures JustTook(c, w, base, start, st, turn, acc, |log|)
  {
    assert st.log[..|log|] == log && st.log[LastAsk(log)] == log[LastAsk(log)];
    TakenIsSaid(Heard(w, log));
  }

  lemma OverBudgetRight(c: Config, w: World, base: Usage, start: string, st: State, st': State, turn: nat, log: Log,
                        out: RunOut)
    requires AllCallNext(c, w, base, st.log) && NoneAccepted(st.log, log)
    requires |st'.log| == |log| + 1 && log < st'.log && st'.log[|log|].Accepted? && AcceptedRight(w, st'.log, |log|)
    requires st'.usage == base.Add(RunFacts.Spent(st'.log)) && OverBudget(c, st'.usage)
    requires PauseResume.CallsDone(Heard(w, log)) != []
    requires out == FailWith(w, turn, BudgetError(c, st'.usage), st'.log)
    ensures AllActedOn(c, w, base, start, out)
  {
    assert out.log[..|log|] == log == st'.log[..|log|] && out.log[..|log| + 1] == st'.log;
    StillAccepted(w, st'.log, out.log, |log|);
    OneMoreActedOn(c, w, base, start, st.log, log, out);
  }

  lemma IssuedRight(c: Config, w: World, base: Usage, start: string, st: State, st': State, turn: nat, log: Log,
                    calls: seq<ToolCall>)
    requires AllCallNext(c, w, base, st.log) && NoneAccepted(st.log, log)
    requires |st'.log| == |log| + 1 && log < st'.log && st'.log[|log|].Accepted? && AcceptedRight(w, st'.log, |log|)
    requires st'.log[|log|].turn == turn
    requires st'.usage == base.Add(RunFacts.Spent(st'.log)) && !OverBudget(c, st'.usage)
    requires calls == PauseResume.CallsDone(Heard(w, log)) && calls != []
    ensures AllCallNext(c, w, base, st'.log + [Issued(turn, calls)])
  {
    var issued := st'.log + [Issued(turn, calls)];
    StillAccepted(w, st'.log, issued, |log|);
    assert issued[..|log|] == log && issued[..|log| + 1] == st'.log;
    forall p: nat | p < |issued| && issued[p].Accepted?
      ensures CallsNext(c, w, base, issued, p)
    {
      if p < |log| {
        assert issued[p] == log[p] == st.log[p];
        StillCallsNext(c, w, base, st.log, issued, p);
      }
    }
  }

  /** The state once the stream at `p` was taken in, and its calls issued. */
  ghost predicate JustTook(c: Config, w: World, base: Usage, start: string, st: State, turn: nat, acc: Acc, p: nat) {
    && |st.log| == p + 1 && st.log[p].Accepted? && AcceptedRight(w, st.log, p)
    && var said, ask := Heard(w, st.log[..p]), st.log[LastAsk(st.log[..p])];
       && st.conversation == ask.conversation + MessageSaid(said) && turn == ask.turn
       && st.usage == base.Add(RunFacts.Spent(st.log)) && st.lastText == LatestText(w, st.log, start)
       && acc.stopReason == StopGiven(said) && acc.toolCalls == PauseResume.CallsDone(said)
  }

  lemma PassedRight(c: Config, w: World, base: Usage, start: string, st: State, turn: nat, acc: Acc, p: nat)
    requires JustTook(c, w, base, start, st, turn, acc, p)
    requires !OverBudget(c, st.usage) && RunGuard(c, st, acc.toolCalls).Passed?
    requires AllCallNext(c, w, base, st.log + [Issued(turn, acc.toolCalls)])
    ensures PhaseTold(c, w, base, start, RunTools(c, w, st, turn, acc))
  {
    var g, issued := RunGuard(c, st, acc.toolCalls), st.log + [Issued(turn, acc.toolCalls)];
    BatchWorks(c, w, turn, acc.toolCalls, g.forced, issued);
    AfterBatchRight(c, w, base, start, st, turn, acc, p, g.sig, g.count, issued,
                    RunBatch(c, w, turn, acc.toolCalls, g.forced, issued));
  }

  lemma AfterBatchRight(c: Config, w: World, base: Usage, start: string, st: State, turn: nat, acc: Acc, p: nat,
                        sig: string, count: nat, issued: Log, r: BatchReply)
    requires JustTook(c, w, base, start, st, turn, acc, p)
    requires AllCallNext(c, w, base, issued) && issued == st.log + [Issued(turn, acc.toolCalls)]
    requires LogFacts.Worked(issued, r.log, turn, acc.toolCalls)
    ensures PhaseTold(c, w, base, start, AfterBatch(c, w, st.(repeatSig := sig, repeatCount := count), turn, acc, r))
  {
    if r.BatchCut? {
      CutRight(c, w, base, start, turn, issued, r.log);
    } else if r.pending != [] {
      var cp := Checkpoint(st.conversation, turn, st.usage, acc.stopReason, acc.toolCalls, r.results);
      PausedRight(c, w, base, start, st, turn, acc, p, issued, r.log, Pause(w, cp, r.log));
    } else {
      BatchDoneRight(c, w, base, start, st, st.(repeatSig := sig, repeatCount := count, log := r.log), turn, issued,
                     acc.toolCalls, r.results, acc.usage);
    }
  }

  lemma BatchDoneRight(c: Config, w: World, base: Usage, start: string, st: State, st1: State, turn: nat, issued: Log,
                       calls: seq<ToolCall>, results: seq<ToolResult>, reported: Usage)
    requires st.usage == base.Add(RunFacts.Spent(st.log)) && st.lastText == LatestText(w, st.log, start)
    requires AllCallNext(c, w, base, issued) && issued == st.log + [Issued(turn, calls)]
    requires LogFacts.Worked(issued, st1.log, turn, calls)
    requires st1.usage == st.usage && st1.lastText == st.lastText
    ensures PhaseTold(c, w, base, start, AfterTools(c, w, st1, turn, results, reported))
  {
    OnlyWorked(st.log, issued, st1.log, turn, calls);
    BatchTold(c, w, base, start, st, issued, st1);
    AfterToolsRight(c, w, base, start, st1, turn, results, reported);
  }

  lemma OnlyWorked(log: Log, issued: Log, later: Log, turn: nat, calls: seq<ToolCall>)
    requires issued == log + [Issued(turn, calls)] && LogFacts.Worked(issued, later, turn, calls)
    ensures log <= issued <= later && NoneAccepted(log, later)
    ensures forall k: nat :: |log| <= k < |later| ==> !later[k].Compacted?
  {
    assert later[|log|] == issued[|log|];
  }

  lemma CutRight(c: Config, w: World, base: Usage, start: string, turn: nat, issued: Log, log: Log)
    requires AllCallNext(c, w, base, issued) && NoneAccepted(issued, log)
    ensures AllActedOn(c, w, base, start, CutShort(w, turn, log))
  {
    EndsOtherwise(c, w, base, start, issued, CutShort(w, turn, log));
  }

  lemma BatchTold(c: Config, w: World, base: Usage, start: string, st: State, issued: Log, st1: State)
    requires AllCallNext(c, w, base, issued) && st.log <= issued <= st1.log && NoneAccepted(st.log, st1.log)
    requires forall k: nat :: |st.log| <= k < |st1.log| ==> !st1.log[k].Compacted?
    requires st.usage == base.Add(RunFacts.Spent(st.log)) && st.lastText == LatestText(w, st.log, start)
    requires st1.usage == st.usage && st1.lastText == st.lastText
    ensures Told(c, w, base, start, st1)
  {
    StillAllCallNext(c, w, base, issued, st1.log);
    SameText(w, st.log, st1.log, start);
    RunFacts.SpentSame(st.log, st1.log);
  }

  lemma PausedRight(c: Config, w: World, base: Usage, start: string, st: State, turn: nat, acc: Acc, p: nat,
                    issued: Log, log: Log, out: RunOut)
    requires JustTook(c, w, base, start, st, turn, acc, p)
    requires AllCallNext(c, w, base, issued) && st.log <= issued <= log
    requires forall k: nat :: |st.log| <= k < |log| ==> !log[k].Accepted? && !log[k].Compacted?
    requires out.end.Suspended? && var cp := out.end.checkpoint;
             && cp == Checkpoint(st.conversation, turn, st.usage, acc.stopReason, acc.toolCalls, cp.results)
             && out == Pause(w, cp, log)
    ensures AllActedOn(c, w, base, start, out)
  {
    StillAllCallNext(c, w, base, issued, out.log);
    assert st.log <= out.log;
    StillAccepted(w, st.log, out.log, p);
    SameHeard(w, st.log, out.log, p);
    var q := LastAsk(st.log[..p]);
    assert out.log[q] == st.log[q] && out.log[p] == st.log[p];
    RunFacts.SpentSame(st.log, out.log);
    assert PausesOn(w, base, out, out.end.checkpoint, p);
  }

  lemma AfterToolsRight(c: Config, w: World, base: Usage, start: string, st: State, turn: nat,
                        results: seq<ToolResult>, reported: Usage)
    requires Told(c, w, base, start, st)
    ensures PhaseTold(c, w, base, start, AfterTools(c, w, st, turn, results, reported))
  {
    if w.compactor.Some? {
      var st1 := st.(conversation := st.conversation + ToolResultMessages(results));
      CompactRight(c, w, base, start, st1, turn, reported);
    }
  }

  lemma CompactRight(c: Config, w: World, base: Usage, start: string, st: State, turn: nat, reported: Usage)
    requires w.compactor.Some? && Told(c, w, base, start, st)
    ensures PhaseTold(c, w, base, start, Compact(c, w, st, turn, reported))
  {
    match w.compactor.value(|st.log|, st.conversation, reported)
    case CompactFailed(_) => EndsOtherwise(c, w, base, start, st.log, Compact(c, w, st, turn, reported).out);
    case Shrunk(messages, used) =>
      var st' := st.(conversation := messages, usage := st.usage.Add(used), log := st.log + [Compacted(used)]);
      CompactedTold(c, w, base, start, st, st', used);
      if OverBudget(c, st'.usage) {
        EndsOtherwise(c, w, base, start, st'.log, Compact(c, w, st, turn, reported).out);
      }
  }

  lemma CompactedTold(c: Config, w: World, base: Usage, start: string, st: State, st': State, used: Usage)
    requires Told(c, w, base, start, st)
    requires st'.log == st.log + [Compacted(used)] && st'.usage == st.usage.Add(used) && st'.lastText == st.lastText
    ensures Told(c, w, base, start, st')
  {
    assert st'.log[..|st.log|] == st.log;
    SameText(w, st.log, st'.log, start);
    RunFacts.AddAssociates(base, RunFacts.Spent(st.log), used);
    StillAllCallNext(c, w, base, st.log, st'.log);
  }

  lemma AskAndActRight(c: Config, w: World, base: Usage, start: string, st: State, turn: nat, request: seq<Message>)
    requires Told(c, w, base, start, st)
    ensures PhaseTold(c, w, base, start, AskAndAct(c, w, st, turn, request))
  {
    StreamTurnAsks(c, w, turn, 0, st.conversation, request, st.log);
    StreamTurnTakes(c, w, turn, 0, st.conversation, request, st.log);
    match StreamTurn(c, w, turn, 0, st.conversation, request, st.log)
    case NotTaken(out) =>
      Transcripts.StreamTurnHandsOutNothing(c, w, turn, 0, st.conversation, request, st.log);
      EndsOtherwise(c, w, base, start, st.log, out);
    case Took(acc, log) =>
      if acc.toolCalls == [] {
        FinishedRight(c, w, base, start, st, turn, acc, log, AskAndAct(c, w, st, turn, request).out);
      } else {
        ToolsRight(c, w, base, start, st, turn, acc, log);
      }
  }

  lemma TurnRight(c: Config, w: World, base: Usage, start: string, st: State, turn: nat)
    requires Told(c, w, base, start, st)
    ensures PhaseTold(c, w, base, start, Turn(c, w, st, turn))
  {
    if w.compactor.Some? {
      CompactRight(c, w, base, start, st, turn, Usage(w.estimate(|st.log|, st.conversation), 0, 0, 0, 0));
    }
    match Proactive(c, w, st, turn)
    case Over(_) =>
    case Ready(st1) =>
      match Prepare(w, st1, turn)
      case Fail(_) => EndsOtherwise(c, w, base, start, st1.log, Turn(c, w, st, turn).out);
      case Ok(request) => AskAndActRight(c, w, base, start, st1, turn, request);
  }

  lemma {:induction false} TurnsRight(c: Config, w: World, base: Usage, start: string, st: State, turn: nat)
    requires Told(c, w, base, start, st)
    ensures AllActedOn(c, w, base, start, Turns(c, w, st, turn))
    decreases c.MaxTurns() - turn
  {
    if turn >= c.MaxTurns() {
      EndsOtherwise(c, w, base, start, st.log, Turns(c, w, st, turn));
    } else {
      TurnRight(c, w, base, start, st, turn);
      match Turn(c, w, st, turn)
      case Over(_) =>
      case Ready(st') => TurnsRight(c, w, base, start, st', turn + 1);
    }
  }

  /** Over a whole run: what is accepted is the stream just opened, whole, with the usage
      it reports; without tool calls the run ends on it, with the conversation that stream
      was asked about and its message, the latest text, the stop reason it gave, all that
      was used and the turns so far; over the budget the run fails; and otherwise its calls
      are issued. A pause tells the same of the last stream. */
  lemma RunReports(c: Config, w: World, input: seq<Message>)
    ensures AllActedOn(c, w, ZERO_USAGE, "", Run(c, w, input))
  {
    StartReports(c, w, ZERO_USAGE, "", State(input, ZERO_USAGE, "", "", "", 0, []), 0);
  }

  lemma StartReports(c: Config, w: World, base: Usage, start: string, st: State, turn: nat)
    requires base == ZERO_USAGE == st.usage && st.lastText == start && st.log == []
    ensures AllActedOn(c, w, base, start, Turns(c, w, st, turn))
  {
    RunFacts.NothingUsed(c, base);
    NothingYet(c, w, base, start, st);
    TurnsRight(c, w, base, start, st, turn);
  }

  lemma NothingYet(c: Config, w: World, base: Usage, start: string, st: State)
    requires st.usage == base && base.Add(ZERO_USAGE) == base && st.lastText == start && st.log == []
    ensures Told(c, w, base, start, st)
  {
  }

  /** What a finished run says, in terms of its last stream. */
  lemma FinishedSays(c: Config, w: World, base: Usage, start: string, out: RunOut)
    requires AllActedOn(c, w, base, start, out) && out.end.Finished?
    ensures var q, events, result := LastAsk(out.log), Heard(w, out.log), out.end.result;
            && q >= 0 && ReplyTo(w, out.log, q) == Streaming(events) && Transcripts.NoErrors(events)
            && PauseResume.CallsDone(events) == []
            && result.turns == out.log[q].turn + 1
            && result.stopReason == StopGiven(events)
            && result.text == LatestText(w, out.log, start)
            && result.messages == out.log[q].conversation + MessageSaid(events)
            && result.usage == base.Add(RunFacts.Spent(out.log))
  {
    var p := |out.log| - 2;
    assert ActedOn(c, w, base, start, out, p);
    FinishedOn(c, w, base, start, out, p);
    FinishedAt(w, base, start, out, p);
  }

  lemma FinishedOn(c: Config, w: World, base: Usage, start: string, out: RunOut, p: nat)
    requires p == |out.log| - 2 && out.log[p].Accepted? && IsDelivery(out.log[p + 1]) && out.end.Finished?
    requires ActedOn(c, w, base, start, out, p)
    ensures AcceptedRight(w, out.log, p) && PauseResume.CallsDone(Heard(w, out.log[..p])) == []
    ensures out.end.result == Report(w, base, start, out.log, p)
  {
  }

  lemma FinishedAt(w: World, base: Usage, start: string, out: RunOut, p: nat)
    requires p == |out.log| - 2 && out.log[p].Accepted? && IsDelivery(out.log[p + 1]) && out.end.Finished?
    requires AcceptedRight(w, out.log, p) && out.end.result == Report(w, base, start, out.log, p)
    ensures var q, events, result := LastAsk(out.log), Heard(w, out.log), out.end.result;
            && q >= 0 && events == Heard(w, out.log[..p]) && ReplyTo(w, out.log, q) == Streaming(events)
            && Transcripts.NoErrors(events)
            && result.turns == out.log[q].turn + 1
            && result.stopReason == StopGiven(events)
            && result.text == LatestText(w, out.log, start)
            && result.messages == out.log[q].conversation + MessageSaid(events)
            && result.usage == base.Add(RunFacts.Spent(out.log))
  {
    var before, most := out.log[..p], out.log[..p + 1];
    LastAskStays(out.log, p);
    assert before[LastAsk(before)] == out.log[LastAsk(before)];
    SameText(w, most, out.log, start);
    RunFacts.SpentSame(most, out.log);
  }

  lemma LastAskStays(log: Log, p: nat)
    requires p < |log| && forall k: nat :: p <= k < |log| ==> !log[k].Ask?
    ensures LastAsk(log) == LastAsk(log[..p])
  {
    var before := log[..p];
    var q := LastAsk(log);
    if q >= 0 {
      assert before[q] == log[q];
    }
    if LastAsk(before) >= 0 {
      assert log[LastAsk(before)] == before[LastAsk(before)];
    }
  }

  /** The same of a resumed run that goes on from its checkpoint: on top of what was used,
      and with the text of the checkpoint's messages to begin with. */
  lemma ResumeReports(c: Config, w: World, cp: Checkpoint, decisions: map<string, Approval>)
    ensures var r := DecideCalls(w, cp.turn, cp.calls, decisions, 0, ByID(cp.results), false, []);
            r.Resumed? && !r.stillPending ==>
              AllActedOn(c, w, cp.usage, LastAssistantText(cp.messages), Resume(c, w, cp, decisions))
  {
    DecideCallsWorks(w, cp.turn, cp.calls, decisions, 0, ByID(cp.results), false, []);
    ProceedReports(c, w, cp, DecideCalls(w, cp.turn, cp.calls, decisions, 0, ByID(cp.results), false, []));
  }

  lemma ProceedReports(c: Config, w: World, cp: Checkpoint, r: ResumeReply)
    requires LogFacts.Worked([], r.log, cp.turn, cp.calls)
    ensures r.Resumed? && !r.stillPending ==>
              AllActedOn(c, w, cp.usage, LastAssistantText(cp.messages), Proceed(c, w, cp, r))
  {
    if r.Resumed? && !r.stillPending {
      var st, start := ResumedState(cp, InCallOrder(cp.calls, r.byID), r.log), LastAssistantText(cp.messages);
      StartsTold(c, w, start, st);
      TurnsRight(c, w, cp.usage, start, st, cp.turn + 1);
    }
  }

  lemma StartsTold(c: Config, w: World, start: string, st: State)
    requires st.lastText == start
    requires forall k: nat :: k < |st.log| ==> IsDelivery(st.log[k]) || st.log[k].ToolStep?
    ensures Told(c, w, st.usage, start, st)
  {
    RunFacts.SpentSame([], st.log);
    SameText(w, [], st.log, start);
  }
}

/** What holds of every run: how it ends, what it reports as used, and what it may
    do under a token budget. */
module RunFacts {
  import opened Gage
  import opened Accumulate
  import opened ToolCalls
  import opened RunLog
  import opened AgentLoop
  import opened Batches
  import opened LogFacts

  predicate Terminal(ev: Event) {
    ev.ErrorEvent? || ev.PausedEvent? || ev.DoneEvent?
  }

  /** Reading the stream as far as its first error, its `i`-th event is `ev`. */
  predicate SendsAt(events: seq<Event>, i: nat, ev: Event) {
    i < |events| && events[i] == ev && forall j :: 0 <= j <= i ==> !events[j].ErrorEvent?
  }

  /** The delivery at `k` relays an event of a stream that was opened: the one that many
      places into it. */
  ghost predicate FromProvider(w: World, log: Log, k: nat)
    requires k < |log| && IsDelivery(log[k])
  {
    exists q: nat, events ::
      q < k && log[q].Ask? && Opened(w, log[q], q, events) && SendsAt(events, k - q - 1, log[k].event)
  }

  /** Before its first error the stream has an event that ends runs. */
  ghost predicate SendsEnding(events: seq<Event>) {
    exists i: nat, ev :: SendsAt(events, i, ev) && Terminal(ev)
  }

  /** No stream of the world does. */
  ghost predicate ProvidersLeaveEndings(w: World) {
    forall n: nat, turn: nat, attempt: nat, request: seq<Message> ::
      var r := w.stream(n, turn, attempt, request);
      r.Streaming? ==> !SendsEnding(r.events)
  }

  /** The agent itself has not ended the run so far: an event that ends runs is one a
      provider slipped into its stream, and never an error, which is not relayed. */
  ghost predicate StillOpen(w: World, log: Log) {
    forall k: nat :: k < |log| && IsDelivery(log[k]) && Terminal(log[k].event) ==>
      !log[k].event.ErrorEvent? && FromProvider(w, log, k)
  }

  lemma OpenMore(w: World, log: Log, log': Log)
    requires StillOpen(w, log) && log <= log'
    requires forall k: nat :: |log| <= k < |log'| && IsDelivery(log'[k]) && Terminal(log'[k].event) ==>
               !log'[k].event.ErrorEvent? && FromProvider(w, log', k)
    ensures StillOpen(w, log')
  {
    forall k: nat | k < |log| && IsDelivery(log'[k]) && Terminal(log'[k].event)
      ensures !log'[k].event.ErrorEvent? && FromProvider(w, log', k)
    {
      assert log[k] == log'[k];
      var q: nat, events :| q < k && log[q].Ask? && Opened(w, log[q], q, events)
                         && SendsAt(events, k - q - 1, log[k].event);
      assert log'[q] == log[q];
    }
  }

  predicate Announces(ev: Event, end: End) {
    match end
    case Finished(result) => ev == DoneEvent(result)
    case Suspended(cp) => ev == PausedEvent(cp)
    case Failed(err) => ev.ErrorEvent? && ErrorOf(ev) == err
    case Abandoned => false
  }

  /** The usage of the accepted streams and the compactions of a log. */
  function Spent(log: Log): Usage {
    if log == [] then ZERO_USAGE
    else
      var rest := Spent(log[..|log| - 1]);
      match log[|log| - 1]
      case Accepted(_, u) => rest.Add(u)
      case Compacted(u) => rest.Add(u)
      case _ => rest
  }

  /** One figure, over all the steps that report usage. */
  function Sum(log: Log, figure: Usage -> int): int {
    if log == [] then 0
    else
      var last := log[|log| - 1];
      Sum(log[..|log| - 1], figure)
      + if last.Accepted? then figure(last.usage) else if last.Compacted? then figure(last.usage) else 0
  }

  /** An account is figure by figure the sum of what was reported. */
  lemma {:induction false} SpentSums(base: Usage, log: Log)
    ensures var u := base.Add(Spent(log));
            && u.input == base.input + Sum(log, InputOf) && u.output == base.output + Sum(log, OutputOf)
            && u.reasoning == base.reasoning + Sum(log, ReasoningOf)
            && u.cacheRead == base.cacheRead + Sum(log, CacheReadOf)
            && u.cacheWrite == base.cacheWrite + Sum(log, CacheWriteOf)
  {
    if log != [] {
      SpentSums(base, log[..|log| - 1]);
    }
  }

  predicate Spends(s: Step) {
    s.Ask? || (s.ToolStep? && s.how.Executed?)
  }

  /** Every provider call and every execution happened below the budget. */
  ghost predicate WithinBudget(c: Config, base: Usage, log: Log) {
    c.tokenBudget > 0 ==> forall k :: 0 <= k < |log| && Spends(log[k]) ==> RoomBefore(c, base, log, k)
  }

  ghost predicate RoomBefore(c: Config, base: Usage, log: Log, k: int)
    requires 0 <= k < |log|
  {
    base.Add(Spent(log[..k])).Total() < c.tokenBudget
  }

  /** What holds of a run that is still going, started with `base` already used. */
  ghost predicate Going(c: Config, w: World, base: Usage, usage: Usage, log: Log) {
    && usage == base.Add(Spent(log))
    && StillOpen(w, log)
    && WithinBudget(c, base, log)
  }

  /** A delivery failed: the consumer is gone. */
  ghost predicate ConsumerLeft(log: Log) {
    exists q: nat :: q < |log| && log[q].Lost?
  }

  /** What holds of a run that is over: a true account of what was used, the budget kept,
      and one announcement of its end by the agent, and that last, unless the consumer
      left. */
  ghost predicate EndsRight(c: Config, w: World, base: Usage, out: RunOut) {
    && out.log != []
    && WithinBudget(c, base, out.log)
    && (out.end.Finished? ==> out.end.result.usage == base.Add(Spent(out.log)))
    && (out.end.Suspended? ==> out.end.checkpoint.usage == base.Add(Spent(out.log)))
    && var last := out.log[|out.log| - 1];
       if out.end.Abandoned? then StillOpen(w, out.log) && ConsumerLeft(out.log)
       else StillOpen(w, out.log[..|out.log| - 1]) && IsDelivery(last) && Announces(last.event, out.end)
  }

  // ---- steps that spend nothing ----

  predicate Free(s: Step) {
    !s.Accepted? && !s.Compacted?
  }

  ghost predicate FreeSince(before: Log, after: Log) {
    before <= after && forall k :: |before| <= k < |after| ==> Free(after[k])
  }

  lemma {:induction false} SpentSame(before: Log, after: Log)
    requires FreeSince(before, after)
    ensures Spent(after) == Spent(before)
    decreases |after|
  {
    if |after| == |before| {
      assert after == before;
    } else {
      SpentSame(before, after[..|after| - 1]);
    }
  }

  /** Free steps keep the account, and the budget if there was room at the start. */
  lemma BudgetKept(c: Config, base: Usage, before: Log, after: Log)
    requires FreeSince(before, after) && WithinBudget(c, base, before)
    requires c.tokenBudget > 0 && (exists k :: |before| <= k < |after| && Spends(after[k])) ==>
               base.Add(Spent(before)).Total() < c.tokenBudget
    ensures WithinBudget(c, base, after)
    ensures Spent(after) == Spent(before)
  {
    SpentSame(before, after);
    if c.tokenBudget > 0 {
      forall k | 0 <= k < |after| && Spends(after[k])
        ensures RoomBefore(c, base, after, k)
      {
        if k < |before| {
          assert after[..k] == before[..k] && after[k] == before[k];
        } else {
          SpentSame(before, after[..k]);
        }
      }
    }
  }

  lemma AddAssociates(a: Usage, b: Usage, d: Usage)
    ensures a.Add(b).Add(d) == a.Add(b.Add(d))
  {
  }

  /** Charging `u` keeps the account. */
  lemma Charged(c: Config, w: World, base: Usage, usage: Usage, log: Log, s: Step, u: Usage)
    requires Going(c, w, base, usage, log)
    requires s.Accepted? || s.Compacted?
    requires s.usage == u
    ensures Going(c, w, base, usage.Add(u), log + [s])
  {
    var log' := log + [s];
    assert log'[..|log|] == log;
    OpenMore(w, log, log');
    AddAssociates(base, Spent(log), u);
    forall k | 0 <= k < |log'| && Spends(log'[k]) && c.tokenBudget > 0
      ensures RoomBefore(c, base, log', k)
    {
      assert log'[..k] == log[..k] && log'[k] == log[k];
    }
  }

  /** Announcing the end of a run ends it right. */
  lemma Announced(c: Config, base: Usage, usage: Usage, w: World, turn: nat, ev: Event, end: End, log: Log)
    requires Going(c, w, base, usage, log)
    requires Announces(ev, end)
    requires end.Finished? ==> end.result.usage == usage
    requires end.Suspended? ==> end.checkpoint.usage == usage
    ensures EndsRight(c, w, base, RunOut(end, Send(w, turn, ev, log)))
  {
    var log' := Send(w, turn, ev, log);
    assert log'[..|log'| - 1] == log && log'[|log|].event == ev;
    BudgetKept(c, base, log, log');
  }

  lemma CutShortEndsRight(c: Config, base: Usage, usage: Usage, w: World, turn: nat, log: Log)
    requires Going(c, w, base, usage, log)
    requires w.ctxErr(|log|).None? ==> ConsumerLeft(log)
    ensures EndsRight(c, w, base, CutShort(w, turn, log))
  {
    if w.ctxErr(|log|).Some? {
      Announced(c, base, usage, w, turn, ErrorEvent(w.ctxErr(|log|), ""), Failed(w.ctxErr(|log|).value), log);
    }
  }

  // ---- one stream ----

  /** `events` are those still to come of the stream `all`. */
  lemma {:induction false} ConsumeStaysOpen(w: World, turn: nat, events: seq<Event>, acc: Acc, log: Log, q: nat,
                                           all: seq<Event>)
    requires StillOpen(w, log) && q < |log| && log[q].Ask? && Opened(w, log[q], q, all)
    requires |log| - q - 1 <= |all| && events == all[|log| - q - 1..]
    requires forall j :: 0 <= j < |log| - q - 1 ==> !all[j].ErrorEvent?
    ensures var r := Consume(w, turn, events, acc, log);
            && StillOpen(w, r.log)
            && (r.Broken? && w.ctxErr(|r.log|).None? ==> ConsumerLeft(r.log))
    decreases |events|
  {
    if events != [] && !events[0].ErrorEvent? {
      assert events[0] == all[|log| - q - 1] && events[1..] == all[|log| - q..];
      var sent := Send(w, turn, events[0], log);
      assert SendsAt(all, |log| - q - 1, events[0]);
      assert sent[q] == log[q] && sent[|log|].event == events[0];
      OpenMore(w, log, sent);
      assert sent[|log|].Lost? ==> ConsumerLeft(sent);
      if w.delivers(|log|) {
        ConsumeStaysOpen(w, turn, events[1..], Take(acc, events[0]), sent, q, all);
      }
    }
  }

  lemma {:induction false} StreamTurnFacts(c: Config, base: Usage, usage: Usage, w: World, turn: nat, attempt: nat,
                                          conversation: seq<Message>, request: seq<Message>, log: Log)
    requires IsRequest(w, turn, conversation, request)
    requires Going(c, w, base, usage, log) && !OverBudget(c, usage)
    ensures match StreamTurn(c, w, turn, attempt, conversation, request, log)
            case Took(acc, log') => Going(c, w, base, usage, log')
            case NotTaken(out) => EndsRight(c, w, base, out)
    decreases c.Retries() - attempt, 1
  {
    var asked := log + [Ask(turn, attempt, conversation, request)];
    BudgetKept(c, base, log, asked);
    OpenMore(w, log, asked);
    assert Going(c, w, base, usage, asked);
    match w.stream(|log|, turn, attempt, request)
    case Refused(err) =>
      RetryFacts(c, base, usage, w, turn, attempt, conversation, request, err, ErrorEvent(Some(err), ""), asked);
    case Streaming(events) =>
      ConsumeRelays(w, turn, events, EMPTY_ACC, asked);
      assert asked[|log|] == Ask(turn, attempt, conversation, request);
      assert Opened(w, asked[|log|], |log|, events);
      ConsumeStaysOpen(w, turn, events, EMPTY_ACC, asked, |log|, events);
      var log' := Consume(w, turn, events, EMPTY_ACC, asked).log;
      BudgetKept(c, base, asked, log');
      assert Going(c, w, base, usage, log');
      match Consume(w, turn, events, EMPTY_ACC, asked)
      case Complete(_, _) =>
      case Broken(_) => CutShortEndsRight(c, base, usage, w, turn, log');
      case StreamError(ev, _) =>
        RetryFacts(c, base, usage, w, turn, attempt, conversation, request, ErrorOf(ev), ev, log');
  }

  lemma {:induction false} RetryFacts(c: Config, base: Usage, usage: Usage, w: World, turn: nat, attempt: nat,
                                     conversation: seq<Message>, request: seq<Message>, err: Err, last: Event, log: Log)
    requires IsRequest(w, turn, conversation, request)
    requires Going(c, w, base, usage, log) && !OverBudget(c, usage)
    requires last.ErrorEvent? && ErrorOf(last) == err
    ensures match Retry(c, w, turn, attempt, conversation, request, err, last, log)
            case Took(acc, log') => Going(c, w, base, usage, log')
            case NotTaken(out) => EndsRight(c, w, base, out)
    decreases c.Retries() - attempt, 0
  {
    if attempt < c.Retries() && Retryable(err) {
      var interrupted := w.ctxErr(|log|);
      if interrupted.Some? {
        Announced(c, base, usage, w, turn, ErrorEvent(interrupted, ""), Failed(interrupted.value), log);
      } else {
        StreamTurnFacts(c, base, usage, w, turn, attempt + 1, conversation, request, log);
      }
    } else {
      Announced(c, base, usage, w, turn, last, Failed(err), log);
    }
  }

  // ---- tool batches ----

  lemma BatchStaysOpen(c: Config, w: World, turn: nat, calls: seq<ToolCall>, forced: seq<Option<ToolResult>>, log: Log)
    requires |forced| == |calls| && StillOpen(w, log)
    ensures var r := RunBatch(c, w, turn, calls, forced, log);
            && StillOpen(w, r.log)
            && (r.BatchCut? && w.ctxErr(|r.log|).None? ==> ConsumerLeft(r.log))
  {
    var _ := BatchFacts(c, w, turn, calls, forced, log);
    var r := RunBatch(c, w, turn, calls, forced, log);
    forall k: nat | |log| <= k < |r.log| && IsDelivery(r.log[k])
      ensures !Terminal(r.log[k].event)
    {
      assert BatchStep(BatchOf(c, w, turn, calls, forced), r.log[k], k);
    }
    OpenMore(w, log, r.log);
    if q: nat :| |log| <= q < |r.log| && r.log[q].Lost? {
      assert ConsumerLeft(r.log);
    }
  }

  lemma {:induction false} DecideCallsStayOpen(w: World, turn: nat, calls: seq<ToolCall>,
                                               decisions: map<string, Approval>, i: nat,
                                               byID: map<string, ToolResult>, stillPending: bool, log: Log)
    requires i <= |calls| && StillOpen(w, log)
    ensures var r := DecideCalls(w, turn, calls, decisions, i, byID, stillPending, log);
            && StillOpen(w, r.log)
            && (r.ResumeCut? && w.ctxErr(|r.log|).None? ==> ConsumerLeft(r.log))
    decreases |calls| - i
  {
    if i < |calls| {
      var tc := calls[i];
      if tc.id in byID {
        DecideCallsStayOpen(w, turn, calls, decisions, i + 1, byID, stillPending, log);
      } else if tc.id !in decisions {
        DecideCallsStayOpen(w, turn, calls, decisions, i + 1, byID, true, log);
      } else if w.ctxErr(|log|).None? {
        var reply := ExecTool(w.toolbox, |log|, turn, tc, Some(decisions[tc.id]));
        var log1 := log + [ToolStep(turn, i, tc, HowOf(reply))];
        var log2 := Send(w, turn, ToolResultEvent(reply.result), log1);
        OpenMore(w, log, log2);
        assert log2[|log1|].Lost? ==> ConsumerLeft(log2);
        if w.delivers(|log1|) {
          DecideCallsStayOpen(w, turn, calls, decisions, i + 1, byID[tc.id := reply.result], stillPending, log2);
        }
      }
    }
  }

  // ---- turns and runs ----

  ghost predicate PhaseRight(c: Config, w: World, base: Usage, p: Phase) {
    match p
    case Ready(st) => Going(c, w, base, st.usage, st.log) && !OverBudget(c, st.usage)
    case Over(out) => EndsRight(c, w, base, out)
  }

  lemma CompactRight(c: Config, base: Usage, w: World, st: State, turn: nat, reported: Usage)
    requires w.compactor.Some?
    requires Going(c, w, base, st.usage, st.log)
    ensures PhaseRight(c, w, base, Compact(c, w, st, turn, reported))
  {
    match w.compactor.value(|st.log|, st.conversation, reported)
    case CompactFailed(err) =>
      var e := Wrapped("compaction", err);
      Announced(c, base, st.usage, w, turn, ErrorEvent(Some(e), ""), Failed(e), st.log);
    case Shrunk(messages, used) =>
      Charged(c, w, base, st.usage, st.log, Compacted(used), used);
      var usage, log := st.usage.Add(used), st.log + [Compacted(used)];
      if OverBudget(c, usage) {
        Announced(c, base, usage, w, turn, ErrorEvent(Some(BudgetError(c, usage)), ""), Failed(BudgetError(c, usage)),
                  log);
      }
  }

  lemma BatchKeepsGoing(c: Config, base: Usage, w: World, usage: Usage, turn: nat, calls: seq<ToolCall>,
                        forced: seq<Option<ToolResult>>, log: Log)
    requires |forced| == |calls| && Going(c, w, base, usage, log) && !OverBudget(c, usage)
    ensures var r := RunBatch(c, w, turn, calls, forced, log);
            && Going(c, w, base, usage, r.log)
            && (r.BatchCut? && w.ctxErr(|r.log|).None? ==> ConsumerLeft(r.log))
  {
    BatchWorks(c, w, turn, calls, forced, log);
    BatchStaysOpen(c, w, turn, calls, forced, log);
    BudgetKept(c, base, log, RunBatch(c, w, turn, calls, forced, log).log);
  }

  lemma RunToolsRight(c: Config, base: Usage, w: World, st: State, turn: nat, acc: Acc)
    requires Going(c, w, base, st.usage, st.log)
    ensures PhaseRight(c, w, base, RunTools(c, w, st, turn, acc))
  {
    var calls := acc.toolCalls;
    var issued := st.log + [Issued(turn, calls)];
    BudgetKept(c, base, st.log, issued);
    OpenMore(w, st.log, issued);
    var guarded := RunGuard(c, st, calls);
    if OverBudget(c, st.usage) {
      var e := BudgetError(c, st.usage);
      Announced(c, base, st.usage, w, turn, ErrorEvent(Some(e), ""), Failed(e), st.log);
    } else if guarded.Tripped? {
      var e := LoopDetected(guarded.name, guarded.count);
      Announced(c, base, st.usage, w, turn, ErrorEvent(Some(e), ""), Failed(e), issued);
    } else {
      BatchKeepsGoing(c, base, w, st.usage, turn, calls, guarded.forced, issued);
      match RunBatch(c, w, turn, calls, guarded.forced, issued)
      case BatchCut(log') => CutShortEndsRight(c, base, st.usage, w, turn, log');
      case BatchDone(results, pending, log') =>
        if pending != [] {
          var cp := Checkpoint(st.conversation, turn, st.usage, acc.stopReason, calls, results);
          Announced(c, base, st.usage, w, turn, PausedEvent(cp), Suspended(cp), log');
        } else if w.compactor.Some? {
          var st1 := st.(repeatSig := guarded.sig, repeatCount := guarded.count, log := log');
          CompactRight(c, base, w, st1.(conversation := st1.conversation + ToolResultMessages(results)), turn,
                       acc.usage);
        }
    }
  }

  lemma AskAndActRight(c: Config, base: Usage, w: World, st: State, turn: nat, request: seq<Message>)
    requires IsRequest(w, turn, st.conversation, request)
    requires Going(c, w, base, st.usage, st.log) && !OverBudget(c, st.usage)
    ensures PhaseRight(c, w, base, AskAndAct(c, w, st, turn, request))
  {
    StreamTurnFacts(c, base, st.usage, w, turn, 0, st.conversation, request, st.log);
    match StreamTurn(c, w, turn, 0, st.conversation, request, st.log)
    case NotTaken(_) =>
    case Took(acc, log) =>
      Charged(c, w, base, st.usage, log, Accepted(turn, acc.usage), acc.usage);
      var st' := Absorb(st, turn, acc, log);
      if acc.toolCalls == [] {
        var result := Conclude(st', turn);
        Announced(c, base, st'.usage, w, turn, DoneEvent(result), Finished(result), st'.log);
      } else {
        RunToolsRight(c, base, w, st', turn, acc);
      }
  }

  lemma TurnRight(c: Config, base: Usage, w: World, st: State, turn: nat)
    requires Going(c, w, base, st.usage, st.log) && !OverBudget(c, st.usage)
    ensures PhaseRight(c, w, base, Turn(c, w, st, turn))
  {
    if w.compactor.Some? {
      CompactRight(c, base, w, st, turn, Usage(w.estimate(|st.log|, st.conversation), 0, 0, 0, 0));
    }
    match Proactive(c, w, st, turn)
    case Over(_) =>
    case Ready(st1) =>
      match Prepare(w, st1, turn)
      case Fail(err) =>
        var e := Wrapped("prepare request hook", err);
        Announced(c, base, st1.usage, w, turn, ErrorEvent(Some(e), ""), Failed(e), st1.log);
      case Ok(request) => AskAndActRight(c, base, w, st1, turn, request);
  }

  lemma {:induction false} TurnsRight(c: Config, base: Usage, w: World, st: State, turn: nat)
    requires Going(c, w, base, st.usage, st.log) && !OverBudget(c, st.usage)
    ensures EndsRight(c, w, base, Turns(c, w, st, turn))
    decreases c.MaxTurns() - turn
  {
    if turn >= c.MaxTurns() {
      Announced(c, base, st.usage, w, c.MaxTurns(), ErrorEvent(Some(MaxTurnsReached), ""), Failed(MaxTurnsReached),
                st.log);
    } else {
      TurnRight(c, base, w, st, turn);
      match Turn(c, w, st, turn)
      case Over(_) =>
      case Ready(st') => TurnsRight(c, base, w, st', turn + 1);
    }
  }

  lemma NothingSpent(c: Config, w: World, base: Usage, usage: Usage, log: Log)
    requires usage == base == base.Add(ZERO_USAGE) && log == [] && !OverBudget(c, usage)
    ensures Going(c, w, base, usage, log)
  {
  }

  lemma NothingUsed(c: Config, usage: Usage)
    requires usage == ZERO_USAGE
    ensures usage == usage.Add(ZERO_USAGE) && !OverBudget(c, usage)
  {
  }

  lemma StartRight(c: Config, w: World, base: Usage, st: State, turn: nat)
    requires base == ZERO_USAGE && st.usage == base && st.log == []
    ensures EndsRight(c, w, base, Turns(c, w, st, turn))
  {
    NothingUsed(c, base);
    NothingSpent(c, w, base, st.usage, st.log);
    TurnsRight(c, base, w, st, turn);
  }

  /** Every run ends right. */
  lemma RunEndsRight(c: Config, w: World, input: seq<Message>)
    ensures EndsRight(c, w, ZERO_USAGE, Run(c, w, input))
  {
    StartRight(c, w, ZERO_USAGE, State(input, ZERO_USAGE, "", "", "", 0, []), 0);
  }

  /** Every resumed run ends right, counting on from the checkpoint's usage. */
  lemma ResumeEndsRight(c: Config, w: World, cp: Checkpoint, decisions: map<string, Approval>)
    requires !OverBudget(c, cp.usage)
    ensures EndsRight(c, w, cp.usage, Resume(c, w, cp, decisions))
  {
    var r := DecideCalls(w, cp.turn, cp.calls, decisions, 0, ByID(cp.results), false, []);
    DecideCallsWorks(w, cp.turn, cp.calls, decisions, 0, ByID(cp.results), false, []);
    DecideCallsStayOpen(w, cp.turn, cp.calls, decisions, 0, ByID(cp.results), false, []);
    BudgetKept(c, cp.usage, [], r.log);
    ProceedsRight(c, w, cp, r);
  }

  lemma ProceedsRight(c: Config, w: World, cp: Checkpoint, r: ResumeReply)
    requires Going(c, w, cp.usage, cp.usage, r.log) && !OverBudget(c, cp.usage)
    requires r.ResumeCut? && w.ctxErr(|r.log|).None? ==> ConsumerLeft(r.log)
    ensures EndsRight(c, w, cp.usage, Proceed(c, w, cp, r))
  {
    match r
    case ResumeCut(log) => CutShortEndsRight(c, cp.usage, cp.usage, w, cp.turn, log);
    case Resumed(byID, stillPending, log) =>
      var results := InCallOrder(cp.calls, byID);
      if stillPending {
        var cp' := cp.(results := results);
        Announced(c, cp.usage, cp.usage, w, cp.turn, PausedEvent(cp'), Suspended(cp'), log);
      } else {
        TurnsRight(c, cp.usage, w, ResumedState(cp, results, log), cp.turn + 1);
      }
  }

  /** A run that pauses does so under its budget, so the condition of
      `ResumeEndsRight` holds of every checkpoint a run hands out. */
  lemma {:induction false} PausesUnderBudget(c: Config, w: World, st: State, turn: nat)
    ensures var out := Turns(c, w, st, turn);
            out.end.Suspended? ==> !OverBudget(c, out.end.checkpoint.usage)
    decreases c.MaxTurns() - turn
  {
    if turn < c.MaxTurns() {
      match Proactive(c, w, st, turn)
      case Over(_) =>
      case Ready(st1) =>
        match Prepare(w, st1, turn)
        case Fail(_) =>
        case Ok(request) => StreamNeverPauses(c, w, turn, 0, st1.conversation, request, st1.log);
      match Turn(c, w, st, turn)
      case Over(_) =>
      case Ready(st') => PausesUnderBudget(c, w, st', turn + 1);
    }
  }

  lemma StreamNeverPauses(c: Config, w: World, turn: nat, attempt: nat, conversation: seq<Message>,
                          request: seq<Message>, log: Log)
    ensures var r := StreamTurn(c, w, turn, attempt, conversation, request, log);
            r.NotTaken? ==> !r.out.end.Suspended?
    decreases c.Retries() - attempt
  {
    if attempt < c.Retries() {
      var asked := log + [Ask(turn, attempt, conversation, request)];
      StreamNeverPauses(c, w, turn, attempt + 1, conversation, request, asked);
      match w.stream(|log|, turn, attempt, request)
      case Refused(_) =>
      case Streaming(events) =>
        StreamNeverPauses(c, w, turn, attempt + 1, conversation, request,
                          Consume(w, turn, events, EMPTY_ACC, asked).log);
    }
  }

  /** If nothing was lost on the way, the consumer got the agent's one announcement, last
      of all, and it is the end the run came to; and no other, if providers leave it to
      the agent to end runs. */
  lemma OneEndingAndLast(c: Config, w: World, base: Usage, out: RunOut)
    requires EndsRight(c, w, base, out) && NothingLost(out.log)
    ensures !out.end.Abandoned?
    ensures out.log[|out.log| - 1].Sent? && Announces(out.log[|out.log| - 1].event, out.end)
    ensures ProvidersLeaveEndings(w) ==> OneEnding(out.log)
  {
    assert !out.end.Abandoned?;
    if ProvidersLeaveEndings(w) {
      forall k: nat | k < |out.log| - 1 && out.log[k].Sent?
        ensures !Terminal(out.log[k].event)
      {
        if Terminal(out.log[k].event) {
          EndingFromProvider(w, out.log[..|out.log| - 1], k);
        }
      }
    }
  }

  ghost predicate NothingLost(log: Log) {
    forall k :: 0 <= k < |log| ==> !log[k].Lost?
  }

  /** The last delivery ends the run and no other looks as if it did. */
  ghost predicate OneEnding(log: Log) {
    forall k: nat :: k < |log| && log[k].Sent? ==> (Terminal(log[k].event) <==> k == |log| - 1)
  }

  lemma EndingFromProvider(w: World, log: Log, k: nat)
    requires StillOpen(w, log) && k < |log| && log[k].Sent? && Terminal(log[k].event)
    ensures !ProvidersLeaveEndings(w)
  {
    var q: nat, events :| q < k && log[q].Ask? && Opened(w, log[q], q, events)
                       && SendsAt(events, k - q - 1, log[k].event);
    assert SendsEnding(w.stream(q, log[q].turn, log[q].attempt, log[q].request).events);
  }

  // ---- how many streams ----

  function AskCount(log: Log): nat {
    if log == [] then 0
    else AskCount(log[..|log| - 1]) + if log[|log| - 1].Ask? then 1 else 0
  }

  ghost predicate NoAskSince(before: Log, after: Log) {
    before <= after && forall k :: |before| <= k < |after| ==> !after[k].Ask?
  }

  lemma {:induction false} SameAsks(before: Log, after: Log)
    requires NoAskSince(before, after)
    ensures AskCount(after) == AskCount(before)
    decreases |after|
  {
    if |after| == |before| {
      assert after == before;
    } else {
      SameAsks(before, after[..|after| - 1]);
    }
  }

  lemma {:induction false} StreamTurnAskCount(c: Config, w: World, turn: nat, attempt: nat, conversation: seq<Message>,
                                             request: seq<Message>, log: Log)
    requires attempt <= c.Retries()
    ensures AskCount(TurnReplyLog(StreamTurn(c, w, turn, attempt, conversation, request, log)))
         <= AskCount(log) + c.Retries() + 1 - attempt
    decreases c.Retries() - attempt, 1
  {
    var asked := log + [Ask(turn, attempt, conversation, request)];
    assert asked[..|log|] == log;
    match w.stream(|log|, turn, attempt, request)
    case Refused(err) =>
      RetryAskCount(c, w, turn, attempt, conversation, request, err, ErrorEvent(Some(err), ""), asked);
    case Streaming(events) =>
      ConsumeRelays(w, turn, events, EMPTY_ACC, asked);
      var log' := Consume(w, turn, events, EMPTY_ACC, asked).log;
      SameAsks(asked, log');
      match Consume(w, turn, events, EMPTY_ACC, asked)
      case StreamError(ev, _) =>
        RetryAskCount(c, w, turn, attempt, conversation, request, ErrorOf(ev), ev, log');
      case Broken(_) => SameAsks(log', CutShort(w, turn, log').log);
      case Complete(_, _) =>
  }

  lemma {:induction false} RetryAskCount(c: Config, w: World, turn: nat, attempt: nat, conversation: seq<Message>,
                                        request: seq<Message>, err: Err, last: Event, log: Log)
    requires attempt <= c.Retries()
    ensures AskCount(TurnReplyLog(Retry(c, w, turn, attempt, conversation, request, err, last, log)))
         <= AskCount(log) + c.Retries() - attempt
    decreases c.Retries() - attempt, 0
  {
    if attempt < c.Retries() && Retryable(err) && w.ctxErr(|log|).None? {
      StreamTurnAskCount(c, w, turn, attempt + 1, conversation, request, log);
    } else {
      SameAsks(log, TurnReplyLog(Retry(c, w, turn, attempt, conversation, request, err, last, log)));
    }
  }

  function PhaseLog(p: Phase): Log {
    if p.Ready? then p.st.log else p.out.log
  }

  lemma TurnAskCount(c: Config, w: World, st: State, turn: nat)
    ensures AskCount(PhaseLog(Turn(c, w, st, turn))) <= AskCount(st.log) + c.Retries() + 1
  {
    var p := Proactive(c, w, st, turn);
    SameAsks(st.log, PhaseLog(p));
    if p.Ready? {
      match Prepare(w, p.st, turn)
      case Fail(_) => SameAsks(st.log, PhaseLog(Turn(c, w, st, turn)));
      case Ok(request) =>
        StreamTurnAskCount(c, w, turn, 0, p.st.conversation, request, p.st.log);
        match StreamTurn(c, w, turn, 0, p.st.conversation, request, p.st.log)
        case NotTaken(_) =>
        case Took(acc, log) => ActsWithoutAsking(c, w, p.st, turn, acc, log);
    }
  }

  lemma ActsWithoutAsking(c: Config, w: World, st: State, turn: nat, acc: Acc, log: Log)
    ensures var st' := Absorb(st, turn, acc, log);
            && AskCount(PhaseLog(RunTools(c, w, st', turn, acc))) == AskCount(log)
            && AskCount(Send(w, turn, DoneEvent(Conclude(st', turn)), st'.log)) == AskCount(log)
  {
    var st' := Absorb(st, turn, acc, log);
    SameAsks(log, Send(w, turn, DoneEvent(Conclude(st', turn)), st'.log));
    SameAsks(log, st'.log);
    ToolsWithoutAsking(c, w, st', turn, acc);
  }

  lemma ToolsWithoutAsking(c: Config, w: World, st: State, turn: nat, acc: Acc)
    ensures AskCount(PhaseLog(RunTools(c, w, st, turn, acc))) == AskCount(st.log)
  {
    var issued := st.log + [Issued(turn, acc.toolCalls)];
    var guarded := RunGuard(c, st, acc.toolCalls);
    if !OverBudget(c, st.usage) && guarded.Passed? {
      SameAsks(st.log, issued);
      BatchWithoutAsking(c, w, turn, acc.toolCalls, guarded.forced, issued);
      EndsWithoutAsking(c, w, st, turn, acc);
    } else {
      SameAsks(st.log, PhaseLog(RunTools(c, w, st, turn, acc)));
    }
  }

  /** What follows the batch. */
  lemma EndsWithoutAsking(c: Config, w: World, st: State, turn: nat, acc: Acc)
    requires !OverBudget(c, st.usage) && RunGuard(c, st, acc.toolCalls).Passed?
    ensures var forced := RunGuard(c, st, acc.toolCalls).forced;
            AskCount(PhaseLog(RunTools(c, w, st, turn, acc)))
            == AskCount(RunBatch(c, w, turn, acc.toolCalls, forced, st.log + [Issued(turn, acc.toolCalls)]).log)
  {
    var guarded := RunGuard(c, st, acc.toolCalls);
    var batch := RunBatch(c, w, turn, acc.toolCalls, guarded.forced, st.log + [Issued(turn, acc.toolCalls)]);
    if batch.BatchDone? && batch.pending == [] {
      var st1 := st.(repeatSig := guarded.sig, repeatCount := guarded.count, log := batch.log);
      AfterToolsWithoutAsking(c, w, st1, turn, batch.results, acc.usage);
    } else {
      SameAsks(batch.log, PhaseLog(RunTools(c, w, st, turn, acc)));
    }
  }

  lemma AfterToolsWithoutAsking(c: Config, w: World, st: State, turn: nat, results: seq<ToolResult>, reported: Usage)
    ensures AskCount(PhaseLog(AfterTools(c, w, st, turn, results, reported))) == AskCount(st.log)
  {
    SameAsks(st.log, PhaseLog(AfterTools(c, w, st, turn, results, reported)));
  }

  lemma BatchWithoutAsking(c: Config, w: World, turn: nat, calls: seq<ToolCall>, forced: seq<Option<ToolResult>>,
                           log: Log)
    requires |forced| == |calls|
    ensures AskCount(RunBatch(c, w, turn, calls, forced, log).log) == AskCount(log)
  {
    BatchWorks(c, w, turn, calls, forced, log);
    SameAsks(log, RunBatch(c, w, turn, calls, forced, log).log);
  }

  /** One stream per turn left and retry. */
  function AskBound(c: Config, turn: nat): int {
    (c.MaxTurns() - turn) * (c.Retries() + 1)
  }

  lemma AskBoundStep(c: Config, turn: nat)
    requires turn < c.MaxTurns()
    ensures AskBound(c, turn) == c.Retries() + 1 + AskBound(c, turn + 1)
    ensures AskBound(c, turn + 1) >= 0
  {
    var per, left := c.Retries() + 1, c.MaxTurns() - turn;
    assert left * per == (left - 1) * per + per && (left - 1) * per >= 0;
  }

  /** A run opens at most one stream per turn and retry: turns left times one more
      than the retries. */
  lemma {:induction false} TurnsAskCount(c: Config, w: World, st: State, turn: nat)
    requires turn <= c.MaxTurns()
    ensures AskCount(Turns(c, w, st, turn).log) <= AskCount(st.log) + AskBound(c, turn)
    decreases c.MaxTurns() - turn
  {
    if turn == c.MaxTurns() {
      SameAsks(st.log, Turns(c, w, st, turn).log);
    } else {
      AskBoundStep(c, turn);
      TurnAskCount(c, w, st, turn);
      match Turn(c, w, st, turn)
      case Over(_) =>
      case Ready(st') =>
        TurnsAskCount(c, w, st', turn + 1);
        AddUp(AskCount(st.log), AskCount(st'.log), AskCount(Turns(c, w, st', turn + 1).log),
              c.Retries() + 1, AskBound(c, turn + 1), AskBound(c, turn));
    }
  }

  lemma AddUp(before: int, mid: int, end: int, one: int, rest: int, bound: int)
    requires mid <= before + one && end <= mid + rest && bound == one + rest
    ensures end <= before + bound
  {
  }
}

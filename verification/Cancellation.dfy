/** What a run does about a cancelled context and a consumer that does not take what it is
    sent, over its log. */
module Cancellation {
  import opened Gage
  import opened Accumulate
  import opened ToolCalls
  import opened RunLog
  import opened Goroutines
  import opened AgentLoop
  import opened Batches
  import opened LogFacts

  /** The context is not cancelled. */
  predicate Live(w: World, p: nat) {
    w.ctxErr(p).None?
  }

  /** The step at moment `p` is one the run may take then: no stream is accepted, no stream
      asked for again and, one call at a time, no tool worked under a cancelled context; and
      what counts as sent is what was taken. */
  predicate Heeds(c: Config, w: World, s: Step, p: nat) {
    match s
    case Accepted(_, _) => Live(w, p)
    case Ask(_, attempt, _, _) => attempt > 0 ==> Live(w, p)
    case ToolStep(_, _, _, _) => c.maxParallelTools <= 1 ==> Live(w, p)
    case Sent(_, _) => w.delivers(p)
    case Lost(_, _) => !w.delivers(p)
    case _ => true
  }

  ghost predicate HeedsSince(c: Config, w: World, log: Log, later: Log) {
    log <= later && forall p: nat :: |log| <= p < |later| ==> Heeds(c, w, later[p], p)
  }

  /** A run that is given up in silence was not cancelled: a delivery was not taken. */
  ghost predicate EndHeeds(w: World, out: RunOut) {
    out.end.Abandoned? ==> Live(w, |out.log|) && exists p: nat :: p < |out.log| && out.log[p].Lost?
  }

  ghost predicate OutHeeds(c: Config, w: World, log: Log, out: RunOut) {
    HeedsSince(c, w, log, out.log) && EndHeeds(w, out)
  }

  lemma Then(c: Config, w: World, a: Log, b: Log, d: Log)
    requires HeedsSince(c, w, a, b) && HeedsSince(c, w, b, d)
    ensures HeedsSince(c, w, a, d)
  {
    forall p: nat | |a| <= p < |d|
      ensures Heeds(c, w, d[p], p)
    {
      assert p < |b| ==> d[p] == b[p];
    }
  }

  // ---- a stream ----

  ghost predicate SomeLost(log: Log) {
    exists p: nat :: p < |log| && log[p].Lost?
  }

  /** Relaying stops at a delivery that is not taken, and is complete only under a live
      context. */
  lemma {:induction false} ConsumeHeeds(c: Config, w: World, turn: nat, events: seq<Event>, acc: Acc, log: Log)
    ensures var r := Consume(w, turn, events, acc, log);
            && HeedsSince(c, w, log, r.log)
            && (r.Complete? ==> Live(w, |r.log|))
            && (r.Broken? ==> !Live(w, |r.log|) || SomeLost(r.log))
    decreases |events|
  {
    if events != [] && !events[0].ErrorEvent? {
      var sent := AgentLoop.Send(w, turn, events[0], log);
      if w.delivers(|log|) {
        ConsumeHeeds(c, w, turn, events[1..], Take(acc, events[0]), sent);
        Then(c, w, log, sent, Consume(w, turn, events, acc, log).log);
      } else {
        assert sent[|log|].Lost?;
      }
    }
  }

  ghost predicate TurnHeeds(c: Config, w: World, log: Log, r: TurnReply) {
    match r
    case Took(_, log') => HeedsSince(c, w, log, log') && Live(w, |log'|)
    case NotTaken(out) => OutHeeds(c, w, log, out)
  }

  lemma TurnThen(c: Config, w: World, a: Log, b: Log, r: TurnReply)
    requires HeedsSince(c, w, a, b) && TurnHeeds(c, w, b, r)
    ensures TurnHeeds(c, w, a, r)
  {
    Then(c, w, a, b, TurnReplyLog(r));
  }

  lemma CutShortHeeds(c: Config, w: World, turn: nat, log: Log, later: Log)
    requires HeedsSince(c, w, log, later) && (!Live(w, |later|) || SomeLost(later))
    ensures OutHeeds(c, w, log, CutShort(w, turn, later))
  {
  }

  lemma {:induction false} StreamTurnHeeds(c: Config, w: World, turn: nat, attempt: nat, conversation: seq<Message>,
                                          request: seq<Message>, log: Log)
    requires attempt > 0 ==> Live(w, |log|)
    ensures TurnHeeds(c, w, log, StreamTurn(c, w, turn, attempt, conversation, request, log))
    decreases c.Retries() - attempt, 1
  {
    var asked := log + [Ask(turn, attempt, conversation, request)];
    var r := StreamTurn(c, w, turn, attempt, conversation, request, log);
    match w.stream(|log|, turn, attempt, request)
    case Refused(err) =>
      RetryHeeds(c, w, turn, attempt, conversation, request, err, ErrorEvent(Some(err), ""), asked);
      TurnThen(c, w, log, asked, r);
    case Streaming(events) =>
      ConsumeHeeds(c, w, turn, events, EMPTY_ACC, asked);
      var heard := Consume(w, turn, events, EMPTY_ACC, asked);
      Then(c, w, log, asked, heard.log);
      match heard
      case Complete(_, _) =>
      case Broken(log') => CutShortHeeds(c, w, turn, log, log');
      case StreamError(ev, log') =>
        RetryHeeds(c, w, turn, attempt, conversation, request, ErrorOf(ev), ev, log');
        TurnThen(c, w, log, log', r);
  }

  lemma {:induction false} RetryHeeds(c: Config, w: World, turn: nat, attempt: nat, conversation: seq<Message>,
                                     request: seq<Message>, err: Err, last: Event, log: Log)
    ensures TurnHeeds(c, w, log, Retry(c, w, turn, attempt, conversation, request, err, last, log))
    decreases c.Retries() - attempt, 0
  {
    if attempt < c.Retries() && Retryable(err) && w.ctxErr(|log|).None? {
      StreamTurnHeeds(c, w, turn, attempt + 1, conversation, request, log);
    }
  }

  // ---- tools ----

  /** A batch that is not done was cancelled, or something it sent was not taken. */
  ghost predicate BatchHeeds(c: Config, w: World, log: Log, r: BatchReply) {
    && HeedsSince(c, w, log, r.log)
    && (r.BatchCut? ==> !Live(w, |r.log|) || SomeLost(r.log))
  }

  lemma {:induction false} ExecToolsHeeds(c: Config, w: World, turn: nat, calls: seq<ToolCall>,
                                         forced: seq<Option<ToolResult>>, i: nat, results: seq<ToolResult>,
                                         pending: seq<ToolCall>, log: Log)
    requires |forced| == |calls| && i <= |calls|
    ensures BatchHeeds(c, w, log, ExecTools(w, turn, calls, forced, i, results, pending, log))
    decreases |calls| - i, 1
  {
    if i < |calls| && Live(w, |log|) {
      if forced[i].Some? {
        AnswerHeeds(c, w, turn, calls, forced, i, results, pending, forced[i].value, log);
      } else {
        var reply := ExecTool(w.toolbox, |log|, turn, calls[i], None);
        var log' := log + [ToolStep(turn, i, calls[i], HowOf(reply))];
        match reply
        case Deferred => ExecToolsHeeds(c, w, turn, calls, forced, i + 1, results, pending + [calls[i]], log');
        case Answered(result, _) => AnswerHeeds(c, w, turn, calls, forced, i, results, pending, result, log');
      }
    }
  }

  lemma {:induction false} AnswerHeeds(c: Config, w: World, turn: nat, calls: seq<ToolCall>,
                                      forced: seq<Option<ToolResult>>, i: nat, results: seq<ToolResult>,
                                      pending: seq<ToolCall>, result: ToolResult, log: Log)
    requires |forced| == |calls| && i < |calls|
    ensures BatchHeeds(c, w, log, AgentLoop.Answer(w, turn, calls, forced, i, results, pending, result, log))
    decreases |calls| - i, 0
  {
    var log' := AgentLoop.Send(w, turn, ToolResultEvent(result), log);
    if w.delivers(|log|) {
      ExecToolsHeeds(c, w, turn, calls, forced, i + 1, results + [result], pending, log');
    } else {
      assert log'[|log|].Lost?;
    }
  }

  lemma RunBatchHeeds(c: Config, w: World, turn: nat, calls: seq<ToolCall>, forced: seq<Option<ToolResult>>, log: Log)
    requires |forced| == |calls|
    ensures BatchHeeds(c, w, log, RunBatch(c, w, turn, calls, forced, log))
  {
    if c.maxParallelTools <= 1 || |calls| == 1 {
      ExecToolsHeeds(c, w, turn, calls, forced, 0, [], [], log);
    } else {
      var _ := BatchFacts(c, w, turn, calls, forced, log);
      ParallelHeeds(c, w, BatchOf(c, w, turn, calls, forced), log, RunBatch(c, w, turn, calls, forced, log));
    }
  }

  lemma ParallelHeeds(c: Config, w: World, b: Batch, log: Log, r: BatchReply)
    requires |b.forced| == |b.calls| && BatchLog(b, log, r.log) && b.delivers == w.delivers && c.maxParallelTools > 1
    requires r.BatchCut? ==> w.ctxErr(|r.log|).Some? || Batches.SomeLost(log, r.log)
    ensures BatchHeeds(c, w, log, r)
  {
    forall p: nat | |log| <= p < |r.log|
      ensures Heeds(c, w, r.log[p], p)
    {
      assert BatchStep(b, r.log[p], p);
    }
  }

  lemma {:induction false} DecideCallsHeed(c: Config, w: World, turn: nat, calls: seq<ToolCall>,
                                          decisions: map<string, Approval>, i: nat, byID: map<string, ToolResult>,
                                          stillPending: bool, log: Log)
    requires i <= |calls|
    ensures var r := DecideCalls(w, turn, calls, decisions, i, byID, stillPending, log);
            && HeedsSince(c, w, log, r.log)
            && (forall p: nat :: |log| <= p < |r.log| && r.log[p].ToolStep? ==> Live(w, p))
            && (r.ResumeCut? ==> !Live(w, |r.log|) || SomeLost(r.log))
    decreases |calls| - i
  {
    if i < |calls| {
      var tc := calls[i];
      if tc.id in byID {
        DecideCallsHeed(c, w, turn, calls, decisions, i + 1, byID, stillPending, log);
      } else if tc.id !in decisions {
        DecideCallsHeed(c, w, turn, calls, decisions, i + 1, byID, true, log);
      } else if Live(w, |log|) {
        var reply := ExecTool(w.toolbox, |log|, turn, tc, Some(decisions[tc.id]));
        var log1 := log + [ToolStep(turn, i, tc, HowOf(reply))];
        var log2 := AgentLoop.Send(w, turn, ToolResultEvent(reply.result), log1);
        if w.delivers(|log1|) {
          DecideCallsHeed(c, w, turn, calls, decisions, i + 1, byID[tc.id := reply.result], stillPending, log2);
          assert log2[|log|] == log1[|log|];
        } else {
          assert log2[|log1|].Lost?;
        }
      }
    }
  }

  // ---- turns and runs ----

  ghost predicate PhaseHeeds(c: Config, w: World, log: Log, p: Phase) {
    match p
    case Ready(st) => HeedsSince(c, w, log, st.log)
    case Over(out) => OutHeeds(c, w, log, out)
  }

  lemma PhaseThen(c: Config, w: World, a: Log, b: Log, p: Phase)
    requires HeedsSince(c, w, a, b) && PhaseHeeds(c, w, b, p)
    ensures PhaseHeeds(c, w, a, p)
  {
    match p
    case Ready(st) => Then(c, w, a, b, st.log);
    case Over(out) => Then(c, w, a, b, out.log);
  }

  lemma CompactHeeds(c: Config, w: World, st: State, turn: nat, reported: Usage)
    requires w.compactor.Some?
    ensures PhaseHeeds(c, w, st.log, Compact(c, w, st, turn, reported))
  {
  }

  lemma ReactiveHeeds(c: Config, w: World, st: State, turn: nat, reported: Usage)
    ensures PhaseHeeds(c, w, st.log, Reactive(c, w, st, turn, reported))
  {
    if w.compactor.Some? {
      CompactHeeds(c, w, st, turn, reported);
    }
  }

  lemma AfterBatchHeeds(c: Config, w: World, st: State, turn: nat, acc: Acc, log: Log, r: BatchReply)
    requires BatchHeeds(c, w, log, r)
    ensures PhaseHeeds(c, w, log, AfterBatch(c, w, st, turn, acc, r))
  {
    match r
    case BatchCut(log') => CutShortHeeds(c, w, turn, log, log');
    case BatchDone(results, pending, log') =>
      if pending == [] {
        var st' := st.(log := log', conversation := st.conversation + ToolResultMessages(results));
        ReactiveHeeds(c, w, st', turn, acc.usage);
        PhaseThen(c, w, log, log', Reactive(c, w, st', turn, acc.usage));
      }
  }

  lemma RunToolsHeeds(c: Config, w: World, st: State, turn: nat, acc: Acc)
    ensures PhaseHeeds(c, w, st.log, RunTools(c, w, st, turn, acc))
  {
    var issued, g := st.log + [Issued(turn, acc.toolCalls)], RunGuard(c, st, acc.toolCalls);
    if g.Passed? {
      var batch := RunBatch(c, w, turn, acc.toolCalls, g.forced, issued);
      var st' := st.(repeatSig := g.sig, repeatCount := g.count);
      RunBatchHeeds(c, w, turn, acc.toolCalls, g.forced, issued);
      AfterBatchHeeds(c, w, st', turn, acc, issued, batch);
      PhaseThen(c, w, st.log, issued, AfterBatch(c, w, st', turn, acc, batch));
    }
  }

  lemma AskAndActHeeds(c: Config, w: World, st: State, turn: nat, request: seq<Message>)
    ensures PhaseHeeds(c, w, st.log, AskAndAct(c, w, st, turn, request))
  {
    StreamTurnHeeds(c, w, turn, 0, st.conversation, request, st.log);
    match StreamTurn(c, w, turn, 0, st.conversation, request, st.log)
    case NotTaken(_) =>
    case Took(acc, log) =>
      var st' := Absorb(st, turn, acc, log);
      assert HeedsSince(c, w, st.log, st'.log);
      if acc.toolCalls != [] {
        RunToolsHeeds(c, w, st', turn, acc);
        PhaseThen(c, w, st.log, st'.log, RunTools(c, w, st', turn, acc));
      }
  }

  lemma TurnPhaseHeeds(c: Config, w: World, st: State, turn: nat)
    ensures PhaseHeeds(c, w, st.log, Turn(c, w, st, turn))
  {
    if w.compactor.Some? {
      CompactHeeds(c, w, st, turn, Usage(w.estimate(|st.log|, st.conversation), 0, 0, 0, 0));
    }
    match Proactive(c, w, st, turn)
    case Over(_) =>
    case Ready(st1) =>
      match Prepare(w, st1, turn)
      case Fail(_) =>
      case Ok(request) =>
        AskAndActHeeds(c, w, st1, turn, request);
        PhaseThen(c, w, st.log, st1.log, AskAndAct(c, w, st1, turn, request));
  }

  lemma {:induction false} TurnsHeed(c: Config, w: World, st: State, turn: nat)
    ensures OutHeeds(c, w, st.log, Turns(c, w, st, turn))
    decreases c.MaxTurns() - turn
  {
    if turn < c.MaxTurns() {
      TurnPhaseHeeds(c, w, st, turn);
      var next := Turn(c, w, st, turn);
      if next.Ready? {
        TurnsHeed(c, w, next.st, turn + 1);
        Then(c, w, st.log, next.st.log, Turns(c, w, st, turn).log);
      }
    }
  }

  /** Over a whole run: no stream is accepted or asked for again and, one call at a time, no
      tool worked once the context is cancelled; what is logged as sent is what was taken;
      and a run ends in silence only under a live context, when something was not taken. */
  lemma RunHeeds(c: Config, w: World, input: seq<Message>)
    ensures var out := Run(c, w, input);
            (forall p: nat :: p < |out.log| ==> Heeds(c, w, out.log[p], p)) && EndHeeds(w, out)
  {
    TurnsHeed(c, w, State(input, ZERO_USAGE, "", "", "", 0, []), 0);
  }

  /** The same of a resumed run, whose decided calls are worked under a live context always. */
  lemma ResumeHeeds(c: Config, w: World, cp: Checkpoint, decisions: map<string, Approval>)
    ensures var r := DecideCalls(w, cp.turn, cp.calls, decisions, 0, ByID(cp.results), false, []);
            var out := Resume(c, w, cp, decisions);
            && (forall p: nat :: p < |out.log| ==> Heeds(c, w, out.log[p], p)) && EndHeeds(w, out)
            && (forall p: nat :: p < |r.log| && r.log[p].ToolStep? ==> Live(w, p))
  {
    DecideCallsHeed(c, w, cp.turn, cp.calls, decisions, 0, ByID(cp.results), false, []);
    ProceedHeeds(c, w, cp, DecideCalls(w, cp.turn, cp.calls, decisions, 0, ByID(cp.results), false, []));
  }

  lemma ProceedHeeds(c: Config, w: World, cp: Checkpoint, r: ResumeReply)
    requires HeedsSince(c, w, [], r.log) && (r.ResumeCut? ==> !Live(w, |r.log|) || SomeLost(r.log))
    ensures OutHeeds(c, w, [], Proceed(c, w, cp, r))
  {
    match r
    case ResumeCut(log) => CutShortHeeds(c, w, cp.turn, [], log);
    case Resumed(byID, stillPending, log) =>
      if !stillPending {
        var st := ResumedState(cp, InCallOrder(cp.calls, byID), log);
        TurnsHeed(c, w, st, cp.turn + 1);
        Then(c, w, [], log, Turns(c, w, st, cp.turn + 1).log);
      }
  }
}

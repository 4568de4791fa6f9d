/** The approval gate over whole runs: whatever a run executes, it executes on input that
    was granted for that very call. */
module Approvals {
  import opened Gage
  import opened Accumulate
  import opened ToolCalls
  import opened RunLog
  import opened Goroutines
  import opened AgentLoop
  import opened Batches
  import opened LogFacts

  /** A tool executed at moment `p` had leave to, by the approver or by the decision. */
  ghost predicate Allowed(w: World, s: Step, p: nat, decision: Option<Approval>) {
    s.ToolStep? && s.how.Executed? ==> MayRun(w.toolbox, p, s.turn, s.call, decision, s.how.input)
  }

  /** Whatever was executed from moment `from` on, the approver let through then. */
  ghost predicate Gated(w: World, log: Log, from: nat) {
    forall p: nat :: from <= p < |log| ==> Allowed(w, log[p], p, None)
  }

  ghost predicate PhaseGated(w: World, p: Phase, from: nat) {
    match p
    case Ready(st) => Gated(w, st.log, from)
    case Over(out) => Gated(w, out.log, from)
  }

  lemma StepAllowed(w: World, p: nat, turn: nat, i: nat, tc: ToolCall, decision: Option<Approval>)
    ensures Allowed(w, ToolStep(turn, i, tc, HowOf(ExecTool(w.toolbox, p, turn, tc, decision))), p, decision)
  {
    var r := ExecTool(w.toolbox, p, turn, tc, decision);
    if r.Answered? && r.ran.Some? {
      RunsOnlyWhenApproved(w.toolbox, p, turn, tc, decision, r.ran.value);
    }
  }

  lemma BatchGated(w: World, b: Batch, before: Log, after: Log, from: nat)
    requires b.toolbox == w.toolbox && |b.forced| == |b.calls|
    requires BatchLog(b, before, after) && Gated(w, before, from)
    ensures Gated(w, after, from)
  {
    forall p: nat | from <= p < |after|
      ensures Allowed(w, after[p], p, None)
    {
      if p < |before| {
        assert after[p] == before[p];
      } else {
        assert BatchStep(b, after[p], p);
        if after[p].ToolStep? {
          StepAllowed(w, p, b.turn, after[p].index, after[p].call, None);
        }
      }
    }
  }

  lemma QuietlyGated(w: World, before: Log, after: Log, from: nat)
    requires Gated(w, before, from) && before <= after
    requires forall k :: |before| <= k < |after| ==> !after[k].ToolStep?
    ensures Gated(w, after, from)
  {
    forall p: nat | from <= p < |after|
      ensures Allowed(w, after[p], p, None)
    {
      assert p < |before| ==> after[p] == before[p];
    }
  }

  lemma CompactGated(c: Config, w: World, st: State, turn: nat, reported: Usage, from: nat)
    requires w.compactor.Some? && Gated(w, st.log, from)
    ensures PhaseGated(w, Compact(c, w, st, turn, reported), from)
  {
    var p := Compact(c, w, st, turn, reported);
    QuietlyGated(w, st.log, if p.Ready? then p.st.log else p.out.log, from);
  }

  lemma AfterToolsGated(c: Config, w: World, st: State, turn: nat, results: seq<ToolResult>, reported: Usage, from: nat)
    requires Gated(w, st.log, from)
    ensures PhaseGated(w, AfterTools(c, w, st, turn, results, reported), from)
  {
    if w.compactor.Some? {
      CompactGated(c, w, st.(conversation := st.conversation + ToolResultMessages(results)), turn, reported, from);
    }
  }

  lemma CallsGated(c: Config, w: World, turn: nat, calls: seq<ToolCall>, forced: seq<Option<ToolResult>>, log: Log,
                   from: nat)
    requires |forced| == |calls| && Gated(w, log, from)
    ensures Gated(w, RunBatch(c, w, turn, calls, forced, log).log, from)
  {
    var _ := BatchFacts(c, w, turn, calls, forced, log);
    BatchGated(w, BatchOf(c, w, turn, calls, forced), log, RunBatch(c, w, turn, calls, forced, log).log, from);
  }

  lemma RunToolsGated(c: Config, w: World, st: State, turn: nat, acc: Acc, from: nat)
    requires Gated(w, st.log, from)
    ensures PhaseGated(w, RunTools(c, w, st, turn, acc), from)
  {
    var p := RunTools(c, w, st, turn, acc);
    var calls, issued := acc.toolCalls, st.log + [Issued(turn, acc.toolCalls)];
    QuietlyGated(w, st.log, issued, from);
    var g := RunGuard(c, st, calls);
    if OverBudget(c, st.usage) {
      QuietlyGated(w, st.log, p.out.log, from);
    } else if g.Tripped? {
      QuietlyGated(w, issued, p.out.log, from);
    } else {
      CallsGated(c, w, turn, calls, g.forced, issued, from);
      var r := RunBatch(c, w, turn, calls, g.forced, issued);
      if r.BatchDone? && r.pending == [] {
        AfterToolsGated(c, w, st.(repeatSig := g.sig, repeatCount := g.count, log := r.log), turn, r.results,
                        acc.usage, from);
      } else {
        QuietlyGated(w, r.log, p.out.log, from);
      }
    }
  }

  lemma AskAndActGated(c: Config, w: World, st: State, turn: nat, request: seq<Message>, from: nat)
    requires Gated(w, st.log, from)
    ensures PhaseGated(w, AskAndAct(c, w, st, turn, request), from)
  {
    StreamTurnAsks(c, w, turn, 0, st.conversation, request, st.log);
    var r := StreamTurn(c, w, turn, 0, st.conversation, request, st.log);
    QuietlyGated(w, st.log, TurnReplyLog(r), from);
    if r.Took? {
      var st' := Absorb(st, turn, r.acc, r.log);
      QuietlyGated(w, r.log, st'.log, from);
      if r.acc.toolCalls == [] {
        QuietlyGated(w, st'.log, AskAndAct(c, w, st, turn, request).out.log, from);
      } else {
        RunToolsGated(c, w, st', turn, r.acc, from);
      }
    }
  }

  lemma TurnGated(c: Config, w: World, st: State, turn: nat, from: nat)
    requires Gated(w, st.log, from)
    ensures PhaseGated(w, Turn(c, w, st, turn), from)
  {
    if w.compactor.Some? {
      CompactGated(c, w, st, turn, Usage(w.estimate(|st.log|, st.conversation), 0, 0, 0, 0), from);
    }
    match Proactive(c, w, st, turn)
    case Over(_) =>
    case Ready(st1) =>
      match Prepare(w, st1, turn)
      case Fail(err) => QuietlyGated(w, st1.log, Turn(c, w, st, turn).out.log, from);
      case Ok(request) => AskAndActGated(c, w, st1, turn, request, from);
  }

  lemma {:induction false} TurnsGated(c: Config, w: World, st: State, turn: nat, from: nat)
    requires Gated(w, st.log, from)
    ensures Gated(w, Turns(c, w, st, turn).log, from)
    decreases c.MaxTurns() - turn
  {
    if turn >= c.MaxTurns() {
      QuietlyGated(w, st.log, Turns(c, w, st, turn).log, from);
    } else {
      TurnGated(c, w, st, turn, from);
      match Turn(c, w, st, turn)
      case Over(_) =>
      case Ready(st') => TurnsGated(c, w, st', turn + 1, from);
    }
  }

  /** Whatever a run executes, one call after the other or all at once: the tool was
      known, the approver was shown the call as the pre-tool hook left it and allowed
      it, and the tool got the input that was allowed and no other. */
  lemma RunIsGated(c: Config, w: World, input: seq<Message>)
    ensures Gated(w, Run(c, w, input).log, 0)
  {
    TurnsGated(c, w, State(input, ZERO_USAGE, "", "", "", 0, []), 0, 0);
  }

  // ---- resumed runs ----

  /** What was executed on the decisions brought, one of them let through. */
  ghost predicate DecidedOnly(w: World, decisions: map<string, Approval>, log: Log) {
    forall p: nat :: p < |log| && log[p].ToolStep? ==>
      log[p].call.id in decisions && Allowed(w, log[p], p, Some(decisions[log[p].call.id]))
  }

  lemma {:induction false} DecideCallsGated(w: World, turn: nat, calls: seq<ToolCall>,
                                            decisions: map<string, Approval>, i: nat, byID: map<string, ToolResult>,
                                            stillPending: bool, log: Log)
    requires i <= |calls| && DecidedOnly(w, decisions, log)
    ensures DecidedOnly(w, decisions, DecideCalls(w, turn, calls, decisions, i, byID, stillPending, log).log)
    decreases |calls| - i
  {
    if i < |calls| {
      var tc := calls[i];
      if tc.id in byID {
        DecideCallsGated(w, turn, calls, decisions, i + 1, byID, stillPending, log);
      } else if tc.id !in decisions {
        DecideCallsGated(w, turn, calls, decisions, i + 1, byID, true, log);
      } else if w.ctxErr(|log|).None? {
        var reply := ExecTool(w.toolbox, |log|, turn, tc, Some(decisions[tc.id]));
        StepAllowed(w, |log|, turn, i, tc, Some(decisions[tc.id]));
        var log1 := log + [ToolStep(turn, i, tc, HowOf(reply))];
        var log2 := Send(w, turn, ToolResultEvent(reply.result), log1);
        if w.delivers(|log1|) {
          DecideCallsGated(w, turn, calls, decisions, i + 1, byID[tc.id := reply.result], stillPending, log2);
        }
      }
    }
  }

  /** Of a resumed run: first it executes what the decisions on its pending calls let
      through, and from then on what the approver does. */
  lemma ResumeIsGated(c: Config, w: World, cp: Checkpoint, decisions: map<string, Approval>)
    ensures var r := DecideCalls(w, cp.turn, cp.calls, decisions, 0, ByID(cp.results), false, []);
            && DecidedOnly(w, decisions, r.log)
            && r.log <= Resume(c, w, cp, decisions).log
            && Gated(w, Resume(c, w, cp, decisions).log, |r.log|)
  {
    DecideCallsGated(w, cp.turn, cp.calls, decisions, 0, ByID(cp.results), false, []);
    var r := DecideCalls(w, cp.turn, cp.calls, decisions, 0, ByID(cp.results), false, []);
    if r.Resumed? && !r.stillPending {
      var st := ResumedState(cp, InCallOrder(cp.calls, r.byID), r.log);
      TurnsExtend(c, w, st, cp.turn + 1);
      TurnsGated(c, w, st, cp.turn + 1, |r.log|);
    } else {
      QuietlyGated(w, r.log, Resume(c, w, cp, decisions).log, |r.log|);
    }
  }
}

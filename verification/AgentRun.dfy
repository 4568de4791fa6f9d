/** The agent run in its imperative form: the loop variables are fields that each
    step updates. Every method is proved to do what the run function says. */
module AgentRun {
  import opened Gage
  import opened Accumulate
  import opened ToolCalls
  import opened RunLog
  import opened Goroutines
  import opened AgentLoop

  class Agent {
    const c: Config
    const w: World
    var conversation: seq<Message>
    var runUsage: Usage
    var lastText: string
    var lastStop: StopReason
    var repeatSig: string
    var repeatCount: nat
    var log: Log

    constructor (c: Config, w: World)
      ensures this.c == c && this.w == w && log == []
    {
      this.c, this.w := c, w;
      conversation, runUsage, lastText, lastStop := [], ZERO_USAGE, "", "";
      repeatSig, repeatCount, log := "", 0, [];
    }

    function View(): State
      reads this
    {
      State(conversation, runUsage, lastText, lastStop, repeatSig, repeatCount, log)
    }

    method Deliver(turn: nat, ev: Event) returns (ok: bool)
      modifies this`log
      ensures log == Send(w, turn, ev, old(log))
      ensures ok == w.delivers(|old(log)|)
    {
      ok := w.delivers(|log|);
      log := log + [if ok then Sent(turn, ev) else Lost(turn, ev)];
    }

    method Fail(turn: nat, err: Err) returns (end: End)
      modifies this`log
      ensures RunOut(end, log) == FailWith(w, turn, err, old(log))
    {
      var _ := Deliver(turn, ErrorEvent(Some(err), ""));
      end := Failed(err);
    }

    method DoPause(cp: Checkpoint) returns (end: End)
      modifies this`log
      ensures RunOut(end, log) == Pause(w, cp, old(log))
    {
      var _ := Deliver(cp.turn, PausedEvent(cp));
      end := Suspended(cp);
    }

    method DoCutShort(turn: nat) returns (end: End)
      modifies this`log
      ensures RunOut(end, log) == CutShort(w, turn, old(log))
    {
      var err := w.ctxErr(|log|);
      if err.Some? {
        end := Fail(turn, err.value);
      } else {
        end := Abandoned;
      }
    }

    /** Relay a stream, rebuilding the message on the way. */
    method DoConsume(turn: nat, events: seq<Event>) returns (acc: AssistantAccum, errEv: Option<Event>, broken: bool)
      modifies this`log
      ensures fresh(acc)
      ensures match Consume(w, turn, events, EMPTY_ACC, old(log))
              case Complete(a, log') => !broken && errEv.None? && acc.View() == a && log == log'
              case StreamError(ev, log') => !broken && errEv == Some(ev) && log == log'
              case Broken(log') => broken && log == log'
    {
      acc := new AssistantAccum();
      errEv, broken := None, false;
      var i := 0;
      while i < |events|
        invariant 0 <= i <= |events|
        invariant fresh(acc)
        invariant Consume(w, turn, events[i..], acc.View(), log) == Consume(w, turn, events, EMPTY_ACC, old(log))
      {
        var ev := events[i];
        assert events[i..][0] == ev && events[i..][1..] == events[i + 1..];
        if ev.ErrorEvent? {
          errEv := Some(ev);
          return;
        }
        acc.DoTake(ev);
        var ok := Deliver(turn, ev);
        if !ok {
          broken := true;
          return;
        }
        i := i + 1;
      }
      broken := w.ctxErr(|log|).Some?;
    }

    /** Ask the provider for one turn, retrying failed streams. */
    method DoStreamTurn(turn: nat, request: seq<Message>) returns (acc: Option<AssistantAccum>, end: End)
      modifies this`log
      ensures match StreamTurn(c, w, turn, 0, conversation, request, old(log))
              case Took(a, log') => acc.Some? && fresh(acc.value) && acc.value.View() == a && log == log'
              case NotTaken(out) => acc.None? && out == RunOut(end, log)
    {
      acc, end := None, Abandoned;
      var attempt := 0;
      while true
        invariant attempt <= c.Retries()
        invariant StreamTurn(c, w, turn, attempt, conversation, request, log)
               == StreamTurn(c, w, turn, 0, conversation, request, old(log))
        decreases c.Retries() - attempt
      {
        var reply := w.stream(|log|, turn, attempt, request);
        log := log + [Ask(turn, attempt, conversation, request)];
        var err, last;
        match reply {
          case Refused(e) => err, last := e, ErrorEvent(Some(e), "");
          case Streaming(events) =>
            var a, errEv, broken := DoConsume(turn, events);
            if broken {
              end := DoCutShort(turn);
              return;
            }
            if errEv.None? {
              acc := Some(a);
              return;
            }
            err, last := ErrorOf(errEv.value), errEv.value;
        }
        if !(attempt < c.Retries() && Retryable(err)) {
          var _ := Deliver(turn, last);
          end := Failed(err);
          return;
        }
        var interrupted := w.ctxErr(|log|);
        if interrupted.Some? {
          end := Fail(turn, interrupted.value);
          return;
        }
        attempt := attempt + 1;
      }
    }

    /** Replace the conversation by what the compactor makes of it. */
    method DoCompact(turn: nat, reported: Usage) returns (end: Option<End>)
      requires w.compactor.Some?
      modifies this
      ensures Agrees(Compact(c, w, old(View()), turn, reported), end)
    {
      end := None;
      match w.compactor.value(|log|, conversation, reported) {
        case CompactFailed(err) =>
          var e := Fail(turn, Wrapped("compaction", err));
          end := Some(e);
        case Shrunk(messages, used) =>
          runUsage := runUsage.Add(used);
          conversation := messages;
          log := log + [Compacted(used)];
          if OverBudget(c, runUsage) {
            var e := Fail(turn, BudgetError(c, runUsage));
            end := Some(e);
          }
      }
    }

    /** The run is where `phase` says: over with that end and log, or going on in
        that state. */
    ghost predicate Agrees(phase: Phase, end: Option<End>)
      reads this
    {
      match phase
      case Over(out) => end == Some(out.end) && log == out.log
      case Ready(st) => end.None? && View() == st
    }

    /** Count repeated calls across turns; answer or stop the excess ones. */
    method DoGuard(calls: seq<ToolCall>) returns (forced: seq<Option<ToolResult>>, tripped: Option<(string, nat)>)
      modifies this`repeatSig, this`repeatCount
      ensures match RunGuard(c, old(View()), calls)
              case Passed(f, sig, count) =>
                tripped.None? && forced == f && repeatSig == sig && repeatCount == count
              case Tripped(name, count) => tripped == Some((name, count))
      ensures tripped.None? ==> |forced| == |calls|
    {
      forced, tripped := seq(|calls|, _ => None), None;
      if c.maxToolRepeats <= 0 {
        return;
      }
      forced := [];
      for i := 0 to |calls|
        invariant |forced| == i
        invariant Prefixed(forced, Guard(c.maxToolRepeats, calls[i..], repeatSig, repeatCount))
               == Guard(c.maxToolRepeats, calls, old(repeatSig), old(repeatCount))
      {
        var tc := calls[i];
        GuardStep(c.maxToolRepeats, forced, calls, i, repeatSig, repeatCount);
        if Signature(tc) == repeatSig {
          repeatCount := repeatCount + 1;
        } else {
          repeatSig, repeatCount := Signature(tc), 1;
        }
        if repeatCount > c.maxToolRepeats + 1 {
          tripped := Some((tc.name, repeatCount));
          return;
        }
        var entry := if repeatCount == c.maxToolRepeats + 1
                     then Some(ErrorResult(tc.id, LoopWarning(tc.name, repeatCount))) else None;
        forced := forced + [entry];
      }
      assert calls[|calls|..] == [] && forced + [] == forced;
    }

    /** Run a turn's tool calls one after the other. */
    method DoExecTools(turn: nat, calls: seq<ToolCall>, forced: seq<Option<ToolResult>>)
      returns (results: seq<ToolResult>, pending: seq<ToolCall>, ok: bool)
      requires |forced| == |calls|
      modifies this`log
      ensures match ExecTools(w, turn, calls, forced, 0, [], [], old(log))
              case BatchDone(rs, ps, log') => ok && results == rs && pending == ps && log == log'
              case BatchCut(log') => !ok && log == log'
    {
      results, pending, ok := [], [], true;
      var i := 0;
      while i < |calls|
        invariant 0 <= i <= |calls|
        invariant ExecTools(w, turn, calls, forced, i, results, pending, log)
               == ExecTools(w, turn, calls, forced, 0, [], [], old(log))
      {
        var tc := calls[i];
        if w.ctxErr(|log|).Some? {
          ok := false;
          return;
        }
        var result;
        if forced[i].Some? {
          result := forced[i].value;
        } else {
          var reply := ExecTool(w.toolbox, |log|, turn, tc, None);
          log := log + [ToolStep(turn, i, tc, HowOf(reply))];
          if reply.Deferred? {
            pending := pending + [tc];
            i := i + 1;
            continue;
          }
          result := reply.result;
        }
        ok := Deliver(turn, ToolResultEvent(result));
        if !ok {
          return;
        }
        results := results + [result];
        i := i + 1;
      }
    }

    /** Run a turn's tool calls in goroutines: step by step the one the scheduler picks
        advances, and once none can, slots and pending marks are read in call order. */
    method DoExecParallel(turn: nat, calls: seq<ToolCall>, forced: seq<Option<ToolResult>>)
      returns (results: seq<ToolResult>, pending: seq<ToolCall>, ok: bool)
      requires |forced| == |calls| && c.maxParallelTools > 1
      modifies this`log
      ensures match ExecParallel(c, w, turn, calls, forced, old(log))
              case BatchDone(rs, ps, log') => ok && results == rs && pending == ps && log == log'
              case BatchCut(log') => !ok && log == log'
    {
      results, pending, ok := [], [], true;
      var b := Batch(w.toolbox, w.delivers, turn, calls, forced, c.maxParallelTools);
      var s := Initial(b, log);
      while Enabled(b, s, Chosen(b, s, w.scheduler))
        invariant Shaped(b, s)
        invariant Concurrently(b, s, w.scheduler) == Concurrently(b, Initial(b, old(log)), w.scheduler)
        decreases Sum(s.pcs, Rank())
      {
        Advances(b, s, Chosen(b, s, w.scheduler));
        s := Advance(b, s, Chosen(b, s, w.scheduler));
      }
      log := s.log;
      if s.cancelled || w.ctxErr(|log|).Some? {
        ok := false;
        return;
      }
      results, pending := GatherSlots(calls, s.slots, s.pendingIdx);
    }

    /** Read slots and pending marks in call order. */
    method GatherSlots(calls: seq<ToolCall>, slots: seq<Option<ToolResult>>, pendingIdx: seq<bool>)
      returns (results: seq<ToolResult>, pending: seq<ToolCall>)
      requires |slots| == |pendingIdx| == |calls|
      ensures results == SlotResults(slots, pendingIdx) && pending == MarkedCalls(calls, pendingIdx)
    {
      results, pending := [], [];
      for i := 0 to |calls|
        invariant results == SlotResults(slots[..i], pendingIdx[..i])
        invariant pending == MarkedCalls(calls[..i], pendingIdx[..i])
      {
        assert slots[..i + 1][..i] == slots[..i] && pendingIdx[..i + 1][..i] == pendingIdx[..i];
        assert calls[..i + 1][..i] == calls[..i];
        if pendingIdx[i] {
          pending := pending + [calls[i]];
        } else if slots[i].Some? {
          results := results + [slots[i].value];
        }
      }
      assert slots[..|calls|] == slots && pendingIdx[..|calls|] == pendingIdx && calls[..|calls|] == calls;
    }

    /** Run a turn's tool calls, concurrently if the configuration allows it. */
    method DoRunBatch(turn: nat, calls: seq<ToolCall>, forced: seq<Option<ToolResult>>)
      returns (results: seq<ToolResult>, pending: seq<ToolCall>, ok: bool)
      requires |forced| == |calls|
      modifies this`log
      ensures match RunBatch(c, w, turn, calls, forced, old(log))
              case BatchDone(rs, ps, log') => ok && results == rs && pending == ps && log == log'
              case BatchCut(log') => !ok && log == log'
    {
      if c.maxParallelTools <= 1 || |calls| == 1 {
        results, pending, ok := DoExecTools(turn, calls, forced);
      } else {
        results, pending, ok := DoExecParallel(turn, calls, forced);
      }
    }

    /** Run the decided calls of a checkpoint and merge them with its results. */
    method DoResumeToolBatch(cp: Checkpoint, decisions: map<string, Approval>)
      returns (results: seq<ToolResult>, stillPending: bool, ok: bool)
      modifies this`log
      ensures match DecideCalls(w, cp.turn, cp.calls, decisions, 0, ByID(cp.results), false, old(log))
              case Resumed(byID, still, log') =>
                ok && results == InCallOrder(cp.calls, byID) && stillPending == still && log == log'
              case ResumeCut(log') => !ok && log == log'
    {
      results, stillPending, ok := [], false, true;
      var byID: map<string, ToolResult> := map[];
      for k := 0 to |cp.results|
        invariant byID == ByID(cp.results[..k])
      {
        assert cp.results[..k + 1][..k] == cp.results[..k];
        byID := byID[cp.results[k].callID := cp.results[k]];
      }
      assert cp.results[..|cp.results|] == cp.results;
      var i := 0;
      while i < |cp.calls|
        invariant 0 <= i <= |cp.calls|
        invariant ok
        invariant DecideCalls(w, cp.turn, cp.calls, decisions, i, byID, stillPending, log)
               == DecideCalls(w, cp.turn, cp.calls, decisions, 0, ByID(cp.results), false, old(log))
      {
        var tc := cp.calls[i];
        i := i + 1;
        if tc.id in byID {
          continue;
        }
        if tc.id !in decisions {
          stillPending := true;
          continue;
        }
        if w.ctxErr(|log|).Some? {
          ok := false;
          return;
        }
        var reply := ExecTool(w.toolbox, |log|, cp.turn, tc, Some(decisions[tc.id]));
        log := log + [ToolStep(cp.turn, i - 1, tc, HowOf(reply))];
        ok := Deliver(cp.turn, ToolResultEvent(reply.result));
        if !ok {
          return;
        }
        byID := byID[tc.id := reply.result];
      }
      for k := 0 to |cp.calls|
        invariant results == InCallOrder(cp.calls[..k], byID)
      {
        assert cp.calls[..k + 1][..k] == cp.calls[..k];
        if cp.calls[k].id in byID {
          results := results + [byID[cp.calls[k].id]];
        }
      }
      assert cp.calls[..|cp.calls|] == cp.calls;
    }

    /** Feed the results back, one message each. */
    method AppendResults(results: seq<ToolResult>)
      modifies this`conversation
      ensures conversation == old(conversation) + ToolResultMessages(results)
    {
      for k := 0 to |results|
        invariant conversation == old(conversation) + ToolResultMessages(results[..k])
      {
        assert ToolResultMessages(results[..k + 1])
               == ToolResultMessages(results[..k]) + [ToolResultMessage(results[k])];
        conversation := conversation + [ToolResultMessage(results[k])];
      }
      assert results[..|results|] == results;
    }

    /** From an accepted stream to the end of the turn. */
    method DoRunTools(turn: nat, acc: AssistantAccum) returns (end: Option<End>)
      modifies this
      ensures Agrees(RunTools(c, w, old(View()), turn, old(acc.View())), end)
    {
      end := None;
      if OverBudget(c, runUsage) {
        var e := Fail(turn, BudgetError(c, runUsage));
        return Some(e);
      }
      var calls, reported := acc.toolCalls, acc.usage;
      log := log + [Issued(turn, calls)];
      var forced, tripped := DoGuard(calls);
      if tripped.Some? {
        var e := Fail(turn, LoopDetected(tripped.value.0, tripped.value.1));
        return Some(e);
      }
      var results, pending, ok := DoRunBatch(turn, calls, forced);
      if !ok {
        var e := DoCutShort(turn);
        return Some(e);
      }
      if pending != [] {
        var e := DoPause(Checkpoint(conversation, turn, runUsage, acc.stopReason, calls, results));
        return Some(e);
      }
      AppendResults(results);
      if w.compactor.Some? && c.compactAfter > 0 && reported.input >= c.compactAfter {
        end := DoCompact(turn, reported);
      }
    }

    /** Ask the provider, take in its message and act on the tool calls. */
    method DoAskAndAct(turn: nat, request: seq<Message>) returns (end: Option<End>)
      modifies this
      ensures Agrees(AskAndAct(c, w, old(View()), turn, request), end)
    {
      var asst, stopped := DoStreamTurn(turn, request);
      if asst.None? {
        return Some(stopped);
      }
      var acc := asst.value;
      ghost var st, taken, before := old(View()), acc.View(), log;
      DoAbsorb(turn, acc);
      ActsOnWhatItTook(c, w, st, turn, request, taken, before);
      end := DoAct(turn, acc);
    }

    /** Act on an answer that was taken in. */
    method DoAct(turn: nat, acc: AssistantAccum) returns (end: Option<End>)
      modifies this
      ensures Agrees(Act(c, w, old(View()), turn, old(acc.View())), end)
    {
      if acc.toolCalls == [] {
        var e := DoConclude(turn);
        return Some(e);
      }
      end := DoRunTools(turn, acc);
    }

    /** No tool calls: the run is done. */
    method DoConclude(turn: nat) returns (end: End)
      modifies this
      ensures var result := Conclude(old(View()), turn);
              && end == Finished(result)
              && View() == old(View()).(log := Send(w, turn, DoneEvent(result), old(log)))
    {
      var result := Conclude(View(), turn);
      var _ := Deliver(turn, DoneEvent(result));
      end := Finished(result);
    }

    /** Take in an accepted stream: usage, stop reason, text and message. */
    method DoAbsorb(turn: nat, acc: AssistantAccum)
      modifies this, acc
      ensures View() == Absorb(old(View()), turn, old(acc.View()), old(log))
      ensures acc.View() == Flush(old(acc.View()), "")
    {
      runUsage := runUsage.Add(acc.usage);
      lastStop := acc.stopReason;
      if AccText(acc.View()) != "" {
        lastText := AccText(acc.View());
      }
      log := log + [Accepted(turn, acc.usage)];
      acc.DoFlush("");
      if acc.parts != [] {
        conversation := conversation + [Message(RoleAssistant, acc.parts)];
      }
    }

    method DoTurn(turn: nat) returns (end: Option<End>)
      modifies this
      ensures Agrees(Turn(c, w, old(View()), turn), end)
    {
      end := None;
      if w.compactor.Some? && c.compactAfter > 0 {
        var est := w.estimate(|log|, conversation);
        if est >= c.compactAfter {
          end := DoCompact(turn, Usage(est, 0, 0, 0, 0));
          if end.Some? {
            return;
          }
        }
      }
      var request := conversation;
      if w.prepareRequest.Some? {
        var prepared := w.prepareRequest.value(|log|, turn, request);
        if prepared.Fail? {
          var e := Fail(turn, Wrapped("prepare request hook", prepared.error));
          return Some(e);
        }
        request := prepared.value;
      }
      end := DoAskAndAct(turn, request);
    }

    /** The turn loop, from the current state. */
    method DoTurns(startTurn: nat) returns (end: End)
      modifies this
      ensures RunOut(end, log) == Turns(c, w, old(View()), startTurn)
    {
      var turn := startTurn;
      while turn < c.MaxTurns()
        invariant Turns(c, w, View(), turn) == Turns(c, w, old(View()), startTurn)
      {
        var over := DoTurn(turn);
        if over.Some? {
          return over.value;
        }
        turn := turn + 1;
      }
      end := Fail(c.MaxTurns(), MaxTurnsReached);
    }

    method RunLoop(input: seq<Message>) returns (end: End)
      requires log == []
      modifies this
      ensures RunOut(end, log) == Run(c, w, input)
    {
      conversation, runUsage, lastText, lastStop := input, ZERO_USAGE, "", "";
      repeatSig, repeatCount := "", 0;
      end := DoTurns(0);
    }

    method ResumeLoop(cp: Checkpoint, decisions: map<string, Approval>) returns (end: End)
      requires log == []
      modifies this
      ensures RunOut(end, log) == Resume(c, w, cp, decisions)
    {
      var results, stillPending, ok := DoResumeToolBatch(cp, decisions);
      if !ok {
        end := DoCutShort(cp.turn);
        return;
      }
      if stillPending {
        end := DoPause(cp.(results := results));
        return;
      }
      conversation := cp.messages;
      AppendResults(results);
      runUsage, lastText, lastStop := cp.usage, LastAssistantText(cp.messages), cp.stopReason;
      repeatSig, repeatCount := "", 0;
      end := DoTurns(cp.turn + 1);
    }
  }

  /** What follows on an answer: the end of the run, or its tool calls. */
  function Act(c: Config, w: World, st: State, turn: nat, acc: Acc): Phase {
    if acc.toolCalls == [] then
      Over(RunOut(Finished(Conclude(st, turn)), Send(w, turn, DoneEvent(Conclude(st, turn)), st.log)))
    else RunTools(c, w, st, turn, acc)
  }

  lemma ActsOnWhatItTook(c: Config, w: World, st: State, turn: nat, request: seq<Message>, acc: Acc, log: Log)
    requires StreamTurn(c, w, turn, 0, st.conversation, request, st.log) == Took(acc, log)
    ensures AskAndAct(c, w, st, turn, request) == Act(c, w, Absorb(st, turn, acc, log), turn, Flush(acc, ""))
  {
    FlushedActsAlike(c, w, Absorb(st, turn, acc, log), turn, acc, Flush(acc, ""));
  }

  /** Tools are run by what the answer calls for, used and how it stopped alone. */
  lemma FlushedActsAlike(c: Config, w: World, st: State, turn: nat, acc: Acc, flushed: Acc)
    requires acc.toolCalls == flushed.toolCalls && acc.usage == flushed.usage && acc.stopReason == flushed.stopReason
    ensures RunTools(c, w, st, turn, flushed) == RunTools(c, w, st, turn, acc)
  {
  }

  /** The guard on one more call, the entries decided so far in front. */
  lemma GuardStep(limit: nat, before: seq<Option<ToolResult>>, calls: seq<ToolCall>, i: nat, sig: string, count: nat)
    requires i < |calls|
    ensures var tc := calls[i];
            var n := if Signature(tc) == sig then count + 1 else 1;
            var entry := if n == limit + 1 then Some(ErrorResult(tc.id, LoopWarning(tc.name, n))) else None;
            Prefixed(before, Guard(limit, calls[i..], sig, count))
              == if n > limit + 1 then Tripped(tc.name, n)
                 else Prefixed(before + [entry], Guard(limit, calls[i + 1..], Signature(tc), n))
  {
    var tc := calls[i];
    assert calls[i..][0] == tc && calls[i..][1..] == calls[i + 1..];
    var n := if Signature(tc) == sig then count + 1 else 1;
    var entry := if n == limit + 1 then Some(ErrorResult(tc.id, LoopWarning(tc.name, n))) else None;
    var rest := Guard(limit, calls[i + 1..], Signature(tc), n);
    if rest.Passed? {
      assert before + ([entry] + rest.forced) == before + [entry] + rest.forced;
    }
  }
}

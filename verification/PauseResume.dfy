/** Pausing for approval is unobservable: a run that pauses any number of times and
    is resumed with the missing decisions comes to the end it would have come to had
    the approver given those decisions at once. */
module PauseResume {
  import opened Gage
  import opened Accumulate
  import opened ToolCalls
  import opened RunLog
  import opened Goroutines
  import opened AgentLoop
  import opened Batches
  import opened Pairing
  import Strings

  // ---- what is assumed of the world ----

  /** Provider, request hook and tools answer alike whenever they are asked, nothing
      is cancelled or lost, and nothing else stands between a call and its answer:
      no pre-tool hook (a resumed call skips it) and no compactor (a paused turn skips
      the compaction that would follow it). */
  ghost predicate Steady(w: World) {
    && (forall n: nat, turn: nat, attempt: nat, request: seq<Message> ::
          w.stream(n, turn, attempt, request) == w.stream(0, turn, attempt, request))
    && (w.prepareRequest.Some? ==> forall n: nat, turn: nat, msgs: seq<Message> ::
          w.prepareRequest.value(n, turn, msgs) == w.prepareRequest.value(0, turn, msgs))
    && w.compactor.None?
    && (forall n: nat :: w.delivers(n))
    && (forall n: nat :: w.ctxErr(n).None?)
    && Timeless(w.toolbox)
    && KeepsCallIDs(w.toolbox)
    && w.toolbox.preToolUse.None?
    && DistinctCallIDs(w)
  }

  /** The call ids of one stream are pairwise distinct. */
  ghost predicate DistinctCallIDs(w: World) {
    forall n: nat, turn: nat, attempt: nat, request: seq<Message> ::
      w.stream(n, turn, attempt, request).Streaming? ==>
        DistinctIDs(CallsDone(w.stream(n, turn, attempt, request).events))
  }

  function CallsDone(events: seq<Event>): seq<ToolCall> {
    if events == [] then []
    else (if events[0].ToolCallDone? then [events[0].call] else []) + CallsDone(events[1..])
  }

  lemma {:induction false} CallsDoneMore(events: seq<Event>, ev: Event)
    ensures CallsDone(events + [ev])
         == CallsDone(events) + if ev.ToolCallDone? then [ev.call] else []
    decreases |events|
  {
    var last := if ev.ToolCallDone? then [ev.call] else [];
    if events == [] {
      assert events + [ev] == [ev] && [ev][1..] == [];
      assert last + [] == last && [] + last == last;
    } else {
      assert (events + [ev])[1..] == events[1..] + [ev];
      CallsDoneMore(events[1..], ev);
      var first := if events[0].ToolCallDone? then [events[0].call] else [];
      Strings.Assoc(first, CallsDone(events[1..]), last);
    }
  }

  ghost predicate DistinctIDs(calls: seq<ToolCall>) {
    forall i, j :: 0 <= i < j < |calls| ==> calls[i].id != calls[j].id
  }

  /** `direct` is steady too, has the same provider, hooks and tools, and an approver that
      never postpones and gives at once the answers `w`'s approver gives when it does not
      postpone. */
  ghost predicate Forthright(w: World, direct: World) {
    && Steady(direct)
    && w.toolbox.approver.Some? && direct.toolbox.approver.Some?
    && direct.stream == w.stream && direct.prepareRequest == w.prepareRequest
    && direct.toolbox == w.toolbox.(approver := direct.toolbox.approver)
    && (forall m: nat, turn: nat, tc: ToolCall :: Says(direct, m, turn, tc) != Postponed)
    && (forall m: nat, turn: nat, tc: ToolCall :: Says(direct, m, turn, tc) == Says(direct, 0, turn, tc))
    && (forall n: nat, turn: nat, tc: ToolCall ::
          Says(w, n, turn, tc) == Postponed || Says(w, n, turn, tc) == Says(direct, 0, turn, tc))
  }

  ghost function Says(w: World, n: nat, turn: nat, tc: ToolCall): ApproverReply
    requires w.toolbox.approver.Some?
  {
    w.toolbox.approver.value(n, turn, tc)
  }

  /** The decisions brought to a paused run are those of the forthright approver. */
  ghost predicate Faithful(direct: World, cp: Checkpoint, decisions: map<string, Approval>)
    requires direct.toolbox.approver.Some?
  {
    forall tc :: tc in cp.calls && tc.id in decisions && tc.id !in ByID(cp.results) ==>
      Says(direct, 0, cp.turn, tc) == Decided(decisions[tc.id])
  }

  // ---- streams ----

  lemma {:induction false} ConsumeAgree(w: World, direct: World, turn: nat, events: seq<Event>, acc: Acc, log1: Log,
                                        log2: Log)
    requires Steady(w) && Steady(direct)
    ensures var r1, r2 := Consume(w, turn, events, acc, log1), Consume(direct, turn, events, acc, log2);
            match r1
            case Complete(a, _) => r2.Complete? && r2.acc == a && a.toolCalls == acc.toolCalls + CallsDone(events)
            case StreamError(ev, _) => r2.StreamError? && r2.event == ev
            case Broken(_) => false
    decreases |events|
  {
    if events != [] && !events[0].ErrorEvent? {
      ConsumeAgree(w, direct, turn, events[1..], Take(acc, events[0]),
                   Send(w, turn, events[0], log1), Send(direct, turn, events[0], log2));
    }
  }

  lemma {:induction false} StreamTurnAgree(c: Config, w: World, direct: World, turn: nat, attempt: nat,
                                           conversation: seq<Message>, request: seq<Message>, log1: Log, log2: Log)
    requires Steady(w) && Steady(direct) && Forthright(w, direct)
    ensures var r1 := StreamTurn(c, w, turn, attempt, conversation, request, log1);
            var r2 := StreamTurn(c, direct, turn, attempt, conversation, request, log2);
            match r1
            case Took(acc, _) => r2.Took? && r2.acc == acc && DistinctIDs(acc.toolCalls)
            case NotTaken(out) => r2.NotTaken? && r2.out.end == out.end && out.end.Failed?
    decreases c.Retries() - attempt
  {
    var asked1 := log1 + [Ask(turn, attempt, conversation, request)];
    var asked2 := log2 + [Ask(turn, attempt, conversation, request)];
    assert w.stream(|log1|, turn, attempt, request) == direct.stream(|log2|, turn, attempt, request) by {
      assert w.stream(|log1|, turn, attempt, request) == w.stream(0, turn, attempt, request);
      assert direct.stream(|log2|, turn, attempt, request) == direct.stream(0, turn, attempt, request);
    }
    match w.stream(|log1|, turn, attempt, request)
    case Refused(err) =>
      if attempt < c.Retries() && Retryable(err) {
        StreamTurnAgree(c, w, direct, turn, attempt + 1, conversation, request, asked1, asked2);
      }
    case Streaming(events) =>
      ConsumeAgree(w, direct, turn, events, EMPTY_ACC, asked1, asked2);
      var r1, r2 := Consume(w, turn, events, EMPTY_ACC, asked1), Consume(direct, turn, events, EMPTY_ACC, asked2);
      if r1.StreamError? && attempt < c.Retries() && Retryable(ErrorOf(r1.event)) {
        StreamTurnAgree(c, w, direct, turn, attempt + 1, conversation, request, r1.log, r2.log);
      }
  }

  // ---- tool batches ----

  /** The answer a call gets from the forthright approver's world. */
  ghost function Direct(direct: World, turn: nat, tc: ToolCall): ToolResult
    requires direct.toolbox.approver.Some?
  {
    var r := ExecTool(direct.toolbox, 0, turn, tc, None);
    if r.Answered? then r.result else ErrorResult(tc.id, NoTools)
  }

  ghost function DirectResults(direct: World, turn: nat, calls: seq<ToolCall>): (rs: seq<ToolResult>)
    requires direct.toolbox.approver.Some?
    ensures |rs| == |calls|
  {
    seq(|calls|, k requires 0 <= k < |calls| => Direct(direct, turn, calls[k]))
  }

  lemma DirectAnswers(direct: World, m: nat, turn: nat, tc: ToolCall)
    requires Steady(direct) && Forthright(direct, direct)
    ensures var r := ExecTool(direct.toolbox, m, turn, tc, None);
            r.Answered? && r.result == Direct(direct, turn, tc) && r.result.callID == tc.id
  {
    AnswersUnderOwnID(direct.toolbox, m, turn, tc, None);
    assert Says(direct, m, turn, tc) == Says(direct, 0, turn, tc) != Postponed;
    ExecToolTimeless(direct.toolbox, direct.toolbox, m, 0, turn, tc);
  }

  lemma ForthrightItself(w: World, direct: World)
    requires Steady(w) && Forthright(w, direct)
    ensures Steady(direct) && Forthright(direct, direct)
  {
  }

  /** An unresumed call is answered directly or postponed; postponed ones were valid. */
  lemma AnsweredOrPostponed(w: World, direct: World, n: nat, turn: nat, tc: ToolCall)
    requires Steady(w) && Forthright(w, direct)
    ensures var r := ExecTool(w.toolbox, n, turn, tc, None);
            match r
            case Answered(result, _) => result == Direct(direct, turn, tc) && result.callID == tc.id
            case Deferred => MayWait(w, tc)
  {
    ForthrightItself(w, direct);
    DirectAnswers(direct, 0, turn, tc);
    AnswersUnderOwnID(w.toolbox, n, turn, tc, None);
    if Says(w, n, turn, tc) != Postponed {
      assert Says(w, n, turn, tc) == Says(direct, 0, turn, tc);
      ExecToolTimeless(w.toolbox, direct.toolbox, n, 0, turn, tc);
    } else {
      RejectedAlike(w, direct, n, turn, tc);
    }
  }

  /** Only a call of a known tool with valid input is ever put to the approver. */
  ghost predicate MayWait(w: World, tc: ToolCall) {
    w.toolbox.known.Some? && w.toolbox.known.value(tc.name) && Invalid(w.toolbox, tc).None?
  }

  /** A call not put to the approver is answered without it. */
  lemma RejectedAlike(w: World, direct: World, n: nat, turn: nat, tc: ToolCall)
    requires Steady(w) && Forthright(w, direct)
    ensures !MayWait(w, tc) ==>
              ExecTool(w.toolbox, n, turn, tc, None) == ExecTool(direct.toolbox, 0, turn, tc, None)
  {
    var t := w.toolbox;
    if t.known.None? {
      FinishTimeless(t, n, 0, tc, ErrorResult(tc.id, NoTools));
    } else if !t.known.value(tc.name) {
      FinishTimeless(t, n, 0, tc, ErrorResult(tc.id, UnknownTool(tc.name)));
    } else if Invalid(t, tc).Some? {
      FinishTimeless(t, n, 0, tc, ErrorResult(tc.id, InvalidArguments(tc.name, Invalid(t, tc).value)));
    }
  }

  /** The results so far are right for every call answered, and the others may wait. */
  ghost predicate RightSoFar(w: World, direct: World, turn: nat, calls: seq<ToolCall>, byID: map<string, ToolResult>)
    requires direct.toolbox.approver.Some?
  {
    forall tc :: tc in calls ==>
      if tc.id in byID then byID[tc.id] == Direct(direct, turn, tc) else MayWait(w, tc)
  }

  lemma ByIDAppend(results: seq<ToolResult>, r: ToolResult)
    ensures ByID(results + [r]) == ByID(results)[r.callID := r]
  {
    assert (results + [r])[..|results|] == results;
  }

  ghost predicate NoneForced(forced: seq<Option<ToolResult>>) {
    forall k :: 0 <= k < |forced| ==> forced[k].None?
  }

  /** Each answered call finds its own answer and no other call finds any. */
  ghost predicate Indexes(byID: map<string, ToolResult>, calls: seq<ToolCall>, outcomes: seq<Reply>)
    requires |calls| == |outcomes|
  {
    && (forall k :: 0 <= k < |calls| ==> (calls[k].id in byID <==> outcomes[k].Answered?))
    && (forall k :: 0 <= k < |calls| && outcomes[k].Answered? ==> byID[calls[k].id] == outcomes[k].result)
    && (forall id :: id in byID ==> exists k :: 0 <= k < |calls| && calls[k].id == id)
  }

  lemma IndexesMore(before: map<string, ToolResult>, calls: seq<ToolCall>, outcomes: seq<Reply>)
    requires calls != [] && |calls| == |outcomes| && DistinctIDs(calls)
    requires Indexes(before, calls[..|calls| - 1], outcomes[..|calls| - 1])
    ensures var n := |calls| - 1;
            var after := if outcomes[n].Answered? then before[calls[n].id := outcomes[n].result] else before;
            Indexes(after, calls, outcomes)
  {
    var n := |calls| - 1;
    assert forall k :: 0 <= k < n ==> calls[..n][k] == calls[k] && outcomes[..n][k] == outcomes[k];
  }

  /** Results indexed by id do that. */
  lemma {:induction false} IndexedByID(calls: seq<ToolCall>, outcomes: seq<Reply>)
    requires |calls| == |outcomes| && DistinctIDs(calls)
    requires forall k :: 0 <= k < |calls| && outcomes[k].Answered? ==> outcomes[k].result.callID == calls[k].id
    ensures Indexes(ByID(ResultsOf(outcomes)), calls, outcomes)
    decreases |calls|
  {
    if calls != [] {
      var n := |calls| - 1;
      FrontAnswered(calls, outcomes);
      IndexedByID(calls[..n], outcomes[..n]);
      IndexesMore(ByID(ResultsOf(outcomes[..n])), calls, outcomes);
      OneMoreIndexed(outcomes);
    }
  }

  lemma FrontAnswered(calls: seq<ToolCall>, outcomes: seq<Reply>)
    requires |calls| == |outcomes| && DistinctIDs(calls) && calls != []
    requires forall k :: 0 <= k < |calls| && outcomes[k].Answered? ==> outcomes[k].result.callID == calls[k].id
    ensures var front, before := calls[..|calls| - 1], outcomes[..|calls| - 1];
            && DistinctIDs(front)
            && forall k :: 0 <= k < |front| && before[k].Answered? ==> before[k].result.callID == front[k].id
  {
  }

  lemma OneMoreIndexed(outcomes: seq<Reply>)
    requires outcomes != []
    ensures var n := |outcomes| - 1;
            var before := ByID(ResultsOf(outcomes[..n]));
            ByID(ResultsOf(outcomes)) ==
              if outcomes[n].Answered? then before[outcomes[n].result.callID := outcomes[n].result] else before
  {
    var n := |outcomes| - 1;
    if outcomes[n].Answered? {
      ByIDAppend(ResultsOf(outcomes[..n]), outcomes[n].result);
    } else {
      assert ResultsOf(outcomes) == ResultsOf(outcomes[..n]);
    }
  }

  /** What call `k` of a batch can come to. */
  lemma OutcomeRight(w: World, direct: World, b: Batch, k: nat, r: Reply)
    requires Steady(w) && Forthright(w, direct)
    requires b.toolbox == w.toolbox && k < |b.calls| == |b.forced| && b.forced[k].None? && CouldComeTo(b, k, r)
    ensures match r
            case Answered(result, _) => result == Direct(direct, b.turn, b.calls[k]) && result.callID == b.calls[k].id
            case Deferred => MayWait(w, b.calls[k])
  {
    var n: nat :| r == ExecTool(b.toolbox, n, b.turn, b.calls[k], None);
    AnsweredOrPostponed(w, direct, n, b.turn, b.calls[k]);
  }

  ghost predicate AllRight(w: World, direct: World, turn: nat, calls: seq<ToolCall>, outcomes: seq<Reply>)
    requires direct.toolbox.approver.Some?
  {
    && |outcomes| == |calls|
    && forall k: nat :: k < |calls| ==>
         match outcomes[k]
         case Answered(result, _) => result == Direct(direct, turn, calls[k]) && result.callID == calls[k].id
         case Deferred => MayWait(w, calls[k])
  }

  lemma RightGathered(w: World, direct: World, turn: nat, calls: seq<ToolCall>, outcomes: seq<Reply>)
    requires direct.toolbox.approver.Some? && DistinctIDs(calls) && AllRight(w, direct, turn, calls, outcomes)
    ensures RightSoFar(w, direct, turn, calls, ByID(ResultsOf(outcomes)))
    ensures PendingOf(calls, outcomes) == [] ==> ResultsOf(outcomes) == DirectResults(direct, turn, calls)
  {
    IndexedByID(calls, outcomes);
    NonePending(calls, outcomes);
  }

  /** A batch, run either way, has the forthright answers, and what it leaves pending
      may wait. */
  lemma BatchRightly(c: Config, w: World, direct: World, turn: nat, calls: seq<ToolCall>,
                     forced: seq<Option<ToolResult>>, log: Log)
    requires Steady(w) && Forthright(w, direct) && DistinctIDs(calls)
    requires |forced| == |calls| && NoneForced(forced)
    ensures var r := RunBatch(c, w, turn, calls, forced, log);
            && r.BatchDone?
            && RightSoFar(w, direct, turn, calls, ByID(r.results))
            && (r.pending == [] ==> r.results == DirectResults(direct, turn, calls))
  {
    UncutIsDone(c, w, turn, calls, forced, log);
    var b := BatchOf(c, w, turn, calls, forced);
    var outcomes := BatchFacts(c, w, turn, calls, forced, log);
    forall k: nat | k < |calls|
      ensures match outcomes[k]
              case Answered(result, _) => result == Direct(direct, turn, calls[k]) && result.callID == calls[k].id
              case Deferred => MayWait(w, calls[k])
    {
      CameIsCould(b, log, RunBatch(c, w, turn, calls, forced, log).log, k, outcomes[k]);
      OutcomeRight(w, direct, b, k, outcomes[k]);
    }
    RightGathered(w, direct, turn, calls, outcomes);
  }

  /** With a forthright approver nothing is left pending. */
  lemma DirectNeverPending(c: Config, direct: World, turn: nat, calls: seq<ToolCall>, forced: seq<Option<ToolResult>>,
                           log: Log)
    requires Steady(direct) && Forthright(direct, direct)
    requires |forced| == |calls| && NoneForced(forced)
    ensures var r := RunBatch(c, direct, turn, calls, forced, log);
            r.BatchDone? && r.pending == []
  {
    UncutIsDone(c, direct, turn, calls, forced, log);
    var outcomes := BatchFacts(c, direct, turn, calls, forced, log);
    forall k: nat | k < |calls|
      ensures outcomes[k].Answered?
    {
      CameIsCould(BatchOf(c, direct, turn, calls, forced), log, RunBatch(c, direct, turn, calls, forced, log).log,
                  k, outcomes[k]);
      var n: nat :| outcomes[k] == ExecTool(direct.toolbox, n, turn, calls[k], None);
      DirectAnswers(direct, n, turn, calls[k]);
    }
    NonePending(calls, outcomes);
  }

  // ---- the rest of a run, from a state or from a checkpoint ----

  /** The end of a run, its final text aside. */
  function SansText(end: End): End {
    if end.Finished? then Finished(end.result.(text := "")) else end
  }

  /** Loop states that differ in nothing the future depends on but the last text. */
  ghost predicate Alike(s1: State, s2: State) {
    s1.conversation == s2.conversation && s1.usage == s2.usage && s1.lastStop == s2.lastStop
  }

  /** A checkpoint whose answered calls were answered rightly. */
  ghost predicate Trustworthy(w: World, direct: World, cp: Checkpoint)
    requires direct.toolbox.approver.Some?
  {
    DistinctIDs(cp.calls) && RightSoFar(w, direct, cp.turn, cp.calls, ByID(cp.results))
  }

  /** The state the forthright run is in after the turn a checkpoint belongs to. */
  ghost function AfterCheckpoint(direct: World, cp: Checkpoint): State
    requires direct.toolbox.approver.Some?
  {
    ResumedState(cp, DirectResults(direct, cp.turn, cp.calls), [])
  }

  /** The end the forthright run comes to from there. */
  ghost function TrueEnd(c: Config, direct: World, cp: Checkpoint): End
    requires direct.toolbox.approver.Some?
  {
    Turns(c, direct, AfterCheckpoint(direct, cp), cp.turn + 1).end
  }

  /** The end is `goal`, up to the final text, or a trustworthy pause on the way to it. */
  ghost predicate BoundFor(c: Config, w: World, direct: World, end: End, goal: End)
    requires direct.toolbox.approver.Some?
  {
    if end.Suspended? then
      Trustworthy(w, direct, end.checkpoint) && SansText(TrueEnd(c, direct, end.checkpoint)) == SansText(goal)
    else SansText(end) == SansText(goal)
  }

  /** What a turn of `w` makes of a state, against what the same turn of `direct`
      makes of a state alike. */
  ghost predicate TurnMatches(w: World, direct: World, turn: nat, p1: Phase, p2: Phase)
    requires direct.toolbox.approver.Some?
  {
    match p1
    case Ready(s1) => p2.Ready? && Alike(s1, p2.st)
    case Over(out1) =>
      if out1.end.Suspended? then
        var cp := out1.end.checkpoint;
        p2.Ready? && cp.turn == turn && Trustworthy(w, direct, cp) && Alike(AfterCheckpoint(direct, cp), p2.st)
      else
        p2.Over? && SansText(out1.end) == SansText(p2.out.end) && !p2.out.end.Suspended?
  }

  lemma RunToolsMatch(c: Config, w: World, direct: World, s1: State, s2: State, turn: nat, acc: Acc)
    requires Steady(w) && Forthright(w, direct) && c.maxToolRepeats <= 0
    requires Alike(s1, s2) && DistinctIDs(acc.toolCalls) && s1.lastStop == acc.stopReason
    ensures TurnMatches(w, direct, turn, RunTools(c, w, s1, turn, acc), RunTools(c, direct, s2, turn, acc))
  {
    ForthrightItself(w, direct);
    if !OverBudget(c, s1.usage) {
      var calls := acc.toolCalls;
      var forced: seq<Option<ToolResult>> := seq(|calls|, _ => None);
      var issued1, issued2 := s1.log + [Issued(turn, calls)], s2.log + [Issued(turn, calls)];
      BatchRightly(c, w, direct, turn, calls, forced, issued1);
      BatchRightly(c, direct, direct, turn, calls, forced, issued2);
      DirectNeverPending(c, direct, turn, calls, forced, issued2);
      var b1 := RunBatch(c, w, turn, calls, forced, issued1);
      if b1.pending != [] {
        assert Trustworthy(w, direct, Checkpoint(s1.conversation, turn, s1.usage, acc.stopReason, calls, b1.results));
      }
    }
  }

  lemma TurnMatch(c: Config, w: World, direct: World, s1: State, s2: State, turn: nat)
    requires Steady(w) && Forthright(w, direct) && c.maxToolRepeats <= 0
    requires Alike(s1, s2)
    ensures TurnMatches(w, direct, turn, Turn(c, w, s1, turn), Turn(c, direct, s2, turn))
  {
    ForthrightItself(w, direct);
    assert Prepare(w, s1, turn) == Prepare(direct, s2, turn) by {
      if w.prepareRequest.Some? {
        assert w.prepareRequest.value(|s1.log|, turn, s1.conversation)
               == w.prepareRequest.value(0, turn, s1.conversation);
        assert w.prepareRequest.value(|s2.log|, turn, s1.conversation)
               == w.prepareRequest.value(0, turn, s1.conversation);
      }
    }
    match Prepare(w, s1, turn)
    case Fail(_) =>
    case Ok(request) =>
      StreamTurnAgree(c, w, direct, turn, 0, s1.conversation, request, s1.log, s2.log);
      match StreamTurn(c, w, turn, 0, s1.conversation, request, s1.log)
      case NotTaken(_) =>
      case Took(acc, log1) =>
        var log2 := StreamTurn(c, direct, turn, 0, s2.conversation, request, s2.log).log;
        if acc.toolCalls != [] {
          RunToolsMatch(c, w, direct, Absorb(s1, turn, acc, log1), Absorb(s2, turn, acc, log2), turn, acc);
        }
  }

  /** How a run ends that is at the end of a turn. */
  function Rest(c: Config, w: World, p: Phase, turn: nat): End {
    match p
    case Over(out) => out.end
    case Ready(st) => Turns(c, w, st, turn + 1).end
  }

  lemma {:induction false} RestMatches(c: Config, w: World, direct: World, p1: Phase, p2: Phase, turn: nat)
    requires Steady(w) && Forthright(w, direct) && c.maxToolRepeats <= 0
    requires turn < c.MaxTurns() && TurnMatches(w, direct, turn, p1, p2)
    ensures var e1, e2 := Rest(c, w, p1, turn), Rest(c, direct, p2, turn);
            !e2.Suspended? && BoundFor(c, w, direct, e1, e2)
    decreases c.MaxTurns() - turn, 0
  {
    match p1
    case Ready(s1) => TurnsMatch(c, w, direct, s1, p2.st, turn + 1);
    case Over(out1) =>
      if out1.end.Suspended? {
        ForthrightItself(w, direct);
        var after := AfterCheckpoint(direct, out1.end.checkpoint);
        TurnsMatch(c, direct, direct, after, p2.st, turn + 1);
        TurnsMatch(c, direct, direct, p2.st, after, turn + 1);
      }
  }

  /** From alike states the two runs come to the same end, or the pausing one stops at
      a trustworthy checkpoint whose true end is the other's end. */
  lemma {:induction false} TurnsMatch(c: Config, w: World, direct: World, s1: State, s2: State, turn: nat)
    requires Steady(w) && Forthright(w, direct) && c.maxToolRepeats <= 0
    requires Alike(s1, s2)
    ensures var e1, e2 := Turns(c, w, s1, turn).end, Turns(c, direct, s2, turn).end;
            !e2.Suspended? && BoundFor(c, w, direct, e1, e2)
    decreases c.MaxTurns() - turn, 1
  {
    if turn < c.MaxTurns() {
      ForthrightItself(w, direct);
      TurnMatch(c, w, direct, s1, s2, turn);
      RestMatches(c, w, direct, Turn(c, w, s1, turn), Turn(c, direct, s2, turn), turn);
    }
  }

  // ---- resuming ----

  lemma ResumedCallRight(w: World, direct: World, n: nat, turn: nat, tc: ToolCall, a: Approval)
    requires Steady(w) && Forthright(w, direct) && MayWait(w, tc)
    requires Says(direct, 0, turn, tc) == Decided(a)
    ensures ExecTool(w.toolbox, n, turn, tc, Some(a)).result == Direct(direct, turn, tc)
    ensures Direct(direct, turn, tc).callID == tc.id
  {
    ForthrightItself(w, direct);
    DirectAnswers(direct, 0, turn, tc);
    DecisionReplacesApprover(w.toolbox, direct.toolbox, n, 0, turn, tc, a);
  }

  lemma StillRightSoFar(w: World, direct: World, turn: nat, calls: seq<ToolCall>, i: nat,
                        byID: map<string, ToolResult>, result: ToolResult)
    requires direct.toolbox.approver.Some?
    requires i < |calls| && DistinctIDs(calls) && RightSoFar(w, direct, turn, calls, byID)
    requires result == Direct(direct, turn, calls[i])
    ensures RightSoFar(w, direct, turn, calls, byID[calls[i].id := result])
  {
    var byID' := byID[calls[i].id := result];
    forall x | x in calls
      ensures if x.id in byID' then byID'[x.id] == Direct(direct, turn, x) else MayWait(w, x)
    {
      var k :| 0 <= k < |calls| && calls[k] == x;
      if k != i {
        assert calls[k].id != calls[i].id;
      }
    }
  }

  lemma {:induction false} DecideCallsRight(w: World, direct: World, cp: Checkpoint, decisions: map<string, Approval>,
                                            i: nat, byID: map<string, ToolResult>, stillPending: bool, log: Log)
    requires Steady(w) && Forthright(w, direct) && DistinctIDs(cp.calls) && Faithful(direct, cp, decisions)
    requires i <= |cp.calls|
    requires RightSoFar(w, direct, cp.turn, cp.calls, byID) && KeyedByID(byID)
    requires forall k :: i <= k < |cp.calls| ==> (cp.calls[k].id in byID <==> cp.calls[k].id in ByID(cp.results))
    requires !stillPending ==> forall k :: 0 <= k < i ==> cp.calls[k].id in byID
    ensures var r := DecideCalls(w, cp.turn, cp.calls, decisions, i, byID, stillPending, log);
            && r.Resumed?
            && RightSoFar(w, direct, cp.turn, cp.calls, r.byID) && KeyedByID(r.byID)
            && (!r.stillPending ==> forall k :: 0 <= k < |cp.calls| ==> cp.calls[k].id in r.byID)
    decreases |cp.calls| - i
  {
    if i < |cp.calls| {
      var tc := cp.calls[i];
      if tc.id in byID {
        DecideCallsRight(w, direct, cp, decisions, i + 1, byID, stillPending, log);
      } else if tc.id !in decisions {
        DecideCallsRight(w, direct, cp, decisions, i + 1, byID, true, log);
      } else {
        var reply := ExecTool(w.toolbox, |log|, cp.turn, tc, Some(decisions[tc.id]));
        ResumedCallRight(w, direct, |log|, cp.turn, tc, decisions[tc.id]);
        var log1 := log + [ToolStep(cp.turn, i, tc, HowOf(reply))];
        var byID' := byID[tc.id := reply.result];
        StillRightSoFar(w, direct, cp.turn, cp.calls, i, byID, reply.result);
        DecideCallsRight(w, direct, cp, decisions, i + 1, byID', stillPending,
                         Send(w, cp.turn, ToolResultEvent(reply.result), log1));
      }
    }
  }

  /** Listing known results in call order and indexing them again loses nothing. */
  lemma {:induction false} OrderedByID(calls: seq<ToolCall>, byID: map<string, ToolResult>)
    requires KeyedByID(byID)
    ensures var again := ByID(InCallOrder(calls, byID));
            && (forall tc :: tc in calls ==> (tc.id in again <==> tc.id in byID))
            && (forall id :: id in again ==> id in byID && again[id] == byID[id])
  {
    if calls != [] {
      var rest, last := calls[..|calls| - 1], calls[|calls| - 1];
      OrderedByID(rest, byID);
      assert calls == rest + [last];
      if last.id in byID {
        ByIDAppend(InCallOrder(rest, byID), byID[last.id]);
      } else {
        assert InCallOrder(calls, byID) == InCallOrder(rest, byID);
      }
    }
  }

  lemma {:induction false} InOrderAt(calls: seq<ToolCall>, byID: map<string, ToolResult>)
    requires forall k :: 0 <= k < |calls| ==> calls[k].id in byID
    ensures |InCallOrder(calls, byID)| == |calls|
    ensures forall k :: 0 <= k < |calls| ==> InCallOrder(calls, byID)[k] == byID[calls[k].id]
    decreases |calls|
  {
    if calls != [] {
      InOrderAt(calls[..|calls| - 1], byID);
    }
  }

  lemma AllInOrder(w: World, direct: World, turn: nat, calls: seq<ToolCall>, byID: map<string, ToolResult>)
    requires direct.toolbox.approver.Some? && RightSoFar(w, direct, turn, calls, byID)
    requires forall k :: 0 <= k < |calls| ==> calls[k].id in byID
    ensures InCallOrder(calls, byID) == DirectResults(direct, turn, calls)
  {
    InOrderAt(calls, byID);
  }

  lemma VisitDecides(w: World, direct: World, cp: Checkpoint, decisions: map<string, Approval>)
    requires Steady(w) && Forthright(w, direct)
    requires Trustworthy(w, direct, cp) && Faithful(direct, cp, decisions)
    ensures var r := DecideCalls(w, cp.turn, cp.calls, decisions, 0, ByID(cp.results), false, []);
            && r.Resumed?
            && RightSoFar(w, direct, cp.turn, cp.calls, r.byID) && KeyedByID(r.byID)
            && (!r.stillPending ==> InCallOrder(cp.calls, r.byID) == DirectResults(direct, cp.turn, cp.calls))
  {
    ByIDKeyed(cp.results);
    DecideCallsRight(w, direct, cp, decisions, 0, ByID(cp.results), false, []);
    var r := DecideCalls(w, cp.turn, cp.calls, decisions, 0, ByID(cp.results), false, []);
    if !r.stillPending {
      AllInOrder(w, direct, cp.turn, cp.calls, r.byID);
    }
  }

  /** One visit to a paused run moves it towards its true end, or all the way. */
  lemma ResumeMatch(c: Config, w: World, direct: World, cp: Checkpoint, decisions: map<string, Approval>)
    requires Steady(w) && Forthright(w, direct) && c.maxToolRepeats <= 0
    requires Trustworthy(w, direct, cp) && Faithful(direct, cp, decisions)
    ensures BoundFor(c, w, direct, Resume(c, w, cp, decisions).end, TrueEnd(c, direct, cp))
  {
    VisitDecides(w, direct, cp, decisions);
    var r := DecideCalls(w, cp.turn, cp.calls, decisions, 0, ByID(cp.results), false, []);
    if r.stillPending {
      StillBound(c, w, direct, cp, r.byID);
    } else {
      var results := InCallOrder(cp.calls, r.byID);
      TurnsMatch(c, w, direct, ResumedState(cp, results, r.log), AfterCheckpoint(direct, cp), cp.turn + 1);
    }
  }

  /** Pausing again keeps the checkpoint trustworthy, and where it leads. */
  lemma StillBound(c: Config, w: World, direct: World, cp: Checkpoint, byID: map<string, ToolResult>)
    requires Steady(w) && Forthright(w, direct) && Trustworthy(w, direct, cp)
    requires RightSoFar(w, direct, cp.turn, cp.calls, byID) && KeyedByID(byID)
    ensures BoundFor(c, w, direct, Suspended(cp.(results := InCallOrder(cp.calls, byID))), TrueEnd(c, direct, cp))
  {
    RightInOrder(w, direct, cp.turn, cp.calls, byID);
    SameCourse(c, direct, cp, InCallOrder(cp.calls, byID));
  }

  lemma RightInOrder(w: World, direct: World, turn: nat, calls: seq<ToolCall>, byID: map<string, ToolResult>)
    requires direct.toolbox.approver.Some? && RightSoFar(w, direct, turn, calls, byID) && KeyedByID(byID)
    ensures RightSoFar(w, direct, turn, calls, ByID(InCallOrder(calls, byID)))
  {
    OrderedByID(calls, byID);
  }

  lemma SameCourse(c: Config, direct: World, cp: Checkpoint, results: seq<ToolResult>)
    requires direct.toolbox.approver.Some?
    ensures TrueEnd(c, direct, cp.(results := results)) == TrueEnd(c, direct, cp)
  {
    assert AfterCheckpoint(direct, cp.(results := results)) == AfterCheckpoint(direct, cp);
  }

  /** Where a run stands after these visits, one after the other, for as long as it is
      paused. */
  function Visited(c: Config, end: End, visits: seq<Visit>): End
    decreases |visits|
  {
    if visits == [] || !end.Suspended? then end
    else Visited(c, Resume(c, visits[0].world, end.checkpoint, visits[0].decisions).end, visits[1..])
  }

  /** Every visit brings decisions of the forthright approver to a world like its own. */
  ghost predicate AllFaithful(c: Config, direct: World, end: End, visits: seq<Visit>)
    requires direct.toolbox.approver.Some?
    decreases |visits|
  {
    visits == [] || !end.Suspended? ||
    (&& Steady(visits[0].world) && Forthright(visits[0].world, direct)
     && Faithful(direct, end.checkpoint, visits[0].decisions)
     && AllFaithful(c, direct, Resume(c, visits[0].world, end.checkpoint, visits[0].decisions).end, visits[1..]))
  }

  /** Worlds that share a forthright one trust the same checkpoints. */
  lemma BoundAlike(c: Config, w1: World, w2: World, direct: World, end: End, goal: End)
    requires Forthright(w1, direct) && Forthright(w2, direct)
    requires BoundFor(c, w1, direct, end, goal)
    ensures BoundFor(c, w2, direct, end, goal)
  {
    forall tc: ToolCall
      ensures MayWait(w1, tc) <==> MayWait(w2, tc)
    {
    }
  }

  lemma {:induction false} VisitsMatch(c: Config, w: World, direct: World, end: End, visits: seq<Visit>, goal: End)
    requires Forthright(w, direct) && c.maxToolRepeats <= 0
    requires AllFaithful(c, direct, end, visits)
    requires BoundFor(c, w, direct, end, goal)
    ensures BoundFor(c, w, direct, Visited(c, end, visits), goal)
    decreases |visits|
  {
    if visits != [] && end.Suspended? {
      var v := visits[0];
      BoundAlike(c, w, v.world, direct, end, goal);
      ResumeMatch(c, v.world, direct, end.checkpoint, v.decisions);
      var next := Resume(c, v.world, end.checkpoint, v.decisions).end;
      BoundAlike(c, v.world, w, direct, next, goal);
      VisitsMatch(c, w, direct, next, visits[1..], goal);
    }
  }

  /** Pausing is unobservable: once no call is left undecided, however many visits it
      took, whatever else their worlds did, and however they split the decisions, the run
      has come to the forthright run's end: same result (messages, stop reason, usage,
      turns) or same error. */
  lemma PausingUnobservable(c: Config, w: World, direct: World, input: seq<Message>, visits: seq<Visit>)
    requires Steady(w) && Forthright(w, direct) && c.maxToolRepeats <= 0
    requires AllFaithful(c, direct, Run(c, w, input).end, visits)
    ensures var e := Visited(c, Run(c, w, input).end, visits);
            !e.Suspended? ==> SansText(e) == SansText(Run(c, direct, input).end)
  {
    var s := State(input, ZERO_USAGE, "", "", "", 0, []);
    TurnsMatch(c, w, direct, s, s, 0);
    VisitsMatch(c, w, direct, Run(c, w, input).end, visits, Run(c, direct, input).end);
  }

  // ---- the final text ----

  lemma {:induction false} LastTextConcat(a: seq<Message>, b: seq<Message>)
    ensures LastAssistantText(a + b) == if LastAssistantText(b) != "" then LastAssistantText(b)
            else LastAssistantText(a)
    decreases |b|
  {
    if b == [] {
      assert a + b == a;
    } else {
      assert (a + b)[..|a + b| - 1] == a + b[..|b| - 1];
      LastTextConcat(a, b[..|b| - 1]);
    }
  }

  lemma {:induction false} ToolMessagesSilent(results: seq<ToolResult>)
    ensures LastAssistantText(ToolResultMessages(results)) == ""
    decreases |results|
  {
    if results != [] {
      var msgs := ToolResultMessages(results);
      assert msgs[..|msgs| - 1] == ToolResultMessages(results[..|results| - 1]);
      ToolMessagesSilent(results[..|results| - 1]);
    }
  }

  /** The text on record is the last assistant text from message `n` on. */
  ghost predicate TextFrom(st: State, n: nat) {
    n <= |st.conversation| && st.lastText == LastAssistantText(st.conversation[n..])
  }

  lemma AbsorbText(st: State, turn: nat, acc: Acc, log: Log, n: nat)
    requires TextFrom(st, n) && TextOf(Content(acc)) == AccText(acc)
    ensures var st' := Absorb(st, turn, acc, log);
            TextFrom(st', n) && st.conversation <= st'.conversation
  {
    var st' := Absorb(st, turn, acc, log);
    if Content(acc) != [] {
      var m := Message(RoleAssistant, Content(acc));
      assert st'.conversation[n..] == st.conversation[n..] + [m];
      LastTextConcat(st.conversation[n..], [m]);
      assert [m][..0] == [];
    }
  }

  lemma {:induction false} ConsumeText(w: World, turn: nat, events: seq<Event>, acc: Acc, log: Log)
    requires Sound(acc)
    ensures var r := Consume(w, turn, events, acc, log);
            r.Complete? ==> TextOf(Content(r.acc)) == AccText(r.acc)
    decreases |events|
  {
    FlushSound(acc, "");
    if events != [] && !events[0].ErrorEvent? {
      TakeSound(acc, events[0]);
      ConsumeText(w, turn, events[1..], Take(acc, events[0]), Send(w, turn, events[0], log));
    }
  }

  /** The text counted as the turn's is the text of its message. */
  ghost predicate HasText(r: TurnReply) {
    match r
    case Took(acc, _) => TextOf(Content(acc)) == AccText(acc)
    case NotTaken(out) => !out.end.Finished?
  }

  lemma {:induction false} StreamTurnText(c: Config, w: World, turn: nat, attempt: nat, conversation: seq<Message>,
                                         request: seq<Message>, log: Log)
    ensures HasText(StreamTurn(c, w, turn, attempt, conversation, request, log))
    decreases c.Retries() - attempt, 1
  {
    var asked := log + [Ask(turn, attempt, conversation, request)];
    match w.stream(|log|, turn, attempt, request)
    case Refused(err) =>
      RetryText(c, w, turn, attempt, conversation, request, err, ErrorEvent(Some(err), ""), asked);
    case Streaming(events) =>
      ConsumeText(w, turn, events, EMPTY_ACC, asked);
      match Consume(w, turn, events, EMPTY_ACC, asked)
      case StreamError(ev, log') =>
        RetryText(c, w, turn, attempt, conversation, request, ErrorOf(ev), ev, log');
      case _ =>
  }

  lemma {:induction false} RetryText(c: Config, w: World, turn: nat, attempt: nat, conversation: seq<Message>,
                                    request: seq<Message>, err: Err, last: Event, log: Log)
    ensures HasText(Retry(c, w, turn, attempt, conversation, request, err, last, log))
    decreases c.Retries() - attempt, 0
  {
    if attempt < c.Retries() && Retryable(err) && w.ctxErr(|log|).None? {
      StreamTurnText(c, w, turn, attempt + 1, conversation, request, log);
    }
  }

  /** The messages a turn that goes on adds behind its own are tool results. */
  lemma TurnAddsResults(c: Config, w: World, st: State, turn: nat, request: seq<Message>, acc: Acc, log: Log)
      returns (results: seq<ToolResult>)
    requires w.compactor.None?
    requires StreamTurn(c, w, turn, 0, st.conversation, request, st.log) == Took(acc, log)
    requires AskAndAct(c, w, st, turn, request).Ready?
    ensures var st', mid := AskAndAct(c, w, st, turn, request).st, Absorb(st, turn, acc, log);
            st'.conversation == mid.conversation + ToolResultMessages(results) && st'.lastText == mid.lastText
  {
    var mid := Absorb(st, turn, acc, log);
    var calls := acc.toolCalls;
    results := RunBatch(c, w, turn, calls, RunGuard(c, mid, calls).forced, mid.log + [Issued(turn, calls)]).results;
  }

  lemma ResultsKeepText(st: State, st': State, results: seq<ToolResult>, n: nat)
    requires TextFrom(st, n)
    requires st'.conversation == st.conversation + ToolResultMessages(results) && st'.lastText == st.lastText
    ensures TextFrom(st', n)
  {
    assert st'.conversation[n..] == st.conversation[n..] + ToolResultMessages(results);
    LastTextConcat(st.conversation[n..], ToolResultMessages(results));
    ToolMessagesSilent(results);
  }

  lemma RunToolsNeverFinishes(c: Config, w: World, st: State, turn: nat, acc: Acc)
    ensures var p := RunTools(c, w, st, turn, acc);
            p.Over? ==> !p.out.end.Finished?
  {
  }

  lemma {:induction false} TurnsText(c: Config, w: World, st: State, turn: nat, n: nat)
    requires w.compactor.None? && TextFrom(st, n)
    ensures var e := Turns(c, w, st, turn).end;
            e.Finished? ==>
              && st.conversation <= e.result.messages
              && e.result.text == LastAssistantText(e.result.messages[n..])
    decreases c.MaxTurns() - turn
  {
    if turn < c.MaxTurns() && Prepare(w, st, turn).Ok? {
      var request := Prepare(w, st, turn).value;
      StreamTurnText(c, w, turn, 0, st.conversation, request, st.log);
      match StreamTurn(c, w, turn, 0, st.conversation, request, st.log)
      case NotTaken(_) =>
      case Took(acc, log) =>
        AbsorbText(st, turn, acc, log, n);
        var mid := Absorb(st, turn, acc, log);
        RunToolsNeverFinishes(c, w, mid, turn, acc);
        match AskAndAct(c, w, st, turn, request)
        case Over(_) =>
        case Ready(st') =>
          var results := TurnAddsResults(c, w, st, turn, request, acc, log);
          ResultsKeepText(mid, st', results, n);
          TurnsText(c, w, st', turn + 1, n);
    }
  }

  lemma RunText(c: Config, w: World, input: seq<Message>, st: State, turn: nat)
    requires w.compactor.None?
    requires st.conversation == input && st.lastText == ""
    ensures var e := Turns(c, w, st, turn).end;
            e.Finished? ==>
              && input <= e.result.messages
              && e.result.text == LastAssistantText(e.result.messages[|input|..])
  {
    assert input[|input|..] == [];
    TurnsText(c, w, st, turn, |input|);
  }

  lemma TextsCompare(input: seq<Message>, all: seq<Message>, t1: string, t2: string)
    requires input <= all
    requires t1 == LastAssistantText(all) && t2 == LastAssistantText(all[|input|..])
    ensures t1 == t2 <==> t2 != "" || LastAssistantText(input) == ""
  {
    assert all == input + all[|input|..];
    LastTextConcat(input, all[|input|..]);
  }

  lemma ResumeText(c: Config, w: World, cp: Checkpoint, decisions: map<string, Approval>)
    requires w.compactor.None?
    ensures var e := Resume(c, w, cp, decisions).end;
            e.Finished? ==> e.result.text == LastAssistantText(e.result.messages)
  {
    match DecideCalls(w, cp.turn, cp.calls, decisions, 0, ByID(cp.results), false, [])
    case ResumeCut(_) =>
    case Resumed(byID, stillPending, log) =>
      ContinuedText(c, w, cp, InCallOrder(cp.calls, byID), log);
  }

  lemma ContinuedText(c: Config, w: World, cp: Checkpoint, results: seq<ToolResult>, log: Log)
    requires w.compactor.None?
    ensures var e := Turns(c, w, ResumedState(cp, results, log), cp.turn + 1).end;
            e.Finished? ==> e.result.text == LastAssistantText(e.result.messages)
  {
    var st := ResumedState(cp, results, log);
    LastTextConcat(cp.messages, ToolResultMessages(results));
    ToolMessagesSilent(results);
    assert st.conversation[0..] == st.conversation;
    TurnsText(c, w, st, cp.turn + 1, 0);
    assert forall msgs: seq<Message> :: msgs[0..] == msgs;
  }

  lemma {:induction false} VisitedText(c: Config, direct: World, end: End, visits: seq<Visit>)
    requires direct.toolbox.approver.Some? && AllFaithful(c, direct, end, visits) && end.Suspended?
    ensures var e := Visited(c, end, visits);
            e.Finished? ==> e.result.text == LastAssistantText(e.result.messages)
    decreases |visits|
  {
    if visits != [] {
      var v := visits[0];
      ResumeText(c, v.world, end.checkpoint, v.decisions);
      var next := Resume(c, v.world, end.checkpoint, v.decisions).end;
      if next.Suspended? {
        VisitedText(c, direct, next, visits[1..]);
      }
    }
  }

  /** The one thing a pause can change is the final text, and exactly when: a run
      reports the last text its own turns produced, a resumed run also looks through
      the input. So after at least one pause the texts agree unless the run produced
      none and the input has some. */
  lemma FinalTextAfterPauses(c: Config, w: World, direct: World, input: seq<Message>, visits: seq<Visit>)
    requires Steady(w) && Forthright(w, direct) && c.maxToolRepeats <= 0
    requires AllFaithful(c, direct, Run(c, w, input).end, visits)
    requires Run(c, w, input).end.Suspended? && Visited(c, Run(c, w, input).end, visits).Finished?
    ensures var e1, e2 := Visited(c, Run(c, w, input).end, visits), Run(c, direct, input).end;
            && e2.Finished?
            && input <= e2.result.messages
            && (e1.result.text == e2.result.text <==>
                  LastAssistantText(e2.result.messages[|input|..]) != "" || LastAssistantText(input) == "")
  {
    PausingUnobservable(c, w, direct, input, visits);
    VisitedText(c, direct, Run(c, w, input).end, visits);
    RunText(c, direct, input, State(input, ZERO_USAGE, "", "", "", 0, []), 0);
    var e1, e2 := Visited(c, Run(c, w, input).end, visits), Run(c, direct, input).end;
    TextsCompare(input, e2.result.messages, e1.result.text, e2.result.text);
  }
}

/** What the loop may rely on of a tool batch, whichever way it is run: what it adds to
    the log, and what its results stand for. */
module Batches {
  import opened Gage
  import opened ToolCalls
  import opened RunLog
  import opened Goroutines
  import opened AgentLoop
  import opened ParallelBatch

  function BatchOf(c: Config, w: World, turn: nat, calls: seq<ToolCall>, forced: seq<Option<ToolResult>>): Batch {
    Batch(w.toolbox, w.delivers, turn, calls, forced, if c.maxParallelTools > 1 then c.maxParallelTools else 1)
  }

  /** Call `k` came to `r`: the forced result, or what executing it gave at the moment at
      which the log has its tool step. */
  ghost predicate CameTo(b: Batch, before: Log, after: Log, k: nat, r: Reply)
    requires k < |b.calls| == |b.forced|
  {
    if b.forced[k].Some? then r == Answered(b.forced[k].value, None)
    else exists p: nat :: |before| <= p < |after| && WorkedAt(b, after, p, k, r)
  }

  ghost predicate WorkedAt(b: Batch, log: Log, p: nat, k: nat, r: Reply)
    requires k < |b.calls| && p < |log|
  {
    log[p].ToolStep? && log[p].index == k && r == ExecTool(b.toolbox, p, b.turn, b.calls[k], None)
  }

  /** So it is what executing it gives at some moment. */
  ghost predicate CouldComeTo(b: Batch, k: nat, r: Reply)
    requires k < |b.calls| == |b.forced|
  {
    if b.forced[k].Some? then r == Answered(b.forced[k].value, None)
    else exists n: nat :: r == ExecTool(b.toolbox, n, b.turn, b.calls[k], None)
  }

  lemma CameIsCould(b: Batch, before: Log, after: Log, k: nat, r: Reply)
    requires k < |b.calls| == |b.forced| && CameTo(b, before, after, k, r)
    ensures CouldComeTo(b, k, r)
  {
    if b.forced[k].None? {
      var p: nat :| |before| <= p < |after| && WorkedAt(b, after, p, k, r);
      assert r == ExecTool(b.toolbox, p, b.turn, b.calls[k], None);
    }
  }

  /** A step of a batch, taken at moment `p`: a tool result offered to the consumer, or
      work on one of the calls not forced, with the outcome it had at that moment. */
  ghost predicate BatchStep(b: Batch, s: Step, p: nat)
    requires |b.forced| == |b.calls|
  {
    if IsDelivery(s) then s.turn == b.turn && s.event.ToolResultEvent? && (s.Sent? <==> b.delivers(p))
    else
      && s.ToolStep? && s.turn == b.turn && s.index < |b.calls| && s.call == b.calls[s.index]
      && b.forced[s.index].None?
      && s.how == HowOf(ExecTool(b.toolbox, p, b.turn, s.call, None))
  }

  /** `after` is `before` with more steps of the batch, no call worked on twice. */
  ghost predicate BatchLog(b: Batch, before: Log, after: Log)
    requires |b.forced| == |b.calls|
  {
    && before <= after
    && (forall p: nat :: |before| <= p < |after| ==> BatchStep(b, after[p], p))
    && (forall p: nat, q: nat :: |before| <= p < q < |after| && after[p].ToolStep? && after[q].ToolStep? ==>
          after[p].index != after[q].index)
  }

  ghost predicate HandedOver(before: Log, after: Log, turn: nat, result: ToolResult) {
    exists q: nat :: |before| <= q < |after| && after[q] == Sent(turn, ToolResultEvent(result))
  }

  ghost predicate SomeLost(before: Log, after: Log) {
    exists q: nat :: |before| <= q < |after| && after[q].Lost?
  }

  /** Every outcome is its call's, and every answer went out. */
  ghost predicate Settled(b: Batch, before: Log, after: Log, outcomes: seq<Reply>)
    requires |outcomes| <= |b.calls| == |b.forced|
  {
    forall k: nat :: k < |outcomes| ==>
      && CameTo(b, before, after, k, outcomes[k])
      && (outcomes[k].Answered? ==> HandedOver(before, after, b.turn, outcomes[k].result))
  }

  /** A batch that was not cut short has the answers and the postponed calls in call
      order; one that was has lost a delivery or its context. */
  ghost predicate BatchRight(w: World, b: Batch, before: Log, r: BatchReply, outcomes: seq<Reply>)
    requires |b.forced| == |b.calls|
  {
    && BatchLog(b, before, r.log)
    && match r
       case BatchDone(results, pending, log) =>
         && |outcomes| == |b.calls|
         && Settled(b, before, log, outcomes)
         && results == ResultsOf(outcomes) && pending == PendingOf(b.calls, outcomes)
       case BatchCut(log) => w.ctxErr(|log|).Some? || SomeLost(before, log)
  }

  // ---- growing logs ----

  lemma OneMore(b: Batch, before: Log, after: Log, s: Step)
    requires |b.forced| == |b.calls| && BatchLog(b, before, after) && BatchStep(b, s, |after|)
    requires s.ToolStep? ==> forall p: nat :: |before| <= p < |after| && after[p].ToolStep? ==>
             after[p].index != s.index
    ensures BatchLog(b, before, after + [s])
  {
  }

  lemma StillHanded(before: Log, after: Log, later: Log, turn: nat, result: ToolResult)
    requires HandedOver(before, after, turn, result) && after <= later
    ensures HandedOver(before, later, turn, result)
  {
    var q: nat :| |before| <= q < |after| && after[q] == Sent(turn, ToolResultEvent(result));
    assert later[q] == after[q];
  }

  lemma StillCame(b: Batch, before: Log, after: Log, later: Log, k: nat, r: Reply)
    requires k < |b.calls| == |b.forced| && CameTo(b, before, after, k, r) && after <= later
    ensures CameTo(b, before, later, k, r)
  {
    if b.forced[k].None? {
      var p: nat :| |before| <= p < |after| && WorkedAt(b, after, p, k, r);
      assert later[p] == after[p] && WorkedAt(b, later, p, k, r);
    }
  }

  /** A call that is worked on now comes to what it does now. */
  lemma CameNow(b: Batch, before: Log, log: Log, i: nat)
    requires i < |b.calls| == |b.forced| && |before| <= |log|
    ensures CameTo(b, before, Worked(b, log, i), i, Goroutines.Outcome(b, log, i))
  {
    if b.forced[i].None? {
      assert WorkedAt(b, Worked(b, log, i), |log|, i, Goroutines.Outcome(b, log, i));
    }
  }

  lemma StillSettled(b: Batch, before: Log, after: Log, later: Log, outcomes: seq<Reply>)
    requires |outcomes| <= |b.calls| == |b.forced|
    requires Settled(b, before, after, outcomes) && after <= later
    ensures Settled(b, before, later, outcomes)
  {
    forall k: nat | k < |outcomes|
      ensures CameTo(b, before, later, k, outcomes[k])
      ensures outcomes[k].Answered? ==> HandedOver(before, later, b.turn, outcomes[k].result)
    {
      StillCame(b, before, after, later, k, outcomes[k]);
      if outcomes[k].Answered? {
        StillHanded(before, after, later, b.turn, outcomes[k].result);
      }
    }
  }

  // ---- one call after the other ----

  ghost predicate AllBelow(before: Log, after: Log, i: nat) {
    forall p: nat :: |before| <= p < |after| && after[p].ToolStep? ==> after[p].index < i
  }

  lemma {:induction false} SequentialFacts(w: World, b: Batch, start: Log, i: nat, results: seq<ToolResult>,
                                           pending: seq<ToolCall>, log: Log, before: seq<Reply>)
      returns (outcomes: seq<Reply>)
    requires b.toolbox == w.toolbox && b.delivers == w.delivers
    requires |b.forced| == |b.calls| && i == |before| <= |b.calls|
    requires results == ResultsOf(before) && pending == PendingOf(b.calls[..i], before)
    requires BatchLog(b, start, log) && AllBelow(start, log, i) && Settled(b, start, log, before)
    ensures BatchRight(w, b, start, ExecTools(w, b.turn, b.calls, b.forced, i, results, pending, log), outcomes)
    decreases |b.calls| - i
  {
    outcomes := before;
    if i == |b.calls| {
      assert b.calls[..i] == b.calls;
    } else if w.ctxErr(|log|).None? {
      var reply := Goroutines.Outcome(b, log, i);
      var log1 := Worked(b, log, i);
      WorkedMore(b, start, log, i, before);
      GathersNext(b.calls, i, before, reply);
      if reply.Deferred? {
        outcomes := SequentialFacts(w, b, start, i + 1, results, pending + [b.calls[i]], log1, before + [reply]);
      } else {
        var log2 := Offered(b, log1, reply.result);
        OfferedMore(b, start, log1, i, before, reply);
        if w.delivers(|log1|) {
          outcomes := SequentialFacts(w, b, start, i + 1, results + [reply.result], pending, log2, before + [reply]);
        } else {
          assert log2[|log1|].Lost?;
        }
      }
    }
  }

  /** Working on call `i`. */
  lemma WorkedMore(b: Batch, start: Log, log: Log, i: nat, before: seq<Reply>)
    requires i == |before| < |b.calls| == |b.forced|
    requires BatchLog(b, start, log) && AllBelow(start, log, i) && Settled(b, start, log, before)
    ensures var log1, reply := Worked(b, log, i), Goroutines.Outcome(b, log, i);
            && BatchLog(b, start, log1) && AllBelow(start, log1, i + 1) && Settled(b, start, log1, before)
            && CameTo(b, start, log1, i, reply)
            && (reply.Deferred? ==> Settled(b, start, log1, before + [reply]))
  {
    var log1, reply := Worked(b, log, i), Goroutines.Outcome(b, log, i);
    if b.forced[i].None? {
      OneMore(b, start, log, ToolStep(b.turn, i, b.calls[i], HowOf(reply)));
    }
    CameNow(b, start, log, i);
    StillSettled(b, start, log, log1, before);
  }

  /** Offering its answer. */
  lemma OfferedMore(b: Batch, start: Log, log: Log, i: nat, before: seq<Reply>, reply: Reply)
    requires i == |before| < |b.calls| == |b.forced|
    requires BatchLog(b, start, log) && AllBelow(start, log, i + 1) && Settled(b, start, log, before)
    requires CameTo(b, start, log, i, reply) && reply.Answered?
    ensures var log' := Offered(b, log, reply.result);
            && BatchLog(b, start, log') && AllBelow(start, log', i + 1)
            && (b.delivers(|log|) ==> Settled(b, start, log', before + [reply]))
  {
    var log' := Offered(b, log, reply.result);
    OneMore(b, start, log, log'[|log|]);
    StillSettled(b, start, log, log', before);
    StillCame(b, start, log, log', i, reply);
    if b.delivers(|log|) {
      assert log'[|log|] == Sent(b.turn, ToolResultEvent(reply.result));
      assert HandedOver(start, log', b.turn, reply.result);
    }
  }

  lemma GathersNext(calls: seq<ToolCall>, i: nat, before: seq<Reply>, reply: Reply)
    requires i == |before| < |calls|
    ensures ResultsOf(before + [reply]) == ResultsOf(before) + if reply.Answered? then [reply.result] else []
    ensures PendingOf(calls[..i + 1], before + [reply])
         == PendingOf(calls[..i], before) + if reply.Deferred? then [calls[i]] else []
  {
    assert (before + [reply])[..i] == before && calls[..i + 1][..i] == calls[..i];
  }

  // ---- all at once ----

  /** What the pool has recorded is in the log. */
  ghost predicate Logged(b: Batch, start: Log, s: Pool)
    requires Shaped(b, s)
  {
    && BatchLog(b, start, s.log)
    && (forall p: nat :: |start| <= p < |s.log| && s.log[p].ToolStep? ==> s.outcomes[s.log[p].index].Some?)
    && (forall k: nat :: k < |b.calls| && s.outcomes[k].Some? ==>
          CameTo(b, start, s.log, k, s.outcomes[k].value))
    && (forall k: nat :: k < |b.calls| && k in s.emitted && s.slots[k].Some? ==>
          HandedOver(start, s.log, b.turn, s.slots[k].value))
    && (s.cancelled ==> SomeLost(start, s.log))
  }

  lemma AdvanceLogged(b: Batch, start: Log, s: Pool, i: nat)
    requires Shaped(b, s) && Enabled(b, s, i) && Consistent(s, i) && Logged(b, start, s)
    ensures Shaped(b, Advance(b, s, i)) && Logged(b, start, Advance(b, s, i))
  {
    match s.pcs[i]
    case Holding => HoldingLogged(b, start, s, i);
    case Sending => SendingLogged(b, start, s, i);
    case _ =>
  }

  lemma AllStillCame(b: Batch, start: Log, s: Pool, later: Log)
    requires Shaped(b, s) && Logged(b, start, s) && s.log <= later
    ensures forall k: nat :: k < |b.calls| && s.outcomes[k].Some? ==> CameTo(b, start, later, k, s.outcomes[k].value)
  {
    forall k: nat | k < |b.calls| && s.outcomes[k].Some?
      ensures CameTo(b, start, later, k, s.outcomes[k].value)
    {
      StillCame(b, start, s.log, later, k, s.outcomes[k].value);
    }
  }

  lemma HoldingLogged(b: Batch, start: Log, s: Pool, i: nat)
    requires Shaped(b, s) && Enabled(b, s, i) && Consistent(s, i) && Logged(b, start, s) && s.pcs[i].Holding?
    ensures Shaped(b, Advance(b, s, i)) && Logged(b, start, Advance(b, s, i))
  {
    var s', reply := Advance(b, s, i), Goroutines.Outcome(b, s.log, i);
    if b.forced[i].None? {
      OneMore(b, start, s.log, ToolStep(b.turn, i, b.calls[i], HowOf(reply)));
    }
    AllStillCame(b, start, s, s'.log);
    CameNow(b, start, s.log, i);
    HoldingHandsNothing(b, start, s, i);
    StillLost(start, s.log, s'.log);
  }

  lemma HoldingHandsNothing(b: Batch, start: Log, s: Pool, i: nat)
    requires Shaped(b, s) && Enabled(b, s, i) && Consistent(s, i) && Logged(b, start, s) && s.pcs[i].Holding?
    ensures var s' := Advance(b, s, i);
            forall k: nat :: k < |b.calls| && k in s'.emitted && s'.slots[k].Some? ==>
              HandedOver(start, s'.log, b.turn, s'.slots[k].value)
  {
    var s' := Advance(b, s, i);
    forall k: nat | k < |b.calls| && k in s'.emitted && s'.slots[k].Some?
      ensures HandedOver(start, s'.log, b.turn, s'.slots[k].value)
    {
      StillHanded(start, s.log, s'.log, b.turn, s.slots[k].value);
    }
  }

  lemma SendingLogged(b: Batch, start: Log, s: Pool, i: nat)
    requires Shaped(b, s) && Enabled(b, s, i) && Consistent(s, i) && Logged(b, start, s) && s.pcs[i].Sending?
    ensures Shaped(b, Advance(b, s, i)) && Logged(b, start, Advance(b, s, i))
  {
    var s' := Advance(b, s, i);
    var at := s'.log[|s.log|];
    assert s'.log == s.log + [at];
    OneMore(b, start, s.log, at);
    AllStillCame(b, start, s, s'.log);
    forall k: nat | k < |b.calls| && k in s'.emitted && s'.slots[k].Some?
      ensures HandedOver(start, s'.log, b.turn, s'.slots[k].value)
    {
      if k in s.emitted {
        StillHanded(start, s.log, s'.log, b.turn, s.slots[k].value);
      } else {
        assert k == i && at == Sent(b.turn, ToolResultEvent(s.slots[i].value));
      }
    }
    StillLost(start, s.log, s'.log);
    assert !b.delivers(|s.log|) ==> s'.log[|s.log|].Lost?;
  }

  lemma StillLost(start: Log, log: Log, later: Log)
    requires log <= later
    ensures SomeLost(start, log) ==> SomeLost(start, later)
  {
    if q: nat :| |start| <= q < |log| && log[q].Lost? {
      assert later[q].Lost?;
    }
  }

  lemma {:induction false} ConcurrentlyLogged(b: Batch, start: Log, s: Pool, scheduler: Pool -> nat)
    requires Inv(b, s) && Logged(b, start, s)
    ensures Logged(b, start, Concurrently(b, s, scheduler))
    decreases Sum(s.pcs, Rank())
  {
    var i := Chosen(b, s, scheduler);
    if Enabled(b, s, i) {
      assert Consistent(s, i);
      AdvanceInv(b, s, i);
      AdvanceLogged(b, start, s, i);
      ConcurrentlyLogged(b, start, Advance(b, s, i), scheduler);
    }
  }

  lemma ParallelFacts(c: Config, w: World, turn: nat, calls: seq<ToolCall>, forced: seq<Option<ToolResult>>, log: Log)
      returns (outcomes: seq<Reply>)
    requires |forced| == |calls| && c.maxParallelTools > 1
    ensures BatchRight(w, BatchOf(c, w, turn, calls, forced), log, ExecParallel(c, w, turn, calls, forced, log),
                       outcomes)
  {
    var b := BatchOf(c, w, turn, calls, forced);
    InitialInv(b, log);
    AllFinish(b, Initial(b, log), w.scheduler);
    ConcurrentlyLogged(b, log, Initial(b, log), w.scheduler);
    var s := Concurrently(b, Initial(b, log), w.scheduler);
    Gathered(b, s);
    outcomes := Replies(s.outcomes);
    if !s.cancelled {
      AnsweredEmitted(b, s);
      forall k: nat | k < |outcomes|
        ensures CameTo(b, log, s.log, k, outcomes[k])
        ensures outcomes[k].Answered? ==> HandedOver(log, s.log, turn, outcomes[k].result)
      {
        assert Consistent(s, k);
      }
    }
  }

  /** Whichever way it is run. */
  lemma BatchFacts(c: Config, w: World, turn: nat, calls: seq<ToolCall>, forced: seq<Option<ToolResult>>, log: Log)
      returns (outcomes: seq<Reply>)
    requires |forced| == |calls|
    ensures BatchRight(w, BatchOf(c, w, turn, calls, forced), log, RunBatch(c, w, turn, calls, forced, log), outcomes)
  {
    if c.maxParallelTools <= 1 || |calls| == 1 {
      outcomes := SequentialFacts(w, BatchOf(c, w, turn, calls, forced), log, 0, [], [], log, []);
    } else {
      outcomes := ParallelFacts(c, w, turn, calls, forced, log);
    }
  }

  // ---- reading the outcomes ----

  lemma NoneLost(b: Batch, before: Log, after: Log)
    requires |b.forced| == |b.calls| && BatchLog(b, before, after) && forall n: nat :: b.delivers(n)
    ensures !SomeLost(before, after)
  {
    forall q: nat | |before| <= q < |after|
      ensures !after[q].Lost?
    {
      assert BatchStep(b, after[q], q);
    }
  }

  /** Where nothing can be cancelled or lost no batch is cut short. */
  lemma UncutIsDone(c: Config, w: World, turn: nat, calls: seq<ToolCall>, forced: seq<Option<ToolResult>>, log: Log)
    requires |forced| == |calls|
    requires (forall n: nat :: w.delivers(n)) && (forall n: nat :: w.ctxErr(n).None?)
    ensures RunBatch(c, w, turn, calls, forced, log).BatchDone?
  {
    var _ := BatchFacts(c, w, turn, calls, forced, log);
    var r := RunBatch(c, w, turn, calls, forced, log);
    NoneLost(BatchOf(c, w, turn, calls, forced), log, r.log);
  }

  /** Nothing is pending exactly when every call is answered, and then the results are
      the answers, place by place. */
  lemma {:induction false} NonePending(calls: seq<ToolCall>, outcomes: seq<Reply>)
    requires |calls| == |outcomes|
    ensures PendingOf(calls, outcomes) == [] <==> forall k :: 0 <= k < |outcomes| ==> outcomes[k].Answered?
    ensures PendingOf(calls, outcomes) == [] ==>
              && |ResultsOf(outcomes)| == |outcomes|
              && forall k :: 0 <= k < |outcomes| ==>
                outcomes[k].Answered? && ResultsOf(outcomes)[k] == outcomes[k].result
    decreases |calls|
  {
    if calls != [] {
      var n := |calls| - 1;
      NonePending(calls[..n], outcomes[..n]);
      assert forall k :: 0 <= k < n ==> outcomes[..n][k] == outcomes[k];
    }
  }

  /** What is asked of a batch to come to the same however and whenever it is run: tools,
      hooks and approver answer alike at any moment. */
  ghost predicate AnswersAlike(t: Toolbox, turn: nat) {
    && Timeless(t) && HookTimeless(t)
    && (t.approver.Some? ==> forall n: nat, tc: ToolCall ::
          t.approver.value(n, turn, tc) == t.approver.value(0, turn, tc))
  }

  /** Any two runs of a batch over the same tools that are not cut short have the same
      results and pending calls, in the same order: whatever the limits on parallelism,
      the schedules, the moments, and whatever else happens in the two worlds. */
  lemma AnyTwoBatchesAgree(c1: Config, w1: World, log1: Log, c2: Config, w2: World, log2: Log, turn: nat,
                           calls: seq<ToolCall>, forced: seq<Option<ToolResult>>)
    requires |forced| == |calls| && w1.toolbox == w2.toolbox && AnswersAlike(w1.toolbox, turn)
    requires RunBatch(c1, w1, turn, calls, forced, log1).BatchDone?
    requires RunBatch(c2, w2, turn, calls, forced, log2).BatchDone?
    ensures var r1, r2 := RunBatch(c1, w1, turn, calls, forced, log1), RunBatch(c2, w2, turn, calls, forced, log2);
            r1.results == r2.results && r1.pending == r2.pending
  {
    var o1 := BatchFacts(c1, w1, turn, calls, forced, log1);
    var o2 := BatchFacts(c2, w2, turn, calls, forced, log2);
    forall k: nat | k < |calls|
      ensures o1[k] == o2[k]
    {
      var b1, b2 := BatchOf(c1, w1, turn, calls, forced), BatchOf(c2, w2, turn, calls, forced);
      CameIsCould(b1, log1, RunBatch(c1, w1, turn, calls, forced, log1).log, k, o1[k]);
      CameIsCould(b2, log2, RunBatch(c2, w2, turn, calls, forced, log2).log, k, o2[k]);
      SameOutcome(b1, b2, k, o1[k], o2[k]);
    }
    assert o1 == o2;
  }

  /** The concurrent batch refines the sequential one. */
  lemma ParallelRefinesSequential(c: Config, w: World, turn: nat, calls: seq<ToolCall>, forced: seq<Option<ToolResult>>,
                                  log1: Log, log2: Log)
    requires |forced| == |calls| && AnswersAlike(w.toolbox, turn)
    requires RunBatch(c, w, turn, calls, forced, log1).BatchDone?
    requires ExecTools(w, turn, calls, forced, 0, [], [], log2).BatchDone?
    ensures var r1 := RunBatch(c, w, turn, calls, forced, log1);
            var r2 := ExecTools(w, turn, calls, forced, 0, [], [], log2);
            r1.results == r2.results && r1.pending == r2.pending
  {
    AnyTwoBatchesAgree(c, w, log1, c.(maxParallelTools := 1), w, log2, turn, calls, forced);
  }

  lemma SameOutcome(b1: Batch, b2: Batch, k: nat, r1: Reply, r2: Reply)
    requires b2 == b1.(capacity := b2.capacity, delivers := b2.delivers) && k < |b1.calls| == |b1.forced|
    requires AnswersAlike(b1.toolbox, b1.turn)
    requires CouldComeTo(b1, k, r1) && CouldComeTo(b2, k, r2)
    ensures r1 == r2
  {
    if b1.forced[k].None? {
      var n1: nat :| r1 == ExecTool(b1.toolbox, n1, b1.turn, b1.calls[k], None);
      var n2: nat :| r2 == ExecTool(b1.toolbox, n2, b1.turn, b1.calls[k], None);
      ApproverAlike(b1.toolbox, n1, n2, b1.turn, Shown(b1.toolbox, 0, b1.calls[k], None));
      ExecToolTimeless(b1.toolbox, b1.toolbox, n1, n2, b1.turn, b1.calls[k]);
    }
  }

  lemma ApproverAlike(t: Toolbox, n1: nat, n2: nat, turn: nat, shown: Option<ToolCall>)
    requires AnswersAlike(t, turn)
    ensures t.approver.Some? && shown.Some? ==>
              t.approver.value(n1, turn, shown.value) == t.approver.value(n2, turn, shown.value)
  {
    if t.approver.Some? && shown.Some? {
      assert t.approver.value(n1, turn, shown.value) == t.approver.value(0, turn, shown.value);
      assert t.approver.value(n2, turn, shown.value) == t.approver.value(0, turn, shown.value);
    }
  }

  // ---- what the consumer gets ----

  /** The results handed over since `before`, in the order they went out. */
  function SentResults(before: Log, after: Log): seq<ToolResult>
    decreases |after|
  {
    if |after| <= |before| then []
    else
      var last := after[|after| - 1];
      SentResults(before, after[..|after| - 1]) +
      if last.Sent? && last.event.ToolResultEvent? then [last.event.result] else []
  }

  lemma SentMore(before: Log, after: Log, s: Step)
    requires |before| <= |after|
    ensures SentResults(before, after + [s])
         == SentResults(before, after) + if s.Sent? && s.event.ToolResultEvent? then [s.event.result] else []
  {
    assert (after + [s])[..|after|] == after;
  }

  /** What is in the slots of the goroutines that delivered, in that order. */
  function Picked(slots: seq<Option<ToolResult>>, emitted: seq<nat>): seq<ToolResult> {
    if emitted == [] then []
    else
      var i := emitted[|emitted| - 1];
      Picked(slots, emitted[..|emitted| - 1]) + if i < |slots| && slots[i].Some? then [slots[i].value] else []
  }

  lemma {:induction false} PickedStill(slots: seq<Option<ToolResult>>, emitted: seq<nat>, i: nat, r: Option<ToolResult>)
    requires i < |slots| && i !in emitted
    ensures Picked(slots[i := r], emitted) == Picked(slots, emitted)
    decreases |emitted|
  {
    if emitted != [] {
      PickedStill(slots, emitted[..|emitted| - 1], i, r);
      assert emitted[|emitted| - 1] in emitted;
    }
  }

  lemma AdvanceSends(b: Batch, start: Log, s: Pool, i: nat)
    requires Shaped(b, s) && Enabled(b, s, i) && Consistent(s, i) && |start| <= |s.log|
    requires SentResults(start, s.log) == Picked(s.slots, s.emitted)
    ensures var s' := Advance(b, s, i);
            |start| <= |s'.log| && SentResults(start, s'.log) == Picked(s'.slots, s'.emitted)
  {
    match s.pcs[i]
    case Holding => HoldingSends(b, start, s, i);
    case Sending => SendingSends(b, start, s, i);
    case _ =>
  }

  lemma HoldingSends(b: Batch, start: Log, s: Pool, i: nat)
    requires Shaped(b, s) && Enabled(b, s, i) && Consistent(s, i) && |start| <= |s.log| && s.pcs[i].Holding?
    requires SentResults(start, s.log) == Picked(s.slots, s.emitted)
    ensures var s' := Advance(b, s, i);
            |start| <= |s'.log| && SentResults(start, s'.log) == Picked(s'.slots, s'.emitted)
  {
    var reply := Goroutines.Outcome(b, s.log, i);
    PickedStill(s.slots, s.emitted, i, if reply.Answered? then Some(reply.result) else None);
    if b.forced[i].None? {
      SentMore(start, s.log, ToolStep(b.turn, i, b.calls[i], HowOf(reply)));
    }
  }

  lemma SendingSends(b: Batch, start: Log, s: Pool, i: nat)
    requires Shaped(b, s) && Enabled(b, s, i) && Consistent(s, i) && |start| <= |s.log| && s.pcs[i].Sending?
    requires SentResults(start, s.log) == Picked(s.slots, s.emitted)
    ensures var s' := Advance(b, s, i);
            |start| <= |s'.log| && SentResults(start, s'.log) == Picked(s'.slots, s'.emitted)
  {
    var s' := Advance(b, s, i);
    SentMore(start, s.log, s'.log[|s.log|]);
    assert (s.emitted + [i])[..|s.emitted|] == s.emitted;
  }

  lemma {:induction false} ConcurrentlySends(b: Batch, start: Log, s: Pool, scheduler: Pool -> nat)
    requires Inv(b, s) && |start| <= |s.log| && SentResults(start, s.log) == Picked(s.slots, s.emitted)
    ensures var end := Concurrently(b, s, scheduler);
            SentResults(start, end.log) == Picked(end.slots, end.emitted)
    decreases Sum(s.pcs, Rank())
  {
    var i := Chosen(b, s, scheduler);
    if Enabled(b, s, i) {
      assert Consistent(s, i);
      AdvanceInv(b, s, i);
      AdvanceSends(b, start, s, i);
      ConcurrentlySends(b, start, Advance(b, s, i), scheduler);
    }
  }

  lemma {:induction false} PickedDelivered(s: Pool, outcomes: seq<Reply>, emitted: seq<nat>)
    requires |outcomes| == |s.slots|
    requires forall k :: 0 <= k < |emitted| ==>
               && emitted[k] < |outcomes| && outcomes[emitted[k]].Answered?
               && s.slots[emitted[k]] == Some(outcomes[emitted[k]].result)
    ensures Picked(s.slots, emitted) == Delivered(outcomes, emitted)
    decreases |emitted|
  {
    if emitted != [] {
      PickedDelivered(s, outcomes, emitted[..|emitted| - 1]);
    }
  }

  /** The concurrent batch hands over its results, each once, in whatever order. */
  lemma ParallelSendsAPermutation(c: Config, w: World, turn: nat, calls: seq<ToolCall>,
                                  forced: seq<Option<ToolResult>>, log: Log)
    requires |forced| == |calls| && c.maxParallelTools > 1
    ensures var r := ExecParallel(c, w, turn, calls, forced, log);
            r.BatchDone? ==> multiset(SentResults(log, r.log)) == multiset(r.results)
  {
    var b := BatchOf(c, w, turn, calls, forced);
    InitialInv(b, log);
    AllFinish(b, Initial(b, log), w.scheduler);
    ConcurrentlySends(b, log, Initial(b, log), w.scheduler);
    var s := Concurrently(b, Initial(b, log), w.scheduler);
    if !s.cancelled {
      DeliveredArePermuted(b, s);
      AnsweredEmitted(b, s);
      forall k | 0 <= k < |s.emitted|
        ensures s.emitted[k] < |s.outcomes| && s.outcomes[s.emitted[k]].value.Answered?
        ensures s.slots[s.emitted[k]] == Some(s.outcomes[s.emitted[k]].value.result)
      {
        assert s.emitted[k] in s.emitted;
        assert Consistent(s, s.emitted[k]);
      }
      PickedDelivered(s, Replies(s.outcomes), s.emitted);
    }
  }
}

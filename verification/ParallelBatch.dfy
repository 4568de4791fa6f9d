/** Why the concurrent tool batch is as good as the sequential one: every interleaving
    keeps the pool's invariant, cannot get stuck, ends, and is one the scheduler may
    choose; and what is gathered at the end is in call order. */
module ParallelBatch {
  import opened Gage
  import opened ToolCalls
  import opened RunLog
  import opened Goroutines

  // ---- counting over goroutines ----

  function HoldsSem(): PC -> nat {
    (pc: PC) => if pc.Queued? || pc.Done? then 0 else 1
  }

  lemma {:induction false} SumPositive(pcs: seq<PC>, weight: PC -> nat) returns (i: nat)
    requires Sum(pcs, weight) > 0
    ensures i < |pcs| && weight(pcs[i]) > 0
  {
    var n := |pcs| - 1;
    if weight(pcs[n]) > 0 {
      i := n;
    } else {
      i := SumPositive(pcs[..n], weight);
    }
  }

  lemma {:induction false} SumConstant(pcs: seq<PC>, weight: PC -> nat, each: nat)
    requires forall k :: 0 <= k < |pcs| ==> weight(pcs[k]) == each
    ensures Sum(pcs, weight) == |pcs| * each
  {
    if pcs != [] {
      SumConstant(pcs[..|pcs| - 1], weight, each);
    }
  }

  // ---- the invariant ----

  predicate Past(pc: PC) {
    pc.Handed? || pc.Leaving? || pc.Done?
  }

  /** What goroutine `i` has done is what its place in the program says. */
  ghost predicate Consistent(s: Pool, i: nat)
    requires i < |s.pcs| == |s.outcomes| == |s.slots| == |s.pendingIdx|
  {
    var pc := s.pcs[i];
    match s.outcomes[i]
    case None =>
      && (pc.Queued? || pc.Holding?)
      && s.slots[i].None? && !s.pendingIdx[i] && i !in s.emitted
    case Some(reply) =>
      && !pc.Queued? && !pc.Holding?
      && (match reply
          case Deferred =>
            && (pc.Leaving? || pc.Done?)
            && s.slots[i].None? && s.pendingIdx[i] && i !in s.emitted
          case Answered(result, _) =>
            && s.slots[i] == Some(result) && !s.pendingIdx[i]
            && (i in s.emitted ==> Past(pc))
            && (Past(pc) && !s.cancelled ==> i in s.emitted))
  }

  /** The semaphore counts its holders and never more than its capacity. */
  predicate Counted(b: Batch, s: Pool) {
    s.sem == Sum(s.pcs, HoldsSem()) <= b.capacity
  }

  /** The mutex is held by exactly the goroutine that is delivering. */
  ghost predicate Guarded(s: Pool) {
    && (forall i: nat :: i < |s.pcs| ==> (s.sendMu == Some(i) <==> s.pcs[i].Sending? || s.pcs[i].Handed?))
    && (s.sendMu.Some? ==> s.sendMu.value < |s.pcs|)
  }

  /** Nothing is delivered twice. */
  ghost predicate Once(s: Pool) {
    && (forall k :: 0 <= k < |s.emitted| ==> s.emitted[k] < |s.pcs|)
    && (forall k, l :: 0 <= k < l < |s.emitted| ==> s.emitted[k] != s.emitted[l])
  }

  ghost predicate Inv(b: Batch, s: Pool) {
    && Shaped(b, s)
    && Counted(b, s)
    && Guarded(s)
    && Once(s)
    && (forall i: nat :: i < |s.pcs| ==> Consistent(s, i))
  }

  lemma InitialInv(b: Batch, log: Log)
    requires |b.forced| == |b.calls|
    ensures Inv(b, Initial(b, log))
  {
    SumConstant(Initial(b, log).pcs, HoldsSem(), 0);
  }

  lemma AdvanceCounted(b: Batch, s: Pool, i: nat)
    requires Shaped(b, s) && Counted(b, s) && Enabled(b, s, i)
    ensures Counted(b, Advance(b, s, i))
  {
    var s' := Advance(b, s, i);
    SumUpdate(s.pcs, HoldsSem(), i, s'.pcs[i]);
    assert s'.pcs == s.pcs[i := s'.pcs[i]];
  }

  lemma AdvanceConsistent(b: Batch, s: Pool, i: nat, k: nat)
    requires Shaped(b, s) && Enabled(b, s, i) && k < |s.pcs|
    requires Consistent(s, i) && Consistent(s, k)
    ensures Shaped(b, Advance(b, s, i)) && Consistent(Advance(b, s, i), k)
  {
    assert k in s.emitted + [i] <==> k in s.emitted || k == i;
  }

  lemma AdvanceExcludes(b: Batch, s: Pool, i: nat)
    requires Shaped(b, s) && Enabled(b, s, i) && Consistent(s, i)
    requires Guarded(s) && Once(s)
    ensures Guarded(Advance(b, s, i)) && Once(Advance(b, s, i))
  {
    if s.pcs[i].Sending? {
      assert i !in s.emitted;
    }
  }

  /** Any step of any goroutine keeps the invariant and uses up one step. */
  lemma AdvanceInv(b: Batch, s: Pool, i: nat)
    requires Inv(b, s) && Enabled(b, s, i)
    ensures Inv(b, Advance(b, s, i))
    ensures Sum(Advance(b, s, i).pcs, Rank()) < Sum(s.pcs, Rank())
  {
    assert Consistent(s, i);
    Advances(b, s, i);
    AdvanceCounted(b, s, i);
    forall k: nat | k < |s.pcs|
      ensures Consistent(Advance(b, s, i), k)
    {
      AdvanceConsistent(b, s, i, k);
    }
    AdvanceExcludes(b, s, i);
  }

  /** No deadlock: until all are done, some goroutine can advance. */
  lemma Progress(b: Batch, s: Pool) returns (i: nat)
    requires Inv(b, s) && !AllDone(s) && b.capacity > 0
    ensures Enabled(b, s, i)
  {
    i :| i < |s.pcs| && s.pcs[i] != Done;
    if s.pcs[i].Queued? && s.sem == b.capacity {
      i := SumPositive(s.pcs, HoldsSem());
    }
    if s.pcs[i].Stored? && s.sendMu.Some? {
      i := s.sendMu.value;
    }
    assert Consistent(s, i);
  }

  /** At most `capacity` goroutines are past the semaphore, and at most one is past
      the mutex. */
  lemma Exclusion(b: Batch, s: Pool, i: nat, j: nat)
    requires Inv(b, s)
    requires i < |s.pcs| && j < |s.pcs|
    requires s.pcs[i].Sending? || s.pcs[i].Handed?
    requires s.pcs[j].Sending? || s.pcs[j].Handed?
    ensures i == j
    ensures Sum(s.pcs, HoldsSem()) <= b.capacity
  {
    assert s.sendMu == Some(i) && s.sendMu == Some(j);
  }

  // ---- interleavings ----

  /** `schedule` names, step by step, a goroutine that could advance. */
  ghost predicate Possible(b: Batch, s: Pool, schedule: seq<nat>)
    decreases |schedule|
  {
    schedule == [] ||
    (Shaped(b, s) && Enabled(b, s, schedule[0]) && Possible(b, Advance(b, s, schedule[0]), schedule[1..]))
  }

  ghost function Follow(b: Batch, s: Pool, schedule: seq<nat>): Pool
    requires Possible(b, s, schedule)
    decreases |schedule|
  {
    if schedule == [] then s else Follow(b, Advance(b, s, schedule[0]), schedule[1..])
  }

  /** Every state of every interleaving satisfies the invariant, and no interleaving
      takes more than six steps a call. */
  lemma {:induction false} EveryInterleaving(b: Batch, s: Pool, schedule: seq<nat>)
    requires Inv(b, s) && Possible(b, s, schedule)
    ensures Inv(b, Follow(b, s, schedule))
    ensures |schedule| + Sum(Follow(b, s, schedule).pcs, Rank()) <= Sum(s.pcs, Rank())
    decreases |schedule|
  {
    if schedule != [] {
      AdvanceInv(b, s, schedule[0]);
      EveryInterleaving(b, Advance(b, s, schedule[0]), schedule[1..]);
    }
  }

  lemma AtMostSixStepsEach(b: Batch, log: Log, schedule: seq<nat>)
    requires |b.forced| == |b.calls| && Possible(b, Initial(b, log), schedule)
    ensures |schedule| <= 6 * |b.calls|
  {
    InitialInv(b, log);
    EveryInterleaving(b, Initial(b, log), schedule);
    SumConstant(Initial(b, log).pcs, Rank(), 6);
  }

  /** Whatever the scheduler chooses, all goroutines finish. */
  lemma {:induction false} AllFinish(b: Batch, s: Pool, scheduler: Pool -> nat)
    requires Inv(b, s) && b.capacity > 0
    ensures var end := Concurrently(b, s, scheduler);
            Inv(b, end) && AllDone(end)
    decreases Sum(s.pcs, Rank())
  {
    var i := Chosen(b, s, scheduler);
    if Enabled(b, s, i) {
      AdvanceInv(b, s, i);
      AllFinish(b, Advance(b, s, i), scheduler);
    } else {
      NoneFurther(b, s, 0);
      if !AllDone(s) {
        var k := Progress(b, s);
        assert false;
      }
    }
  }

  lemma {:induction false} NoneFurther(b: Batch, s: Pool, from: nat)
    requires Shaped(b, s) && from <= |s.pcs|
    ensures !Enabled(b, s, FirstEnabled(b, s, from)) ==> forall k: nat :: k >= from ==> !Enabled(b, s, k)
    decreases |s.pcs| - from
  {
    if from < |s.pcs| && !Enabled(b, s, from) {
      NoneFurther(b, s, from + 1);
    }
  }

  /** The scheduler that follows `plan` and, off it, picks the first. */
  function Planned(plan: map<Pool, nat>): Pool -> nat {
    (s: Pool) => if s in plan then plan[s] else 0
  }

  /** No interleaving is left out: each is what some scheduler chooses. */
  lemma {:induction false} EveryInterleavingIsChosen(b: Batch, s: Pool, schedule: seq<nat>)
      returns (plan: map<Pool, nat>)
    requires Shaped(b, s) && Possible(b, s, schedule) && AllDone(Follow(b, s, schedule))
    ensures Concurrently(b, s, Planned(plan)) == Follow(b, s, schedule)
    ensures forall t :: t in plan ==> Sum(t.pcs, Rank()) <= Sum(s.pcs, Rank())
    decreases |schedule|
  {
    if schedule == [] {
      plan := map[];
    } else {
      var next := Advance(b, s, schedule[0]);
      Advances(b, s, schedule[0]);
      var rest := EveryInterleavingIsChosen(b, next, schedule[1..]);
      plan := rest[s := schedule[0]];
      SamePlan(b, next, rest, plan);
    }
  }

  /** Plans that agree on all states with as few steps left choose alike. */
  lemma {:induction false} SamePlan(b: Batch, s: Pool, p: map<Pool, nat>, q: map<Pool, nat>)
    requires Shaped(b, s)
    requires forall t: Pool :: Sum(t.pcs, Rank()) <= Sum(s.pcs, Rank()) ==> Planned(p)(t) == Planned(q)(t)
    ensures Concurrently(b, s, Planned(p)) == Concurrently(b, s, Planned(q))
    decreases Sum(s.pcs, Rank())
  {
    assert Planned(p)(s) == Planned(q)(s);
    var i := Chosen(b, s, Planned(p));
    if Enabled(b, s, i) {
      Advances(b, s, i);
      SamePlan(b, Advance(b, s, i), p, q);
    }
  }

  // ---- what the batch comes to ----

  /** The replies recorded, once there is one for every call. */
  function Replies(outcomes: seq<Option<Reply>>): seq<Reply>
    requires forall k :: 0 <= k < |outcomes| ==> outcomes[k].Some?
  {
    seq(|outcomes|, k requires 0 <= k < |outcomes| => outcomes[k].value)
  }

  /** When all are done, slots and pending marks read in call order give the answers
      and the postponed calls in call order. */
  lemma Gathered(b: Batch, s: Pool)
    requires Inv(b, s) && AllDone(s)
    ensures forall k :: 0 <= k < |s.outcomes| ==> s.outcomes[k].Some?
    ensures SlotResults(s.slots, s.pendingIdx) == ResultsOf(Replies(s.outcomes))
    ensures MarkedCalls(b.calls, s.pendingIdx) == PendingOf(b.calls, Replies(s.outcomes))
  {
    forall k: nat | k < |s.outcomes|
      ensures s.outcomes[k].Some?
      ensures s.pendingIdx[k] <==> s.outcomes[k].value.Deferred?
      ensures s.outcomes[k].value.Answered? ==> s.slots[k] == Some(s.outcomes[k].value.result)
    {
      assert Consistent(s, k);
    }
    GatheredUpTo(b.calls, Replies(s.outcomes), s.slots, s.pendingIdx);
  }

  lemma {:induction false} GatheredUpTo(calls: seq<ToolCall>, outcomes: seq<Reply>, slots: seq<Option<ToolResult>>,
                                        pendingIdx: seq<bool>)
    requires |calls| == |outcomes| == |slots| == |pendingIdx|
    requires forall k :: 0 <= k < |outcomes| ==> (pendingIdx[k] <==> outcomes[k].Deferred?)
    requires forall k :: 0 <= k < |outcomes| && outcomes[k].Answered? ==> slots[k] == Some(outcomes[k].result)
    ensures SlotResults(slots, pendingIdx) == ResultsOf(outcomes)
    ensures MarkedCalls(calls, pendingIdx) == PendingOf(calls, outcomes)
    decreases |calls|
  {
    if calls != [] {
      var n := |calls| - 1;
      GatheredUpTo(calls[..n], outcomes[..n], slots[..n], pendingIdx[..n]);
    }
  }

  /** The results delivered, in the order they went out. */
  function Delivered(outcomes: seq<Reply>, emitted: seq<nat>): seq<ToolResult> {
    if emitted == [] then []
    else
      var last := emitted[|emitted| - 1];
      Delivered(outcomes, emitted[..|emitted| - 1]) +
      if last < |outcomes| && outcomes[last].Answered? then [outcomes[last].result] else []
  }

  /** The answers of the calls at places `at`, in call order. */
  function Selected(outcomes: seq<Reply>, at: set<nat>): seq<ToolResult> {
    if outcomes == [] then []
    else
      var n := |outcomes| - 1;
      Selected(outcomes[..n], at) + if n in at && outcomes[n].Answered? then [outcomes[n].result] else []
  }

  lemma {:induction false} SelectMore(outcomes: seq<Reply>, at: set<nat>, i: nat)
    requires i < |outcomes| && i !in at && outcomes[i].Answered?
    ensures multiset(Selected(outcomes, at + {i})) == multiset(Selected(outcomes, at)) + multiset{outcomes[i].result}
  {
    var n := |outcomes| - 1;
    if i < n {
      assert outcomes[..n][i] == outcomes[i];
      SelectMore(outcomes[..n], at, i);
      LastSelected(outcomes, at, i);
      OneMoreInFront(Selected(outcomes, at + {i}), Selected(outcomes, at), outcomes[i].result, LastOf(outcomes, at),
                     Selected(outcomes[..n], at + {i}), Selected(outcomes[..n], at));
    } else {
      SelectLast(outcomes, at);
    }
  }

  /** What the last of the outcomes adds. */
  ghost function LastOf(outcomes: seq<Reply>, at: set<nat>): seq<ToolResult>
    requires outcomes != []
  {
    var n := |outcomes| - 1;
    if n in at && outcomes[n].Answered? then [outcomes[n].result] else []
  }

  lemma LastSelected(outcomes: seq<Reply>, at: set<nat>, i: nat)
    requires i < |outcomes| - 1
    ensures Selected(outcomes, at) == Selected(outcomes[..|outcomes| - 1], at) + LastOf(outcomes, at)
    ensures Selected(outcomes, at + {i}) == Selected(outcomes[..|outcomes| - 1], at + {i}) + LastOf(outcomes, at)
  {
  }

  lemma SelectLast(outcomes: seq<Reply>, at: set<nat>)
    requires outcomes != [] && |outcomes| - 1 !in at && outcomes[|outcomes| - 1].Answered?
    ensures var i := |outcomes| - 1;
            multiset(Selected(outcomes, at + {i})) == multiset(Selected(outcomes, at)) + multiset{outcomes[i].result}
  {
    var n := |outcomes| - 1;
    SelectBeyond(outcomes[..n], at, n);
    assert Selected(outcomes[..n], at) + [] == Selected(outcomes[..n], at);
  }

  lemma OneMoreInFront<T>(more: seq<T>, less: seq<T>, one: T, tail: seq<T>, front: seq<T>, lessFront: seq<T>)
    requires more == front + tail && less == lessFront + tail
    requires multiset(front) == multiset(lessFront) + multiset{one}
    ensures multiset(more) == multiset(less) + multiset{one}
  {
  }

  lemma {:induction false} SelectBeyond(outcomes: seq<Reply>, at: set<nat>, i: nat)
    requires |outcomes| <= i
    ensures Selected(outcomes, at + {i}) == Selected(outcomes, at)
  {
    if outcomes != [] {
      SelectBeyond(outcomes[..|outcomes| - 1], at, i);
    }
  }

  lemma {:induction false} SelectAll(outcomes: seq<Reply>, at: set<nat>)
    requires forall i: nat :: i < |outcomes| && outcomes[i].Answered? ==> i in at
    ensures Selected(outcomes, at) == ResultsOf(outcomes)
  {
    if outcomes != [] {
      SelectAll(outcomes[..|outcomes| - 1], at);
    }
  }

  ghost function Places(emitted: seq<nat>): set<nat> {
    set i | i in emitted
  }

  /** Whatever the order of delivery, each answer goes out once. */
  lemma {:induction false} DeliveredOnce(outcomes: seq<Reply>, emitted: seq<nat>)
    requires forall k, l :: 0 <= k < l < |emitted| ==> emitted[k] != emitted[l]
    requires forall k :: 0 <= k < |emitted| ==> emitted[k] < |outcomes| && outcomes[emitted[k]].Answered?
    ensures multiset(Delivered(outcomes, emitted)) == multiset(Selected(outcomes, Places(emitted)))
  {
    if emitted == [] {
      assert Places(emitted) == {};
      SelectNone(outcomes);
    } else {
      var n := |emitted| - 1;
      PlacesLast(emitted);
      DeliveredOnce(outcomes, emitted[..n]);
      SelectMore(outcomes, Places(emitted[..n]), emitted[n]);
    }
  }

  lemma PlacesLast(emitted: seq<nat>)
    requires emitted != []
    requires forall k, l :: 0 <= k < l < |emitted| ==> emitted[k] != emitted[l]
    ensures var n := |emitted| - 1;
            && Places(emitted) == Places(emitted[..n]) + {emitted[n]}
            && emitted[n] !in Places(emitted[..n])
  {
    assert emitted == emitted[..|emitted| - 1] + [emitted[|emitted| - 1]];
  }

  lemma {:induction false} SelectNone(outcomes: seq<Reply>)
    ensures Selected(outcomes, {}) == []
  {
    if outcomes != [] {
      SelectNone(outcomes[..|outcomes| - 1]);
    }
  }

  lemma AnsweredEmitted(b: Batch, s: Pool)
    requires Inv(b, s) && AllDone(s) && !s.cancelled
    ensures forall k :: 0 <= k < |s.outcomes| ==> s.outcomes[k].Some?
    ensures forall i: nat :: i in s.emitted <==> i < |s.outcomes| && s.outcomes[i].value.Answered?
  {
    forall i: nat
      ensures i < |s.outcomes| ==> s.outcomes[i].Some?
      ensures i in s.emitted <==> i < |s.outcomes| && s.outcomes[i].Some? && s.outcomes[i].value.Answered?
    {
      if i < |s.outcomes| {
        assert Consistent(s, i);
      }
    }
  }

  /** Unless a delivery failed, the results that went out are the batch's results, each
      once, in whatever order. */
  lemma DeliveredArePermuted(b: Batch, s: Pool)
    requires Inv(b, s) && AllDone(s) && !s.cancelled
    ensures forall k :: 0 <= k < |s.outcomes| ==> s.outcomes[k].Some?
    ensures multiset(Delivered(Replies(s.outcomes), s.emitted)) == multiset(SlotResults(s.slots, s.pendingIdx))
  {
    Gathered(b, s);
    AnsweredEmitted(b, s);
    DeliveredOnce(Replies(s.outcomes), s.emitted);
    SelectAll(Replies(s.outcomes), Places(s.emitted));
  }
}

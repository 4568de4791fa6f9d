/** The concurrent tool batch (execTools in agent/loop.go with MaxParallelTools > 1): one
    goroutine per call behind a counting semaphore, a mutex around delivery. A step
    advances any one goroutine that can advance. */
module Goroutines {
  import opened Gage
  import opened ToolCalls
  import opened RunLog

  /** Where a goroutine is. It holds the semaphore from `Holding` to `Leaving`, and
      the mutex in `Sending` and `Handed`. */
  datatype PC = Queued | Holding | Stored | Sending | Handed | Leaving | Done

  /** What is fixed while the batch runs. */
  datatype Batch = Batch(
    toolbox: Toolbox,
    delivers: nat -> bool,
    turn: nat,
    calls: seq<ToolCall>,
    forced: seq<Option<ToolResult>>,
    capacity: nat)

  /** What the goroutines share. `outcomes` and `emitted` only record what happened. */
  datatype Pool = Pool(
    pcs: seq<PC>,
    outcomes: seq<Option<Reply>>,
    slots: seq<Option<ToolResult>>,
    pendingIdx: seq<bool>,
    sem: nat,
    sendMu: Option<nat>,
    emitted: seq<nat>,
    cancelled: bool,
    log: Log)

  function Initial(b: Batch, log: Log): Pool {
    var n := |b.calls|;
    Pool(seq(n, _ => Queued), seq(n, _ => None), seq(n, _ => None), seq(n, _ => false), 0, None, [], false, log)
  }

  predicate Shaped(b: Batch, s: Pool) {
    |s.pcs| == |s.outcomes| == |s.slots| == |s.pendingIdx| == |b.calls| == |b.forced|
  }

  /** Goroutine `i` can take a step. */
  predicate Enabled(b: Batch, s: Pool, i: nat)
    requires Shaped(b, s)
  {
    i < |s.pcs| &&
    match s.pcs[i]
    case Queued => s.sem < b.capacity
    case Stored => s.sendMu.None?
    case Sending => s.slots[i].Some?
    case Done => false
    case _ => true
  }

  /** What call `i` comes to when its turn is now. */
  function Outcome(b: Batch, log: Log, i: nat): Reply
    requires i < |b.calls| == |b.forced|
  {
    if b.forced[i].Some? then Answered(b.forced[i].value, None)
    else ExecTool(b.toolbox, |log|, b.turn, b.calls[i], None)
  }

  /** A forced result is used without the tool being touched. */
  function Worked(b: Batch, log: Log, i: nat): Log
    requires i < |b.calls| == |b.forced|
  {
    if b.forced[i].Some? then log else log + [ToolStep(b.turn, i, b.calls[i], HowOf(Outcome(b, log, i)))]
  }

  function Offered(b: Batch, log: Log, result: ToolResult): Log {
    log + [if b.delivers(|log|) then Sent(b.turn, ToolResultEvent(result)) else Lost(b.turn, ToolResultEvent(result))]
  }

  function Advance(b: Batch, s: Pool, i: nat): Pool
    requires Shaped(b, s) && Enabled(b, s, i)
  {
    match s.pcs[i]
    case Queued => s.(pcs := s.pcs[i := Holding], sem := s.sem + 1)
    case Holding =>
      var reply := Outcome(b, s.log, i);
      var s' := s.(outcomes := s.outcomes[i := Some(reply)], log := Worked(b, s.log, i));
      (match reply
       case Deferred => s'.(pcs := s.pcs[i := Leaving], pendingIdx := s.pendingIdx[i := true])
       case Answered(result, _) => s'.(pcs := s.pcs[i := Stored], slots := s.slots[i := Some(result)]))
    case Stored => s.(pcs := s.pcs[i := Sending], sendMu := Some(i))
    case Sending =>
      var ok := b.delivers(|s.log|);
      s.(pcs := s.pcs[i := Handed], log := Offered(b, s.log, s.slots[i].value),
         emitted := if ok then s.emitted + [i] else s.emitted, cancelled := s.cancelled || !ok)
    case Handed => s.(pcs := s.pcs[i := Leaving], sendMu := None)
    case Leaving => s.(pcs := s.pcs[i := Done], sem := if s.sem > 0 then s.sem - 1 else 0)
    case Done => s
  }

  predicate AllDone(s: Pool) {
    forall i :: 0 <= i < |s.pcs| ==> s.pcs[i] == Done
  }

  // ---- a measure ----

  function Sum(pcs: seq<PC>, weight: PC -> nat): nat {
    if pcs == [] then 0 else Sum(pcs[..|pcs| - 1], weight) + weight(pcs[|pcs| - 1])
  }

  /** Steps left to take, at most. */
  function Rank(): PC -> nat {
    (pc: PC) =>
      match pc
      case Queued => 6
      case Holding => 5
      case Stored => 4
      case Sending => 3
      case Handed => 2
      case Leaving => 1
      case Done => 0
  }

  lemma {:induction false} SumUpdate(pcs: seq<PC>, weight: PC -> nat, i: nat, pc: PC)
    requires i < |pcs|
    ensures Sum(pcs[i := pc], weight) == Sum(pcs, weight) - weight(pcs[i]) + weight(pc)
  {
    var n := |pcs| - 1;
    if i == n {
      assert pcs[i := pc][..n] == pcs[..n];
    } else {
      assert pcs[i := pc][..n] == pcs[..n][i := pc];
      SumUpdate(pcs[..n], weight, i, pc);
    }
  }

  lemma Advances(b: Batch, s: Pool, i: nat)
    requires Shaped(b, s) && Enabled(b, s, i)
    ensures Shaped(b, Advance(b, s, i))
    ensures Sum(Advance(b, s, i).pcs, Rank()) < Sum(s.pcs, Rank())
  {
    var pc := Advance(b, s, i).pcs[i];
    SumUpdate(s.pcs, Rank(), i, pc);
    assert Advance(b, s, i).pcs == s.pcs[i := pc];
  }

  // ---- a whole batch ----

  function FirstEnabled(b: Batch, s: Pool, from: nat): nat
    requires Shaped(b, s) && from <= |s.pcs|
    decreases |s.pcs| - from
  {
    if from == |s.pcs| || Enabled(b, s, from) then from else FirstEnabled(b, s, from + 1)
  }

  /** The goroutine that goes next: the scheduler's choice, if that one can. */
  function Chosen(b: Batch, s: Pool, scheduler: Pool -> nat): nat
    requires Shaped(b, s)
  {
    if Enabled(b, s, scheduler(s)) then scheduler(s) else FirstEnabled(b, s, 0)
  }

  /** The goroutines run for as long as one can advance. */
  function Concurrently(b: Batch, s: Pool, scheduler: Pool -> nat): (end: Pool)
    requires Shaped(b, s)
    ensures Shaped(b, end)
    decreases Sum(s.pcs, Rank())
  {
    var i := Chosen(b, s, scheduler);
    if !Enabled(b, s, i) then s
    else
      Advances(b, s, i);
      Concurrently(b, Advance(b, s, i), scheduler)
  }

  /** The results to be read off once all goroutines are done, in call order. */
  function SlotResults(slots: seq<Option<ToolResult>>, pendingIdx: seq<bool>): seq<ToolResult>
    requires |slots| == |pendingIdx|
  {
    if slots == [] then []
    else
      var n := |slots| - 1;
      SlotResults(slots[..n], pendingIdx[..n]) + if !pendingIdx[n] && slots[n].Some? then [slots[n].value] else []
  }

  function MarkedCalls(calls: seq<ToolCall>, pendingIdx: seq<bool>): seq<ToolCall>
    requires |calls| == |pendingIdx|
  {
    if calls == [] then []
    else
      var n := |calls| - 1;
      MarkedCalls(calls[..n], pendingIdx[..n]) + if pendingIdx[n] then [calls[n]] else []
  }
}

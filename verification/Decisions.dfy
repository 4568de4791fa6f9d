/** Decision batches on a checkpoint (resumeToolBatch in agent/loop.go, Pending in
    session.go): they compose, and work on every call once. */
module Decisions {
  import opened Gage
  import opened ToolCalls
  import opened RunLog
  import opened Goroutines
  import opened AgentLoop
  import opened LogFacts
  import opened Pairing
  import opened PauseResume

  /** Nothing is cancelled or lost. */
  ghost predicate Uncut(w: World) {
    (forall n: nat :: w.delivers(n)) && (forall n: nat :: w.ctxErr(n).None?)
  }

  /** What is assumed of the world: tools answer alike at any moment, result ids are
      kept, and nothing is cancelled or lost. */
  ghost predicate Calm(w: World) {
    && Timeless(w.toolbox)
    && KeepsCallIDs(w.toolbox)
    && Uncut(w)
  }

  /** The result a decided call gets. */
  function DecidedResult(w: World, turn: nat, tc: ToolCall, a: Approval): ToolResult {
    ExecTool(w.toolbox, 0, turn, tc, Some(a)).result
  }

  lemma DecidedAnyMoment(w: World, n: nat, turn: nat, tc: ToolCall, a: Approval)
    requires Calm(w)
    ensures var r := ExecTool(w.toolbox, n, turn, tc, Some(a)).result;
            r == DecidedResult(w, turn, tc, a) && r.callID == tc.id
  {
    AnswersUnderOwnID(w.toolbox, n, turn, tc, Some(a));
    var t := w.toolbox;
    if t.known.None? {
      FinishTimeless(t, n, 0, tc, ErrorResult(tc.id, NoTools));
    } else if !t.known.value(tc.name) {
      FinishTimeless(t, n, 0, tc, ErrorResult(tc.id, UnknownTool(tc.name)));
    } else {
      PerformTimeless(t, t, n, 0, turn, tc, a);
    }
  }

  // ---- what a batch leaves ----

  /** Call `tc` after a batch of decisions: what was known stays, what was decided is
      answered, the rest is unknown. */
  function After(w: World, turn: nat, byID: map<string, ToolResult>, decisions: map<string, Approval>,
                 tc: ToolCall): Option<ToolResult> {
    if tc.id in byID then Some(byID[tc.id])
    else if tc.id in decisions then Some(DecidedResult(w, turn, tc, decisions[tc.id]))
    else None
  }

  function Lookup(byID: map<string, ToolResult>, tc: ToolCall): Option<ToolResult> {
    if tc.id in byID then Some(byID[tc.id]) else None
  }

  /** The places in `calls`, from `i` on, of the calls a batch works on. */
  function Todo(calls: seq<ToolCall>, i: nat, byID: map<string, ToolResult>, decisions: map<string, Approval>): seq<nat>
    requires i <= |calls|
    decreases |calls| - i
  {
    if i == |calls| then []
    else (if calls[i].id !in byID && calls[i].id in decisions then [i] else []) + Todo(calls, i + 1, byID, decisions)
  }

  /** The places of the calls worked on in a log. */
  function WorkedOn(log: Log): seq<nat> {
    if log == [] then []
    else
      var last := log[|log| - 1];
      WorkedOn(log[..|log| - 1]) + if last.ToolStep? then [last.index] else []
  }

  lemma {:induction false} TodoIgnores(calls: seq<ToolCall>, i: nat, byID: map<string, ToolResult>, id: string,
                                       r: ToolResult, decisions: map<string, Approval>)
    requires i <= |calls|
    requires forall k :: i <= k < |calls| ==> calls[k].id != id
    ensures Todo(calls, i, byID[id := r], decisions) == Todo(calls, i, byID, decisions)
    decreases |calls| - i
  {
    if i < |calls| {
      TodoIgnores(calls, i + 1, byID, id, r, decisions);
    }
  }

  lemma WorkedOnOneMore(w: World, turn: nat, i: nat, tc: ToolCall, reply: Reply, log: Log)
    requires reply.Answered?
    ensures WorkedOn(Send(w, turn, ToolResultEvent(reply.result), log + [ToolStep(turn, i, tc, HowOf(reply))]))
         == WorkedOn(log) + [i]
  {
    var log1 := log + [ToolStep(turn, i, tc, HowOf(reply))];
    assert log1[..|log|] == log;
    assert Send(w, turn, ToolResultEvent(reply.result), log1)[..|log1|] == log1;
  }

  lemma {:induction false} BatchWorksOn(w: World, turn: nat, calls: seq<ToolCall>, decisions: map<string, Approval>,
                                        i: nat, byID: map<string, ToolResult>, stillPending: bool, log: Log,
                                        all: seq<nat>)
    requires Uncut(w) && DistinctIDs(calls) && i <= |calls|
    requires all == WorkedOn(log) + Todo(calls, i, byID, decisions)
    ensures var r := DecideCalls(w, turn, calls, decisions, i, byID, stillPending, log);
            r.Resumed? && WorkedOn(r.log) == all
    decreases |calls| - i
  {
    if i == |calls| {
      return;
    }
    var tc := calls[i];
    if tc.id in byID {
      BatchWorksOn(w, turn, calls, decisions, i + 1, byID, stillPending, log, all);
    } else if tc.id !in decisions {
      BatchWorksOn(w, turn, calls, decisions, i + 1, byID, true, log, all);
    } else {
      var reply := ExecTool(w.toolbox, |log|, turn, tc, Some(decisions[tc.id]));
      WorkedOnOneMore(w, turn, i, tc, reply, log);
      TodoIgnores(calls, i + 1, byID, tc.id, reply.result, decisions);
      OneDone(WorkedOn(log), i, Todo(calls, i + 1, byID, decisions));
      BatchWorksOn(w, turn, calls, decisions, i + 1, byID[tc.id := reply.result], stillPending,
                   Send(w, turn, ToolResultEvent(reply.result), log + [ToolStep(turn, i, tc, HowOf(reply))]), all);
    }
  }

  lemma OneDone(done: seq<nat>, i: nat, rest: seq<nat>)
    ensures (done + [i]) + rest == done + ([i] + rest)
  {
  }

  /** Some call before place `i` is neither known nor decided. */
  ghost predicate LeftOver(calls: seq<ToolCall>, i: nat, byID: map<string, ToolResult>,
                           decisions: map<string, Approval>)
    requires i <= |calls|
  {
    exists k :: 0 <= k < i && calls[k].id !in byID && calls[k].id !in decisions
  }

  /** A batch in progress: calls before `i` are settled, the others as at the start. */
  ghost predicate SettledTo(w: World, turn: nat, calls: seq<ToolCall>, start: map<string, ToolResult>,
                            decisions: map<string, Approval>, i: nat, byID: map<string, ToolResult>)
    requires i <= |calls|
  {
    forall k :: 0 <= k < |calls| ==>
      Lookup(byID, calls[k]) == if k < i then After(w, turn, start, decisions, calls[k]) else Lookup(start, calls[k])
  }

  /** The decided call at place `i`, answered. */
  lemma SettledOneMore(w: World, turn: nat, calls: seq<ToolCall>, decisions: map<string, Approval>, i: nat,
                       start: map<string, ToolResult>, byID: map<string, ToolResult>, result: ToolResult)
    requires DistinctIDs(calls) && i < |calls|
    requires KeyedByID(byID) && SettledTo(w, turn, calls, start, decisions, i, byID)
    requires calls[i].id !in byID && calls[i].id in decisions
    requires result == DecidedResult(w, turn, calls[i], decisions[calls[i].id]) && result.callID == calls[i].id
    ensures KeyedByID(byID[calls[i].id := result])
    ensures SettledTo(w, turn, calls, start, decisions, i + 1, byID[calls[i].id := result])
    ensures LeftOver(calls, i + 1, start, decisions) <==> LeftOver(calls, i, start, decisions)
  {
    var byID' := byID[calls[i].id := result];
    assert Lookup(byID, calls[i]) == Lookup(start, calls[i]);
    forall k | 0 <= k < |calls|
      ensures Lookup(byID', calls[k])
           == if k < i + 1 then After(w, turn, start, decisions, calls[k]) else Lookup(start, calls[k])
    {
      assert k != i ==> calls[k].id != calls[i].id;
    }
  }

  /** The call at place `i`, known already or not decided. */
  lemma LeftAsItIs(w: World, turn: nat, calls: seq<ToolCall>, decisions: map<string, Approval>, i: nat,
                   start: map<string, ToolResult>, byID: map<string, ToolResult>)
    requires i < |calls| && SettledTo(w, turn, calls, start, decisions, i, byID)
    requires calls[i].id in byID || calls[i].id !in decisions
    ensures SettledTo(w, turn, calls, start, decisions, i + 1, byID)
    ensures LeftOver(calls, i + 1, start, decisions) <==>
              LeftOver(calls, i, start, decisions) || calls[i].id !in byID
  {
    assert Lookup(byID, calls[i]) == Lookup(start, calls[i]);
  }

  lemma {:induction false} BatchSettles(w: World, turn: nat, calls: seq<ToolCall>, decisions: map<string, Approval>,
                                        i: nat, start: map<string, ToolResult>, byID: map<string, ToolResult>,
                                        stillPending: bool, log: Log)
    requires Calm(w) && DistinctIDs(calls) && i <= |calls|
    requires KeyedByID(byID) && SettledTo(w, turn, calls, start, decisions, i, byID)
    requires stillPending <==> LeftOver(calls, i, start, decisions)
    ensures var r := DecideCalls(w, turn, calls, decisions, i, byID, stillPending, log);
            && r.Resumed?
            && KeyedByID(r.byID)
            && SettledTo(w, turn, calls, start, decisions, |calls|, r.byID)
            && (r.stillPending <==> LeftOver(calls, |calls|, start, decisions))
    decreases |calls| - i
  {
    if i < |calls| {
      var tc := calls[i];
      if tc.id in byID || tc.id !in decisions {
        LeftAsItIs(w, turn, calls, decisions, i, start, byID);
      }
      if tc.id in byID {
        BatchSettles(w, turn, calls, decisions, i + 1, start, byID, stillPending, log);
      } else if tc.id !in decisions {
        BatchSettles(w, turn, calls, decisions, i + 1, start, byID, true, log);
      } else {
        var reply := ExecTool(w.toolbox, |log|, turn, tc, Some(decisions[tc.id]));
        DecidedAnyMoment(w, |log|, turn, tc, decisions[tc.id]);
        SettledOneMore(w, turn, calls, decisions, i, start, byID, reply.result);
        var log1 := log + [ToolStep(turn, i, tc, HowOf(reply))];
        BatchSettles(w, turn, calls, decisions, i + 1, start, byID[tc.id := reply.result], stillPending,
                     Send(w, turn, ToolResultEvent(reply.result), log1));
      }
    }
  }

  /** What one batch does: it answers exactly the undecided calls it has a decision
      for, in call order, and it reports whether any are left. */
  lemma BatchDoes(w: World, turn: nat, calls: seq<ToolCall>, decisions: map<string, Approval>,
                  start: map<string, ToolResult>)
    requires Calm(w) && DistinctIDs(calls) && KeyedByID(start)
    ensures var r := DecideCalls(w, turn, calls, decisions, 0, start, false, []);
            && r.Resumed?
            && KeyedByID(r.byID)
            && WorkedOn(r.log) == Todo(calls, 0, start, decisions)
            && (forall k :: 0 <= k < |calls| ==> Lookup(r.byID, calls[k]) == After(w, turn, start, decisions, calls[k]))
            && (r.stillPending <==> LeftOver(calls, |calls|, start, decisions))
  {
    assert [] + Todo(calls, 0, start, decisions) == Todo(calls, 0, start, decisions);
    BatchWorksOn(w, turn, calls, decisions, 0, start, false, [], Todo(calls, 0, start, decisions));
    BatchSettles(w, turn, calls, decisions, 0, start, start, false, []);
  }

  // ---- rounds of decisions ----

  /** The results a round leaves, in call order. */
  function Round(w: World, cp: Checkpoint, decisions: map<string, Approval>): ResumeReply {
    DecideCalls(w, cp.turn, cp.calls, decisions, 0, ByID(cp.results), false, [])
  }

  function RoundResults(w: World, cp: Checkpoint, decisions: map<string, Approval>): seq<ToolResult> {
    var r := Round(w, cp, decisions);
    if r.Resumed? then InCallOrder(cp.calls, r.byID) else cp.results
  }

  lemma {:induction false} SameLookupsSameResults(calls: seq<ToolCall>, m1: map<string, ToolResult>,
                                                  m2: map<string, ToolResult>)
    requires forall k :: 0 <= k < |calls| ==> Lookup(m1, calls[k]) == Lookup(m2, calls[k])
    ensures InCallOrder(calls, m1) == InCallOrder(calls, m2)
  {
    if calls != [] {
      var rest := calls[..|calls| - 1];
      forall k | 0 <= k < |rest|
        ensures Lookup(m1, rest[k]) == Lookup(m2, rest[k])
      {
        assert rest[k] == calls[k];
      }
      SameLookupsSameResults(rest, m1, m2);
      assert Lookup(m1, calls[|calls| - 1]) == Lookup(m2, calls[|calls| - 1]);
    }
  }

  /** A round, seen from the checkpoint it leaves. */
  lemma RoundLeaves(w: World, cp: Checkpoint, decisions: map<string, Approval>)
    requires Calm(w) && DistinctIDs(cp.calls)
    ensures var byID := ByID(RoundResults(w, cp, decisions));
            forall k :: 0 <= k < |cp.calls| ==>
              Lookup(byID, cp.calls[k]) == After(w, cp.turn, ByID(cp.results), decisions, cp.calls[k])
    ensures WorkedOn(Round(w, cp, decisions).log) == Todo(cp.calls, 0, ByID(cp.results), decisions)
  {
    ByIDKeyed(cp.results);
    BatchDoes(w, cp.turn, cp.calls, decisions, ByID(cp.results));
    var r := Round(w, cp, decisions);
    OrderedByID(cp.calls, r.byID);
    forall k | 0 <= k < |cp.calls|
      ensures Lookup(ByID(RoundResults(w, cp, decisions)), cp.calls[k]) == Lookup(r.byID, cp.calls[k])
    {
      assert cp.calls[k] in cp.calls;
    }
  }

  /** Decision batches compose: one round after another, by way of the checkpoint in
      between, is one round with both sets of decisions (the first one's counting
      where they overlap), down to the results and whether any call is left. */
  lemma RoundsCompose(w: World, cp: Checkpoint, d1: map<string, Approval>, d2: map<string, Approval>)
    requires Calm(w) && DistinctIDs(cp.calls)
    ensures var cp1 := cp.(results := RoundResults(w, cp, d1));
            && RoundResults(w, cp1, d2) == RoundResults(w, cp, d2 + d1)
            && Round(w, cp1, d2).Resumed? && Round(w, cp, d2 + d1).Resumed?
            && Round(w, cp1, d2).stillPending == Round(w, cp, d2 + d1).stillPending
  {
    var cp1 := cp.(results := RoundResults(w, cp, d1));
    RoundLeaves(w, cp, d1);
    ByIDKeyed(cp.results);
    ByIDKeyed(cp1.results);
    BatchDoes(w, cp.turn, cp.calls, d2, ByID(cp1.results));
    BatchDoes(w, cp.turn, cp.calls, d2 + d1, ByID(cp.results));
    var m1, m2 := Round(w, cp1, d2).byID, Round(w, cp, d2 + d1).byID;
    forall k | 0 <= k < |cp.calls|
      ensures Lookup(m1, cp.calls[k]) == Lookup(m2, cp.calls[k])
      ensures (cp.calls[k].id !in ByID(cp1.results) && cp.calls[k].id !in d2) <==>
              (cp.calls[k].id !in ByID(cp.results) && cp.calls[k].id !in d2 + d1)
    {
      var tc := cp.calls[k];
      assert Lookup(m1, tc) == After(w, cp.turn, ByID(cp1.results), d2, tc);
      assert Lookup(ByID(cp1.results), tc) == After(w, cp.turn, ByID(cp.results), d1, tc);
      assert Lookup(m2, tc) == After(w, cp.turn, ByID(cp.results), d2 + d1, tc);
    }
    SameLookupsSameResults(cp.calls, m1, m2);
  }

  /** The checkpoint after the first `k` rounds. */
  function AfterRounds(w: World, cp: Checkpoint, visits: seq<map<string, Approval>>, k: nat): Checkpoint
    requires k <= |visits|
  {
    if k == 0 then cp
    else
      var before := AfterRounds(w, cp, visits, k - 1);
      before.(results := RoundResults(w, before, visits[k - 1]))
  }

  /** Decided in one of the first `k` rounds. */
  predicate DecidedBy(visits: seq<map<string, Approval>>, k: nat, id: string)
    requires k <= |visits|
  {
    exists j :: 0 <= j < k && id in visits[j]
  }

  lemma {:induction false} KnownAfterRounds(w: World, cp: Checkpoint, visits: seq<map<string, Approval>>, k: nat,
                                            i: nat)
    requires Uncut(w) && KeepsCallIDs(w.toolbox) && DistinctIDs(cp.calls) && k <= |visits| && i < |cp.calls|
    ensures var cpk := AfterRounds(w, cp, visits, k);
            && cpk.calls == cp.calls && cpk.turn == cp.turn
            && (cp.calls[i].id in ByID(cpk.results) <==>
                  cp.calls[i].id in ByID(cp.results) || DecidedBy(visits, k, cp.calls[i].id))
  {
    if k > 0 {
      KnownAfterRounds(w, cp, visits, k - 1, i);
      RoundKnows(w, AfterRounds(w, cp, visits, k - 1), visits[k - 1], i);
      DecidedByOneMore(visits, k, cp.calls[i].id);
    }
  }

  /** A batch leaves what was known and what was decided. */
  lemma {:induction false} DecidedKnown(w: World, turn: nat, calls: seq<ToolCall>, decisions: map<string, Approval>,
                                        i: nat, byID: map<string, ToolResult>, stillPending: bool, log: Log)
    requires Uncut(w) && i <= |calls|
    ensures var r := DecideCalls(w, turn, calls, decisions, i, byID, stillPending, log);
            && r.Resumed?
            && (forall id :: id in byID ==> id in r.byID)
            && (forall id :: id in r.byID ==> id in byID || id in decisions)
            && (forall k :: i <= k < |calls| && calls[k].id in decisions ==> calls[k].id in r.byID)
    decreases |calls| - i
  {
    if i < |calls| {
      var tc := calls[i];
      if tc.id in byID {
        DecidedKnown(w, turn, calls, decisions, i + 1, byID, stillPending, log);
      } else if tc.id !in decisions {
        DecidedKnown(w, turn, calls, decisions, i + 1, byID, true, log);
      } else {
        var reply := ExecTool(w.toolbox, |log|, turn, tc, Some(decisions[tc.id]));
        var log1 := log + [ToolStep(turn, i, tc, HowOf(reply))];
        DecidedKnown(w, turn, calls, decisions, i + 1, byID[tc.id := reply.result], stillPending,
                     Send(w, turn, ToolResultEvent(reply.result), log1));
      }
    }
  }

  /** After a round, if ids are kept, the results on record are those from before and
      those decided. */
  lemma RoundKnows(w: World, cp: Checkpoint, decisions: map<string, Approval>, i: nat)
    requires Uncut(w) && KeepsCallIDs(w.toolbox) && i < |cp.calls|
    ensures var id := cp.calls[i].id;
            id in ByID(RoundResults(w, cp, decisions)) <==> id in ByID(cp.results) || id in decisions
  {
    ByIDKeyed(cp.results);
    DecideCallsAnswers(w, cp.turn, cp.calls, decisions, 0, ByID(cp.results), false, []);
    DecidedKnown(w, cp.turn, cp.calls, decisions, 0, ByID(cp.results), false, []);
    OrderedByID(cp.calls, Round(w, cp, decisions).byID);
    assert cp.calls[i] in cp.calls;
  }

  lemma DecidedByOneMore(visits: seq<map<string, Approval>>, k: nat, id: string)
    requires 0 < k <= |visits|
    ensures DecidedBy(visits, k, id) <==> DecidedBy(visits, k - 1, id) || id in visits[k - 1]
  {
  }

  lemma {:induction false} TodoHas(calls: seq<ToolCall>, i: nat, byID: map<string, ToolResult>,
                                   decisions: map<string, Approval>, k: nat)
    requires i <= |calls|
    ensures var todo := Todo(calls, i, byID, decisions);
            && (k in todo <==> i <= k < |calls| && calls[k].id !in byID && calls[k].id in decisions)
            && (forall a :: 0 <= a < |todo| ==> i <= todo[a])
            && (forall a, b :: 0 <= a < b < |todo| ==> todo[a] < todo[b])
    decreases |calls| - i
  {
    if i < |calls| {
      TodoHas(calls, i + 1, byID, decisions, k);
    }
  }

  /** Whatever a hook does to results, a round works on exactly the calls it decides that
      have no result on record under their id, each once, in call order. */
  lemma RoundWorksOn(w: World, cp: Checkpoint, decisions: map<string, Approval>, i: nat)
    requires Uncut(w) && DistinctIDs(cp.calls) && i < |cp.calls|
    ensures Round(w, cp, decisions).Resumed?
    ensures var worked := WorkedOn(Round(w, cp, decisions).log);
            && (i in worked <==> cp.calls[i].id in decisions && forall r :: r in cp.results ==>
                r.callID != cp.calls[i].id)
            && (forall a, b :: 0 <= a < b < |worked| ==> worked[a] < worked[b])
  {
    var todo := Todo(cp.calls, 0, ByID(cp.results), decisions);
    assert [] + todo == todo;
    BatchWorksOn(w, cp.turn, cp.calls, decisions, 0, ByID(cp.results), false, [], todo);
    TodoHas(cp.calls, 0, ByID(cp.results), decisions, i);
    OnRecord(cp.results, cp.calls[i].id);
  }

  /** Of several results on record under one id the latest counts. */
  lemma {:induction false} LatestCounts(results: seq<ToolResult>, k: nat)
    requires k < |results| && forall j :: k < j < |results| ==> results[j].callID != results[k].callID
    ensures results[k].callID in ByID(results) && ByID(results)[results[k].callID] == results[k]
    decreases |results|
  {
    if k < |results| - 1 {
      LatestCounts(results[..|results| - 1], k);
    }
  }

  lemma {:induction false} OnRecord(results: seq<ToolResult>, id: string)
    ensures id in ByID(results) <==> exists r :: r in results && r.callID == id
    decreases |results|
  {
    if results != [] {
      var n := |results| - 1;
      OnRecord(results[..n], id);
      assert results == results[..n] + [results[n]];
    }
  }

  lemma {:induction false} SameCalls(w: World, cp: Checkpoint, visits: seq<map<string, Approval>>, k: nat)
    requires k <= |visits|
    ensures AfterRounds(w, cp, visits, k).calls == cp.calls
  {
    if k > 0 {
      SameCalls(w, cp, visits, k - 1);
    }
  }

  /** Exactly once, if ids are kept: over any sequence of rounds a call is worked on
      (executed or denied) in the first round that decides it, there a single time, and
      in no other; a call already answered at the pause never is. */
  lemma WorkedOnExactlyOnce(w: World, cp: Checkpoint, visits: seq<map<string, Approval>>, k: nat, i: nat)
    requires Uncut(w) && KeepsCallIDs(w.toolbox) && DistinctIDs(cp.calls) && k < |visits| && i < |cp.calls|
    ensures var worked := WorkedOn(Round(w, AfterRounds(w, cp, visits, k), visits[k]).log);
            && (i in worked <==>
                  && cp.calls[i].id !in ByID(cp.results)
                  && cp.calls[i].id in visits[k]
                  && !DecidedBy(visits, k, cp.calls[i].id))
            && (forall a, b :: 0 <= a < b < |worked| ==> worked[a] < worked[b])
  {
    var cpk := AfterRounds(w, cp, visits, k);
    KnownAfterRounds(w, cp, visits, k, i);
    RoundWorksOn(w, cpk, visits[k], i);
    OnRecord(cpk.results, cp.calls[i].id);
  }

  // ---- what is pending ----

  /** The calls that are, or are not, among the results, in call order. */
  function Select(calls: seq<ToolCall>, byID: map<string, ToolResult>, answered: bool): seq<ToolCall> {
    if calls == [] then []
    else
      var last := calls[|calls| - 1];
      Select(calls[..|calls| - 1], byID, answered) + if (last.id in byID) == answered then [last] else []
  }

  /** Pending, as the checkpoint computes it: a set of finished ids, then a filter. */
  method Pending(cp: Checkpoint) returns (out: seq<ToolCall>)
    ensures out == Select(cp.calls, ByID(cp.results), false)
  {
    var done: set<string> := {};
    for k := 0 to |cp.results|
      invariant done == ByID(cp.results[..k]).Keys
    {
      assert cp.results[..k + 1][..k] == cp.results[..k];
      done := done + {cp.results[k].callID};
    }
    assert cp.results[..|cp.results|] == cp.results;
    out := [];
    for k := 0 to |cp.calls|
      invariant out == Select(cp.calls[..k], ByID(cp.results), false)
    {
      assert cp.calls[..k + 1][..k] == cp.calls[..k];
      if cp.calls[k].id !in done {
        out := out + [cp.calls[k]];
      }
    }
    assert cp.calls[..|cp.calls|] == cp.calls;
  }

  /** Completed and pending calls partition the calls, and the results of a round are
      the results of the completed ones, one for one and in call order. */
  lemma CompletedAndPendingPartition(calls: seq<ToolCall>, byID: map<string, ToolResult>)
    requires KeyedByID(byID)
    ensures IDs(InCallOrder(calls, byID), Select(calls, byID, true))
    ensures multiset(Select(calls, byID, true)) + multiset(Select(calls, byID, false)) == multiset(calls)
    ensures forall tc :: tc in Select(calls, byID, false) <==> tc in calls && tc.id !in byID
  {
    CompletedAre(calls, byID);
    PartitionCounts(calls, byID);
    PendingAre(calls, byID);
  }

  lemma {:induction false} CompletedAre(calls: seq<ToolCall>, byID: map<string, ToolResult>)
    requires KeyedByID(byID)
    ensures IDs(InCallOrder(calls, byID), Select(calls, byID, true))
  {
    if calls != [] {
      CompletedAre(calls[..|calls| - 1], byID);
    }
  }

  lemma {:induction false} PartitionCounts(calls: seq<ToolCall>, byID: map<string, ToolResult>)
    ensures multiset(Select(calls, byID, true)) + multiset(Select(calls, byID, false)) == multiset(calls)
  {
    if calls != [] {
      var rest, last := calls[..|calls| - 1], calls[|calls| - 1];
      assert calls == rest + [last];
      PartitionCounts(rest, byID);
    }
  }

  lemma {:induction false} PendingAre(calls: seq<ToolCall>, byID: map<string, ToolResult>)
    ensures forall tc :: tc in Select(calls, byID, false) <==> tc in calls && tc.id !in byID
  {
    if calls != [] {
      var rest, last := calls[..|calls| - 1], calls[|calls| - 1];
      assert calls == rest + [last];
      PendingAre(rest, byID);
    }
  }

  // ---- when a call is worked on twice ----

  /** Call `i` is worked on in round `k`. */
  ghost predicate WorkedIn(w: World, cp: Checkpoint, visits: seq<map<string, Approval>>, k: nat, i: nat)
    requires k < |visits|
  {
    i in WorkedOn(Round(w, AfterRounds(w, cp, visits, k), visits[k]).log)
  }

  /** No result on record before round `k` is under the id. */
  ghost predicate Unrecorded(w: World, cp: Checkpoint, visits: seq<map<string, Approval>>, k: nat, id: string)
    requires k <= |visits|
  {
    forall r :: r in AfterRounds(w, cp, visits, k).results ==> r.callID != id
  }

  /** Whatever hooks do to results: a call is worked on again, in round `k` after round
      `j`, if and only if both rounds decide it and no result was on record under its id
      before either. Its own answer from round `j` was, unless it was renamed. */
  lemma WorkedOnAgainIff(w: World, cp: Checkpoint, visits: seq<map<string, Approval>>, j: nat, k: nat, i: nat)
    requires Uncut(w) && DistinctIDs(cp.calls) && j < k < |visits| && i < |cp.calls|
    ensures WorkedIn(w, cp, visits, j, i) && WorkedIn(w, cp, visits, k, i) <==>
              && cp.calls[i].id in visits[j] && Unrecorded(w, cp, visits, j, cp.calls[i].id)
              && cp.calls[i].id in visits[k] && Unrecorded(w, cp, visits, k, cp.calls[i].id)
  {
    SameCalls(w, cp, visits, j);
    SameCalls(w, cp, visits, k);
    RoundWorksOn(w, AfterRounds(w, cp, visits, j), visits[j], i);
    RoundWorksOn(w, AfterRounds(w, cp, visits, k), visits[k], i);
  }

  /** Two rounds, in terms of the checkpoint and the results the first one leaves. */
  lemma WorkedOnTwiceIff(w: World, cp: Checkpoint, d1: map<string, Approval>, d2: map<string, Approval>, i: nat)
    requires Uncut(w) && DistinctIDs(cp.calls) && i < |cp.calls|
    ensures var id, cp1 := cp.calls[i].id, cp.(results := RoundResults(w, cp, d1));
            i in WorkedOn(Round(w, cp, d1).log) && i in WorkedOn(Round(w, cp1, d2).log) <==>
              && id !in ByID(cp.results) && id in d1 && id in d2
              && forall r :: r in cp1.results ==> r.callID != id
  {
    RoundWorksOn(w, cp, d1, i);
    RoundWorksOn(w, cp.(results := RoundResults(w, cp, d1)), d2, i);
    OnRecord(cp.results, cp.calls[i].id);
  }

  /** A hook that keeps ids makes it impossible, whatever the tools, the checkpoint and
      the decisions. */
  lemma KeptIDsNeverRepeat(w: World, cp: Checkpoint, visits: seq<map<string, Approval>>, j: nat, k: nat, i: nat)
    requires Uncut(w) && KeepsCallIDs(w.toolbox) && DistinctIDs(cp.calls) && j < k < |visits| && i < |cp.calls|
    ensures !(WorkedIn(w, cp, visits, j, i) && WorkedIn(w, cp, visits, k, i))
  {
    WorkedOnExactlyOnce(w, cp, visits, j, i);
    WorkedOnExactlyOnce(w, cp, visits, k, i);
    assert cp.calls[i].id in visits[j] ==> DecidedBy(visits, k, cp.calls[i].id);
  }

  /** A world with this post-tool hook, where every tool returns `r`. */
  function Hooked(h: (nat, ToolCall, ToolResult) -> ToolResult, r: ToolResult): World {
    var toolbox := Toolbox(
      Some((name: string) => true), None, None, None,
      (n: nat, turn: nat, name: string, input: string) => Returned(r), Some(h));
    World((n: nat, turn: nat, attempt: nat, request: seq<Message>) => Refused(AuthError), None, None,
          (n: nat, msgs: seq<Message>) => 0, toolbox, (s: Pool) => 0, (n: nat) => true, (n: nat) => None)
  }

  const YES := Approval(true, "", None)

  /** And it takes such a hook: one that puts some result under another id than its
      call's has a world where that call is worked on twice. */
  lemma RenamingHookRepeats(h: (nat, ToolCall, ToolResult) -> ToolResult, tc: ToolCall, r: ToolResult)
    requires r.callID == tc.id && h(0, tc, r).callID !in {tc.id, ""}
    ensures var w, other := Hooked(h, r), ToolCall(tc.id + "'", "", "");
            var cp, yes := Checkpoint([], 0, ZERO_USAGE, "", [tc, other], []), map[tc.id := YES];
            && Uncut(w) && DistinctIDs(cp.calls) && w.toolbox.postToolUse == Some(h)
            && Round(w, cp, yes).Resumed? && Round(w, cp, yes).stillPending
            && WorkedIn(w, cp, [yes, yes], 0, 0) && WorkedIn(w, cp, [yes, yes], 1, 0)
  {
    var w, other := Hooked(h, r), ToolCall(tc.id + "'", "", "");
    var cp, yes := Checkpoint([], 0, ZERO_USAGE, "", [tc, other], []), map[tc.id := YES];
    assert other.id != tc.id by {
      assert |other.id| == |tc.id| + 1;
    }
    RenamedRound(h, cp.calls, r);
    RenamedOrder(cp.calls, map[tc.id := h(0, tc, r)]);
    assert AfterRounds(w, cp, [yes, yes], 0) == cp;
    assert AfterRounds(w, cp, [yes, yes], 1) == cp.(results := [h(0, tc, r)]);
    WorkedOnAgainIff(w, cp, [yes, yes], 0, 1, 0);
  }

  lemma RenamedOrder(calls: seq<ToolCall>, byID: map<string, ToolResult>)
    requires |calls| == 2 && calls[0].id in byID && calls[1].id !in byID
    ensures InCallOrder(calls, byID) == [byID[calls[0].id]]
  {
    assert calls[..1] == [calls[0]] && calls[..1][..0] == [];
    assert InCallOrder(calls[..1], byID) == [byID[calls[0].id]];
  }

  lemma RenamedRound(h: (nat, ToolCall, ToolResult) -> ToolResult, calls: seq<ToolCall>, r: ToolResult)
    requires |calls| == 2 && calls[0].id != calls[1].id
    requires r.callID == calls[0].id && h(0, calls[0], r).callID != ""
    ensures var reply := DecideCalls(Hooked(h, r), 0, calls, map[calls[0].id := YES], 0, map[], false, []);
            reply.Resumed? && reply.stillPending && reply.byID == map[calls[0].id := h(0, calls[0], r)]
  {
    var w, yes := Hooked(h, r), map[calls[0].id := YES];
    var log0: Log := [];
    var got := h(0, calls[0], r);
    var reply := ExecTool(w.toolbox, |log0|, 0, calls[0], Some(yes[calls[0].id]));
    assert calls[0].(input := calls[0].input) == calls[0] && r.(callID := calls[0].id) == r;
    assert reply.result == got;
    var log1 := log0 + [ToolStep(0, 0, calls[0], HowOf(reply))];
    var log2 := Send(w, 0, ToolResultEvent(got), log1);
    var known := map[calls[0].id := got];
    assert DecideCalls(w, 0, calls, yes, 2, known, true, log2) == Resumed(known, true, log2);
    assert DecideCalls(w, 0, calls, yes, 1, known, false, log2) == Resumed(known, true, log2);
    assert DecideCalls(w, 0, calls, yes, 0, map[], false, log0) == DecideCalls(w, 0, calls, yes, 1, known, false, log2);
  }

  /** Some call is worked on twice. */
  ghost predicate Repeats(w: World, cp: Checkpoint, visits: seq<map<string, Approval>>, j: nat, k: nat, i: nat) {
    && Uncut(w) && DistinctIDs(cp.calls) && j < k < |visits| && i < |cp.calls|
    && WorkedIn(w, cp, visits, j, i) && WorkedIn(w, cp, visits, k, i)
  }

  ghost predicate KeepsIDs(h: (nat, ToolCall, ToolResult) -> ToolResult) {
    forall n: nat, tc: ToolCall, r: ToolResult :: r.callID == tc.id ==> h(n, tc, r).callID in {tc.id, ""}
  }

  /** Which post-tool hooks make it impossible: of those that treat a result alike at any
      moment, exactly those that keep or blank its id. */
  lemma HookRepeatsIff(h: (nat, ToolCall, ToolResult) -> ToolResult)
    requires forall n: nat, tc: ToolCall, r: ToolResult :: h(n, tc, r) == h(0, tc, r)
    ensures (exists w: World, cp, visits, j: nat, k: nat, i: nat ::
               w.toolbox.postToolUse == Some(h) && Repeats(w, cp, visits, j, k, i))
       <==> !KeepsIDs(h)
  {
    if KeepsIDs(h) {
      forall w: World, cp, visits, j: nat, k: nat, i: nat | w.toolbox.postToolUse == Some(h)
        ensures !Repeats(w, cp, visits, j, k, i)
      {
        if j < k < |visits| && i < |cp.calls| && Uncut(w) && DistinctIDs(cp.calls) {
          KeptIDsNeverRepeat(w, cp, visits, j, k, i);
        }
      }
    } else {
      var n: nat, tc: ToolCall, r: ToolResult :| r.callID == tc.id && h(n, tc, r).callID !in {tc.id, ""};
      assert h(n, tc, r) == h(0, tc, r);
      RenamingHookRepeats(h, tc, r);
      var cp := Checkpoint([], 0, ZERO_USAGE, "", [tc, ToolCall(tc.id + "'", "", "")], []);
      assert Repeats(Hooked(h, r), cp, [map[tc.id := YES], map[tc.id := YES]], 0, 1, 0);
    }
  }

  /** A hook like that, and a call it has worked on twice. */
  lemma RenamedCallRunsTwice()
    ensures var h := (n: nat, tc: ToolCall, r: ToolResult) => r.(callID := "renamed");
            var w := Hooked(h, ToolResult("a", Plain(""), false));
            var cp := Checkpoint([], 0, ZERO_USAGE, "", [ToolCall("a", "t", ""), ToolCall("a'", "", "")], []);
            var yes := map["a" := YES];
            && !KeepsCallIDs(w.toolbox)
            && WorkedIn(w, cp, [yes, yes], 0, 0) && WorkedIn(w, cp, [yes, yes], 1, 0)
  {
    var h := (n: nat, tc: ToolCall, r: ToolResult) => r.(callID := "renamed");
    var tc, r := ToolCall("a", "t", ""), ToolResult("a", Plain(""), false);
    assert h(0, tc, r).callID == "renamed";
    RenamingHookRepeats(h, tc, r);
    assert tc.id + "'" == "a'";
    assert Hooked(h, r).toolbox.postToolUse.value(0, tc, r).callID == "renamed";
  }
}

/** The doom-loop guard over a whole run: what the consecutive-call counter, which
    survives from turn to turn, lets through. */
module RepeatGuard {
  import opened Gage
  import opened Accumulate
  import opened ToolCalls
  import opened RunLog
  import opened Goroutines
  import opened AgentLoop
  import opened Batches
  import opened LogFacts

  /** The calls the model has issued, over all turns. */
  function IssuedOf(log: Log): seq<ToolCall> {
    if log == [] then []
    else
      var rest := IssuedOf(log[..|log| - 1]);
      match log[|log| - 1]
      case Issued(_, calls) => rest + calls
      case _ => rest
  }

  /** The calls of the latest turn that issued any. */
  function LatestOf(log: Log): seq<ToolCall> {
    if log == [] then []
    else
      match log[|log| - 1]
      case Issued(_, calls) => calls
      case _ => LatestOf(log[..|log| - 1])
  }

  /** How many calls in a row, up to position `k`, have the signature of call `k`. */
  function Streak(calls: seq<ToolCall>, k: nat): nat
    requires k < |calls|
  {
    if k == 0 || Signature(calls[k - 1]) != Signature(calls[k]) then 1 else Streak(calls, k - 1) + 1
  }

  /** Where the call of tool step `p` stands among all issued calls. */
  function PlaceOf(log: Log, p: nat): int
    requires p < |log| && log[p].ToolStep?
  {
    |IssuedOf(log[..p])| - |LatestOf(log[..p])| + log[p].index
  }

  /** From position `from` on only calls early in their streak are worked on, each at
      most once. */
  ghost predicate Respected(limit: nat, log: Log, from: nat) {
    && (forall p: nat :: from <= p < |log| && log[p].ToolStep? ==> WithinStreak(limit, log, p))
    && (forall p: nat, q: nat :: from <= p < q < |log| && log[p].ToolStep? && log[q].ToolStep? ==> Apart(log, p, q))
  }

  ghost predicate Apart(log: Log, p: nat, q: nat)
    requires p < |log| && log[p].ToolStep? && q < |log| && log[q].ToolStep?
  {
    PlaceOf(log, p) != PlaceOf(log, q)
  }

  ghost predicate WithinStreak(limit: nat, log: Log, p: nat)
    requires p < |log| && log[p].ToolStep?
  {
    var issued, at := IssuedOf(log[..p]), PlaceOf(log, p);
    0 <= at < |issued| && issued[at] == log[p].call && Streak(issued, at) <= limit
  }

  /** No streak has run past the warning. */
  ghost predicate NoneTooLong(limit: nat, calls: seq<ToolCall>) {
    forall k: nat :: k < |calls| ==> Streak(calls, k) <= limit + 1
  }

  /** After the first `at` calls the counter says how long the current streak is. */
  ghost predicate Tracks(calls: seq<ToolCall>, at: nat, sig: string, count: nat)
    requires at <= |calls|
  {
    if at == 0 then sig == "" && count == 0
    else sig == Signature(calls[at - 1]) && count == Streak(calls, at - 1)
  }

  lemma SignatureNonEmpty(tc: ToolCall)
    ensures Signature(tc) != ""
  {
    assert Signature(tc)[|tc.name|] == '\0';
  }

  /** Calls count as the same if and only if they have the same name and the same input, of
      tools whose names hold no NUL. */
  lemma SameCallIff(a: ToolCall, b: ToolCall)
    requires '\0' !in a.name && '\0' !in b.name
    ensures Signature(a) == Signature(b) <==> a.name == b.name && a.input == b.input
  {
    var s, t := Signature(a), Signature(b);
    assert s == a.name + ("\0" + a.input) && t == b.name + ("\0" + b.input);
    assert s[|a.name|] == '\0' && t[|b.name|] == '\0';
    if s == t {
      assert forall i :: 0 <= i < |a.name| ==> s[i] == a.name[i] && a.name[i] in a.name;
      assert forall i :: 0 <= i < |b.name| ==> t[i] == b.name[i] && b.name[i] in b.name;
      assert s[..|a.name|] == a.name && t[..|b.name|] == b.name;
      assert s[|a.name| + 1..] == a.input && t[|b.name| + 1..] == b.input;
    }
  }

  /** With a NUL in a name, different calls can count as the same. */
  lemma NamesWithNULCollide()
    ensures Signature(ToolCall("1", "a\0", "b")) == Signature(ToolCall("2", "a", "\0b"))
  {
  }

  lemma {:induction false} StreakPrefix(a: seq<ToolCall>, b: seq<ToolCall>, k: nat)
    requires k < |a|
    ensures Streak(a + b, k) == Streak(a, k)
  {
    if k > 0 {
      StreakPrefix(a, b, k - 1);
    }
  }

  /** What the guard answers in place of call `k`, if anything. */
  function Warning(limit: nat, calls: seq<ToolCall>, k: nat): Option<ToolResult>
    requires k < |calls|
  {
    if Streak(calls, k) == limit + 1 then Some(ErrorResult(calls[k].id, LoopWarning(calls[k].name, limit + 1)))
    else None
  }

  ghost predicate OverrunAt(limit: nat, calls: seq<ToolCall>, k: nat, name: string) {
    k < |calls| && Streak(calls, k) == limit + 2 && calls[k].name == name
  }

  /** The guard's reply on the calls from `at` on is right about every one of them. */
  ghost predicate Judged(limit: nat, calls: seq<ToolCall>, at: nat, r: GuardReply)
    requires at <= |calls|
  {
    match r
    case Passed(forced, sig, count) =>
      && |forced| == |calls| - at
      && Tracks(calls, |calls|, sig, count)
      && (forall k: nat :: at <= k < |calls| ==>
            Streak(calls, k) <= limit + 1 && forced[k - at] == Warning(limit, calls, k))
    case Tripped(name, n) =>
      n == limit + 2 && exists k: nat :: at <= k && OverrunAt(limit, calls, k, name)
  }

  lemma {:induction false} GuardJudges(limit: nat, calls: seq<ToolCall>, at: nat, sig: string, count: nat)
    requires at <= |calls|
    requires Tracks(calls, at, sig, count) && count <= limit + 1
    ensures Judged(limit, calls, at, Guard(limit, calls[at..], sig, count))
    decreases |calls| - at
  {
    if at < |calls| {
      var tc := calls[at];
      assert calls[at..][0] == tc && calls[at..][1..] == calls[at + 1..];
      SignatureNonEmpty(tc);
      var n := if Signature(tc) == sig then count + 1 else 1;
      assert Streak(calls, at) == n;
      if n <= limit + 1 {
        GuardJudges(limit, calls, at + 1, Signature(tc), n);
        GuardUnrolls(limit, calls, at, sig, count, n);
      } else {
        assert OverrunAt(limit, calls, at, tc.name);
      }
    }
  }

  lemma GuardUnrolls(limit: nat, calls: seq<ToolCall>, at: nat, sig: string, count: nat, n: nat)
    requires at < |calls| && Streak(calls, at) == n
    requires n == (if Signature(calls[at]) == sig then count + 1 else 1) && n <= limit + 1
    requires Judged(limit, calls, at + 1, Guard(limit, calls[at + 1..], Signature(calls[at]), n))
    ensures Judged(limit, calls, at, Guard(limit, calls[at..], sig, count))
  {
    assert calls[at..][0] == calls[at] && calls[at..][1..] == calls[at + 1..];
    var rest := Guard(limit, calls[at + 1..], Signature(calls[at]), n);
    var whole := Guard(limit, calls[at..], sig, count);
    assert whole == Prefixed([Warning(limit, calls, at)], rest);
    match rest
    case Tripped(name, _) =>
      var k: nat :| at + 1 <= k && OverrunAt(limit, calls, k, name);
      assert at <= k;
    case Passed(forced, _, _) =>
      forall k: nat | at <= k < |calls|
        ensures Streak(calls, k) <= limit + 1 && whole.forced[k - at] == Warning(limit, calls, k)
      {
        if k > at {
          assert whole.forced[k - at] == forced[k - (at + 1)];
        }
      }
  }

  /** What the guard decides about one turn, given all calls issued before. */
  lemma GuardCounts(limit: nat, before: seq<ToolCall>, calls: seq<ToolCall>, sig: string, count: nat)
    requires Tracks(before, |before|, sig, count) && NoneTooLong(limit, before)
    ensures var r := Guard(limit, calls, sig, count);
            && Judged(limit, before + calls, |before|, r)
            && (r.Passed? ==> NoneTooLong(limit, before + calls))
  {
    var all := before + calls;
    assert all[|before|..] == calls;
    forall k: nat | k < |before|
      ensures Streak(all, k) == Streak(before, k)
    {
      StreakPrefix(before, calls, k);
    }
    GuardJudges(limit, all, |before|, sig, count);
  }

  // ---- the log as it grows ----

  ghost predicate NoneIssuedSince(before: Log, after: Log) {
    before <= after && forall k :: |before| <= k < |after| ==> !after[k].Issued?
  }

  lemma {:induction false} IssuedSame(before: Log, after: Log)
    requires NoneIssuedSince(before, after)
    ensures IssuedOf(after) == IssuedOf(before) && LatestOf(after) == LatestOf(before)
    decreases |after|
  {
    if |after| == |before| {
      assert after == before;
    } else {
      IssuedSame(before, after[..|after| - 1]);
    }
  }

  /** What is said of a tool step depends on the log up to it only. */
  lemma SamePast(limit: nat, before: Log, after: Log, p: nat)
    requires before <= after && p < |before| && before[p].ToolStep?
    ensures PlaceOf(after, p) == PlaceOf(before, p)
    ensures WithinStreak(limit, after, p) <==> WithinStreak(limit, before, p)
  {
    assert after[..p] == before[..p] && after[p] == before[p];
  }

  /** Steps other than tool work leave the promise as it is. */
  lemma RespectedWithoutWork(limit: nat, before: Log, after: Log, from: nat)
    requires Respected(limit, before, from) && from <= |before| && before <= after
    requires forall k :: |before| <= k < |after| ==> !after[k].ToolStep?
    ensures Respected(limit, after, from)
  {
    forall p: nat | from <= p < |after| && after[p].ToolStep?
      ensures WithinStreak(limit, after, p)
    {
      SamePast(limit, before, after, p);
    }
    forall p: nat, q: nat | from <= p < q < |after| && after[p].ToolStep? && after[q].ToolStep?
      ensures Apart(after, p, q)
    {
      SamePast(limit, before, after, p);
      SamePast(limit, before, after, q);
      assert Apart(before, p, q);
    }
  }

  lemma RespectedQuietly(limit: nat, before: Log, after: Log, from: nat)
    requires Respected(limit, before, from) && from <= |before| && NoneIssuedSince(before, after)
    requires forall k :: |before| <= k < |after| ==> !after[k].ToolStep?
    ensures Respected(limit, after, from)
    ensures IssuedOf(after) == IssuedOf(before)
  {
    IssuedSame(before, after);
    RespectedWithoutWork(limit, before, after, from);
  }

  /** Issued calls lie behind one another: a tool step's place is below the total. */
  lemma PlacesBelow(limit: nat, log: Log, p: nat)
    requires p < |log| && log[p].ToolStep? && WithinStreak(limit, log, p)
    ensures PlaceOf(log, p) < |IssuedOf(log)|
  {
    IssuedGrows(log[..p], log);
  }

  lemma {:induction false} IssuedGrows(a: Log, b: Log)
    requires a <= b
    ensures |IssuedOf(a)| <= |IssuedOf(b)|
    decreases |b|
  {
    if |a| == |b| {
      assert a == b;
    } else {
      IssuedGrows(a, b[..|b| - 1]);
    }
  }

  /** What the guard forces is right for a batch issued after `before`. */
  ghost predicate ForcedRight(limit: nat, before: Log, b: Batch) {
    && |b.forced| == |b.calls|
    && NoneTooLong(limit, IssuedOf(before) + b.calls)
    && forall k: nat :: |IssuedOf(before)| <= k < |IssuedOf(before) + b.calls| ==>
         b.forced[k - |IssuedOf(before)|] == Warning(limit, IssuedOf(before) + b.calls, k)
  }

  lemma NoneIssuedInBatch(b: Batch, start: Log, after: Log)
    requires |b.forced| == |b.calls| && BatchLog(b, start, after)
    ensures NoneIssuedSince(start, after)
  {
    forall k: nat | |start| <= k < |after|
      ensures !after[k].Issued?
    {
      assert BatchStep(b, after[k], k);
    }
  }

  /** One batch keeps the guard's promise. */
  lemma BatchRespected(limit: nat, before: Log, b: Batch, after: Log, from: nat)
    requires Respected(limit, before, from) && from <= |before| && ForcedRight(limit, before, b)
    requires BatchLog(b, before + [Issued(b.turn, b.calls)], after)
    ensures Respected(limit, after, from)
    ensures IssuedOf(after) == IssuedOf(before) + b.calls
  {
    var start := before + [Issued(b.turn, b.calls)];
    assert start[..|before|] == before;
    NoneIssuedInBatch(b, start, after);
    IssuedSame(start, after);
    forall p: nat | from <= p < |after| && after[p].ToolStep?
      ensures WithinStreak(limit, after, p)
    {
      if p < |before| {
        SamePast(limit, before, after, p);
      } else {
        StepWithinStreak(limit, before, b, after, p);
      }
    }
    forall p: nat, q: nat | from <= p < q < |after| && after[p].ToolStep? && after[q].ToolStep?
      ensures Apart(after, p, q)
    {
      StepsApart(limit, before, b, after, from, p, q);
    }
  }

  /** Where a step of the batch stands. */
  lemma PlaceInBatch(before: Log, b: Batch, after: Log, p: nat)
    requires |b.forced| == |b.calls| && BatchLog(b, before + [Issued(b.turn, b.calls)], after)
    requires |before| <= p < |after| && after[p].ToolStep?
    ensures p > |before| && PlaceOf(after, p) == |IssuedOf(before)| + after[p].index
    ensures IssuedOf(after[..p]) == IssuedOf(before) + b.calls
  {
    var start := before + [Issued(b.turn, b.calls)];
    assert start[..|before|] == before;
    assert p >= |start|;
    NoneIssuedInBatch(b, start, after);
    IssuedSame(start, after[..p]);
  }

  lemma StepsApart(limit: nat, before: Log, b: Batch, after: Log, from: nat, p: nat, q: nat)
    requires Respected(limit, before, from) && |b.forced| == |b.calls|
    requires BatchLog(b, before + [Issued(b.turn, b.calls)], after)
    requires from <= p < q < |after| && after[p].ToolStep? && after[q].ToolStep?
    ensures Apart(after, p, q)
  {
    if q < |before| {
      SamePast(limit, before, after, p);
      SamePast(limit, before, after, q);
      assert Apart(before, p, q);
    } else {
      PlaceInBatch(before, b, after, q);
      if p < |before| {
        SamePast(limit, before, after, p);
        assert WithinStreak(limit, before, p);
        PlacesBelow(limit, before, p);
      } else {
        PlaceInBatch(before, b, after, p);
      }
    }
  }

  lemma StepWithinStreak(limit: nat, before: Log, b: Batch, after: Log, p: nat)
    requires ForcedRight(limit, before, b)
    requires BatchLog(b, before + [Issued(b.turn, b.calls)], after)
    requires |before| <= p < |after| && after[p].ToolStep?
    ensures WithinStreak(limit, after, p)
  {
    PlaceInBatch(before, b, after, p);
    assert BatchStep(b, after[p], p);
    var k := |IssuedOf(before)| + after[p].index;
    assert b.forced[k - |IssuedOf(before)|] == Warning(limit, IssuedOf(before) + b.calls, k);
  }

  // ---- the warnings ----

  /** If call `k` of the turn issued at `p` is the one past the limit, the consumer was
      handed the warning in its place. */
  ghost predicate Warned(limit: nat, log: Log, p: nat, k: nat)
    requires p < |log| && log[p].Issued? && k < |log[p].calls|
  {
    var issued, call := IssuedOf(log[..p]) + log[p].calls, log[p].calls[k];
    Streak(issued, |IssuedOf(log[..p])| + k) == limit + 1 ==>
      HandedOver(log[..p], log, log[p].turn, ErrorResult(call.id, LoopWarning(call.name, limit + 1)))
  }

  ghost predicate AllWarned(limit: nat, log: Log, from: nat) {
    forall p: nat, k: nat :: from <= p < |log| && log[p].Issued? && k < |log[p].calls| ==> Warned(limit, log, p, k)
  }

  lemma StillWarned(limit: nat, before: Log, after: Log, p: nat, k: nat)
    requires before <= after && p < |before| && before[p].Issued? && k < |before[p].calls|
    requires Warned(limit, before, p, k)
    ensures Warned(limit, after, p, k)
  {
    assert after[..p] == before[..p] && after[p] == before[p];
    var call := before[p].calls[k];
    if Streak(IssuedOf(before[..p]) + before[p].calls, |IssuedOf(before[..p])| + k) == limit + 1 {
      StillHanded(before[..p], before, after, before[p].turn, ErrorResult(call.id, LoopWarning(call.name, limit + 1)));
    }
  }

  lemma WarnedQuietly(limit: nat, before: Log, after: Log, from: nat)
    requires AllWarned(limit, before, from) && NoneIssuedSince(before, after)
    ensures AllWarned(limit, after, from)
  {
    forall p: nat, k: nat | from <= p < |after| && after[p].Issued? && k < |after[p].calls|
      ensures Warned(limit, after, p, k)
    {
      assert before[p] == after[p];
      StillWarned(limit, before, after, p, k);
    }
  }

  /** A batch that was not cut short handed over its warnings. */
  lemma BatchWarns(limit: nat, before: Log, b: Batch, after: Log, outcomes: seq<Reply>, from: nat)
    requires AllWarned(limit, before, from) && ForcedRight(limit, before, b)
    requires var start := before + [Issued(b.turn, b.calls)];
             && BatchLog(b, start, after)
             && |outcomes| == |b.calls| && Settled(b, start, after, outcomes)
    ensures AllWarned(limit, after, from)
  {
    var start := before + [Issued(b.turn, b.calls)];
    NoneIssuedInBatch(b, start, after);
    forall p: nat, k: nat | from <= p < |after| && after[p].Issued? && k < |after[p].calls|
      ensures Warned(limit, after, p, k)
    {
      if p < |before| {
        StillWarned(limit, before, after, p, k);
      } else {
        assert p == |before| && after[..p] == before && after[p] == start[p];
        var at := |IssuedOf(before)| + k;
        assert b.forced[at - |IssuedOf(before)|] == Warning(limit, IssuedOf(before) + b.calls, at);
        if Streak(IssuedOf(before) + b.calls, at) == limit + 1 {
          assert CameTo(b, start, after, k, outcomes[k]);
          HandedSince(before, start, after, b.turn, outcomes[k].result);
        }
      }
    }
  }

  lemma HandedSince(before: Log, start: Log, after: Log, turn: nat, result: ToolResult)
    requires before <= start && HandedOver(start, after, turn, result)
    ensures HandedOver(before, after, turn, result)
  {
    var q: nat :| |start| <= q < |after| && after[q] == Sent(turn, ToolResultEvent(result));
    assert |before| <= q;
  }

  // ---- turns and runs ----

  /** What holds between turns; `from` is where this run's own turns begin in the log. */
  ghost predicate OnGuard(limit: nat, st: State, from: nat) {
    && from <= |st.log|
    && Respected(limit, st.log, from)
    && AllWarned(limit, st.log, from)
    && Tracks(IssuedOf(st.log), |IssuedOf(st.log)|, st.repeatSig, st.repeatCount)
    && NoneTooLong(limit, IssuedOf(st.log))
  }

  /** The run did not end in the batch issued at `p`. */
  ghost predicate WentOn(out: RunOut, p: nat) {
    out.end.Suspended? || exists q: nat :: p < q < |out.log| && out.log[q].Ask?
  }

  /** What holds of a run that is over: only calls early in their streak were executed;
      the one past the limit was answered with the warning in every batch the run did
      not end in; and if a streak ran past the warning then that ended the run, with
      nothing in between. */
  ghost predicate GuardedEnd(limit: nat, out: RunOut, from: nat) {
    && Respected(limit, out.log, from)
    && (forall p: nat, k: nat ::
          from <= p < |out.log| && out.log[p].Issued? && k < |out.log[p].calls| && WentOn(out, p) ==>
            Warned(limit, out.log, p, k))
    && (!NoneTooLong(limit, IssuedOf(out.log)) ==> StoppedByGuard(limit, out))
  }

  ghost predicate StoppedByGuard(limit: nat, out: RunOut) {
    var n := |out.log|;
    && n >= 2
    && out.log[n - 2].Issued?
    && IsDelivery(out.log[n - 1])
    && exists name: string, k: nat ::
         && out.end == Failed(LoopDetected(name, limit + 2))
         && |IssuedOf(out.log)| - |out.log[n - 2].calls| <= k
         && OverrunAt(limit, IssuedOf(out.log), k, name)
  }

  ghost predicate PhaseGuarded(limit: nat, p: Phase, from: nat) {
    match p
    case Ready(st) => OnGuard(limit, st, from)
    case Over(out) => GuardedEnd(limit, out, from)
  }

  lemma Quietly(limit: nat, log: Log, out: RunOut, from: nat)
    requires from <= |log| && Respected(limit, log, from) && AllWarned(limit, log, from)
             && NoneTooLong(limit, IssuedOf(log))
    requires NoneIssuedSince(log, out.log)
    requires forall k :: |log| <= k < |out.log| ==> !out.log[k].ToolStep?
    ensures GuardedEnd(limit, out, from)
  {
    RespectedQuietly(limit, log, out.log, from);
    WarnedQuietly(limit, log, out.log, from);
  }

  /** A run that ends in its last batch owes the warnings of the batches before. */
  lemma WarnedBeforeLast(limit: nat, before: Log, turn: nat, calls: seq<ToolCall>, out: RunOut, from: nat)
    requires AllWarned(limit, before, from) && !out.end.Suspended?
    requires before + [Issued(turn, calls)] <= out.log
    requires forall k :: |before| < k < |out.log| ==> !out.log[k].Issued? && !out.log[k].Ask?
    ensures forall p: nat, k: nat ::
              from <= p < |out.log| && out.log[p].Issued? && k < |out.log[p].calls| && WentOn(out, p) ==>
                Warned(limit, out.log, p, k)
  {
    var start := before + [Issued(turn, calls)];
    forall p: nat, k: nat | from <= p < |out.log| && out.log[p].Issued? && k < |out.log[p].calls| && WentOn(out, p)
      ensures Warned(limit, out.log, p, k)
    {
      var q: nat :| p < q < |out.log| && out.log[q].Ask?;
      assert start[|before|] == out.log[|before|];
      assert p < |before|;
      assert out.log[p] == start[p] == before[p];
      assert before <= out.log;
      StillWarned(limit, before, out.log, p, k);
    }
  }

  lemma CompactGuarded(limit: nat, c: Config, w: World, st: State, turn: nat, reported: Usage, from: nat)
    requires w.compactor.Some? && OnGuard(limit, st, from)
    ensures PhaseGuarded(limit, Compact(c, w, st, turn, reported), from)
  {
    match Compact(c, w, st, turn, reported)
    case Ready(st') =>
      RespectedQuietly(limit, st.log, st'.log, from);
      WarnedQuietly(limit, st.log, st'.log, from);
    case Over(out) => Quietly(limit, st.log, out, from);
  }

  lemma TrippedGuarded(limit: nat, w: World, st: State, turn: nat, calls: seq<ToolCall>, from: nat)
    requires OnGuard(limit, st, from)
    requires Guard(limit, calls, st.repeatSig, st.repeatCount).Tripped?
    ensures var g := Guard(limit, calls, st.repeatSig, st.repeatCount);
            GuardedEnd(limit, FailWith(w, turn, LoopDetected(g.name, g.count), st.log + [Issued(turn, calls)]), from)
  {
    var before := IssuedOf(st.log);
    GuardCounts(limit, before, calls, st.repeatSig, st.repeatCount);
    var g := Guard(limit, calls, st.repeatSig, st.repeatCount);
    var issued := st.log + [Issued(turn, calls)];
    var out := FailWith(w, turn, LoopDetected(g.name, g.count), issued);
    assert issued[..|st.log|] == st.log;
    IssuedSame(issued, out.log);
    assert IssuedOf(out.log) == before + calls;
    RespectedWithoutWork(limit, st.log, out.log, from);
    WarnedBeforeLast(limit, st.log, turn, calls, out, from);
    var k: nat :| |before| <= k && OverrunAt(limit, before + calls, k, g.name);
    assert out.log[|out.log| - 2] == Issued(turn, calls);
    assert out.end == Failed(LoopDetected(g.name, limit + 2));
    assert OverrunAt(limit, IssuedOf(out.log), k, g.name);
  }

  /** What the guard lets through is right for the batch. */
  lemma PassedRight(limit: nat, st: State, b: Batch, from: nat)
    requires OnGuard(limit, st, from)
    requires Guard(limit, b.calls, st.repeatSig, st.repeatCount).Passed?
    requires b.forced == Guard(limit, b.calls, st.repeatSig, st.repeatCount).forced
    ensures var g := Guard(limit, b.calls, st.repeatSig, st.repeatCount);
            var all := IssuedOf(st.log) + b.calls;
            ForcedRight(limit, st.log, b) && Tracks(all, |all|, g.sig, g.count)
  {
    GuardCounts(limit, IssuedOf(st.log), b.calls, st.repeatSig, st.repeatCount);
  }

  /** A batch the guard lets through is worked on within its bounds and warned of. */
  lemma PassedGuarded(limit: nat, c: Config, w: World, st: State, turn: nat, calls: seq<ToolCall>, from: nat)
    requires OnGuard(limit, st, from)
    requires Guard(limit, calls, st.repeatSig, st.repeatCount).Passed?
    ensures var g := Guard(limit, calls, st.repeatSig, st.repeatCount);
            var r := RunBatch(c, w, turn, calls, g.forced, st.log + [Issued(turn, calls)]);
            && (r.BatchDone? ==> OnGuard(limit, st.(repeatSig := g.sig, repeatCount := g.count, log := r.log), from))
            && (r.BatchCut? ==> GuardedEnd(limit, CutShort(w, turn, r.log), from))
  {
    var g := Guard(limit, calls, st.repeatSig, st.repeatCount);
    var b := BatchOf(c, w, turn, calls, g.forced);
    var issued := st.log + [Issued(turn, calls)];
    PassedRight(limit, st, b, from);
    var outcomes := BatchFacts(c, w, turn, calls, g.forced, issued);
    var r := RunBatch(c, w, turn, calls, g.forced, issued);
    BatchRespected(limit, st.log, b, r.log, from);
    if r.BatchDone? {
      BatchWarns(limit, st.log, b, r.log, outcomes, from);
    } else {
      CutGuarded(limit, w, st.log, b, r.log, from);
    }
  }

  lemma CutGuarded(limit: nat, w: World, before: Log, b: Batch, log: Log, from: nat)
    requires from <= |before| && AllWarned(limit, before, from) && ForcedRight(limit, before, b)
    requires BatchLog(b, before + [Issued(b.turn, b.calls)], log)
    requires Respected(limit, log, from) && IssuedOf(log) == IssuedOf(before) + b.calls
    ensures GuardedEnd(limit, CutShort(w, b.turn, log), from)
  {
    var out := CutShort(w, b.turn, log);
    IssuedSame(log, out.log);
    RespectedWithoutWork(limit, log, out.log, from);
    OnlyWorkAfter(w, before, b, log);
    WarnedBeforeLast(limit, before, b.turn, b.calls, out, from);
  }

  lemma OnlyWorkAfter(w: World, before: Log, b: Batch, log: Log)
    requires |b.forced| == |b.calls| && BatchLog(b, before + [Issued(b.turn, b.calls)], log)
    ensures var after := CutShort(w, b.turn, log).log;
            && before + [Issued(b.turn, b.calls)] <= after
            && forall k: nat :: |before| < k < |after| ==> !after[k].Issued? && !after[k].Ask?
  {
    var after := CutShort(w, b.turn, log).log;
    forall k: nat | |before| < k < |after|
      ensures !after[k].Issued? && !after[k].Ask?
    {
      if k < |log| {
        assert after[k] == log[k];
        assert BatchStep(b, log[k], k);
      }
    }
  }

  lemma RunToolsGuarded(c: Config, w: World, st: State, turn: nat, acc: Acc, from: nat)
    requires c.maxToolRepeats > 0 && OnGuard(c.maxToolRepeats, st, from)
    ensures PhaseGuarded(c.maxToolRepeats, RunTools(c, w, st, turn, acc), from)
  {
    var limit := c.maxToolRepeats;
    var calls := acc.toolCalls;
    var issued := st.log + [Issued(turn, calls)];
    if OverBudget(c, st.usage) {
      Quietly(limit, st.log, RunTools(c, w, st, turn, acc).out, from);
    } else {
      match Guard(limit, calls, st.repeatSig, st.repeatCount)
      case Tripped(name, count) => TrippedGuarded(limit, w, st, turn, calls, from);
      case Passed(forced, sig, count) =>
        PassedGuarded(limit, c, w, st, turn, calls, from);
        match RunBatch(c, w, turn, calls, forced, issued)
        case BatchCut(log') =>
        case BatchDone(results, pending, log') =>
          var st' := st.(repeatSig := sig, repeatCount := count, log := log');
          if pending != [] {
            Quietly(limit, log', RunTools(c, w, st, turn, acc).out, from);
          } else {
            AfterToolsGuarded(limit, c, w, st', turn, results, acc.usage, from);
          }
    }
  }

  lemma AfterToolsGuarded(limit: nat, c: Config, w: World, st: State, turn: nat, results: seq<ToolResult>,
                          reported: Usage, from: nat)
    requires OnGuard(limit, st, from)
    ensures PhaseGuarded(limit, AfterTools(c, w, st, turn, results, reported), from)
  {
    var st' := st.(conversation := st.conversation + ToolResultMessages(results));
    if w.compactor.Some? {
      CompactGuarded(limit, c, w, st', turn, reported, from);
    }
  }

  lemma AskAndActGuarded(c: Config, w: World, st: State, turn: nat, request: seq<Message>, from: nat)
    requires c.maxToolRepeats > 0 && OnGuard(c.maxToolRepeats, st, from)
    ensures PhaseGuarded(c.maxToolRepeats, AskAndAct(c, w, st, turn, request), from)
  {
    var limit := c.maxToolRepeats;
    StreamTurnAsks(c, w, turn, 0, st.conversation, request, st.log);
    match StreamTurn(c, w, turn, 0, st.conversation, request, st.log)
    case NotTaken(out) => Quietly(limit, st.log, out, from);
    case Took(acc, log) =>
      var st' := Absorb(st, turn, acc, log);
      RespectedQuietly(limit, st.log, st'.log, from);
      WarnedQuietly(limit, st.log, st'.log, from);
      if acc.toolCalls == [] {
        Quietly(limit, st'.log, AskAndAct(c, w, st, turn, request).out, from);
      } else {
        RunToolsGuarded(c, w, st', turn, acc, from);
      }
  }

  lemma TurnGuarded(c: Config, w: World, st: State, turn: nat, from: nat)
    requires c.maxToolRepeats > 0 && OnGuard(c.maxToolRepeats, st, from)
    ensures PhaseGuarded(c.maxToolRepeats, Turn(c, w, st, turn), from)
  {
    var limit := c.maxToolRepeats;
    if w.compactor.Some? {
      CompactGuarded(limit, c, w, st, turn, Usage(w.estimate(|st.log|, st.conversation), 0, 0, 0, 0), from);
    }
    match Proactive(c, w, st, turn)
    case Over(_) =>
    case Ready(st1) =>
      match Prepare(w, st1, turn)
      case Fail(err) => Quietly(limit, st1.log, FailWith(w, turn, Wrapped("prepare request hook", err), st1.log), from);
      case Ok(request) => AskAndActGuarded(c, w, st1, turn, request, from);
  }

  lemma {:induction false} TurnsGuarded(c: Config, w: World, st: State, turn: nat, from: nat)
    requires c.maxToolRepeats > 0 && OnGuard(c.maxToolRepeats, st, from)
    ensures GuardedEnd(c.maxToolRepeats, Turns(c, w, st, turn), from)
    decreases c.MaxTurns() - turn
  {
    if turn >= c.MaxTurns() {
      Quietly(c.maxToolRepeats, st.log, Turns(c, w, st, turn), from);
    } else {
      TurnGuarded(c, w, st, turn, from);
      match Turn(c, w, st, turn)
      case Over(_) =>
      case Ready(st') => TurnsGuarded(c, w, st', turn + 1, from);
    }
  }

  /** Over a whole run, among all calls issued in all its turns, only the first
      `maxToolRepeats` of a streak of identical calls are worked on; the next is
      answered with the guard's warning, and the one after that ends the run. */
  lemma RunGuarded(c: Config, w: World, input: seq<Message>)
    requires c.maxToolRepeats > 0
    ensures GuardedEnd(c.maxToolRepeats, Run(c, w, input), 0)
  {
    TurnsGuarded(c, w, State(input, ZERO_USAGE, "", "", "", 0, []), 0, 0);
  }

  /** The same of a resumed run, over the calls issued after the resume: the counters
      start afresh, and the calls the decisions let run are not counted. */
  lemma ResumeGuarded(c: Config, w: World, cp: Checkpoint, decisions: map<string, Approval>)
    requires c.maxToolRepeats > 0
    ensures var r := DecideCalls(w, cp.turn, cp.calls, decisions, 0, ByID(cp.results), false, []);
            && r.log <= Resume(c, w, cp, decisions).log
            && IssuedOf(r.log) == []
            && GuardedEnd(c.maxToolRepeats, Resume(c, w, cp, decisions), |r.log|)
  {
    DecideCallsWorks(w, cp.turn, cp.calls, decisions, 0, ByID(cp.results), false, []);
    var r := DecideCalls(w, cp.turn, cp.calls, decisions, 0, ByID(cp.results), false, []);
    IssuedSame([], r.log);
    ProceedsGuarded(c, w, cp, r);
  }

  /** What is promised of a run from here on. */
  ghost predicate FreshlyGuarded(limit: nat, log: Log, out: RunOut) {
    log <= out.log && GuardedEnd(limit, out, |log|)
  }

  lemma ProceedsGuarded(c: Config, w: World, cp: Checkpoint, r: ResumeReply)
    requires c.maxToolRepeats > 0 && IssuedOf(r.log) == []
    ensures FreshlyGuarded(c.maxToolRepeats, r.log, Proceed(c, w, cp, r))
  {
    if r.Resumed? && !r.stillPending {
      ContinuedGuarded(c, w, ResumedState(cp, InCallOrder(cp.calls, r.byID), r.log), cp.turn + 1);
    } else {
      StopsQuietly(c, w, cp, r);
      FreshEnd(c.maxToolRepeats, r.log, Proceed(c, w, cp, r));
    }
  }

  lemma StopsQuietly(c: Config, w: World, cp: Checkpoint, r: ResumeReply)
    requires r.ResumeCut? || r.stillPending
    ensures var log := Proceed(c, w, cp, r).log;
            && r.log <= log && NoneIssuedSince(r.log, log)
            && forall k :: |r.log| <= k < |log| ==> !log[k].ToolStep?
  {
  }

  lemma FreshEnd(limit: nat, log: Log, out: RunOut)
    requires IssuedOf(log) == [] && NoneIssuedSince(log, out.log)
    requires forall k :: |log| <= k < |out.log| ==> !out.log[k].ToolStep?
    ensures FreshlyGuarded(limit, log, out)
  {
    Quietly(limit, log, out, |log|);
  }

  lemma ContinuedGuarded(c: Config, w: World, st: State, turn: nat)
    requires c.maxToolRepeats > 0 && IssuedOf(st.log) == [] && st.repeatSig == "" && st.repeatCount == 0
    ensures FreshlyGuarded(c.maxToolRepeats, st.log, Turns(c, w, st, turn))
  {
    FreshOnGuard(c.maxToolRepeats, st);
    TurnsExtend(c, w, st, turn);
    TurnsGuarded(c, w, st, turn, |st.log|);
  }

  lemma FreshOnGuard(limit: nat, st: State)
    requires IssuedOf(st.log) == [] && st.repeatSig == "" && st.repeatCount == 0
    ensures OnGuard(limit, st, |st.log|)
  {
  }

  /** In terms of blocks: of `n` identical calls in a row from place `start` on, those
      worked on lie among the first `limit`. */
  lemma WorkedOnInBlock(limit: nat, log: Log, from: nat, p: nat, start: nat)
    requires Respected(limit, log, from)
    requires from <= p < |log| && log[p].ToolStep?
    requires var issued, at := IssuedOf(log[..p]), PlaceOf(log, p);
             && 0 <= start <= at < |issued|
             && forall k: nat :: start <= k <= at ==> Signature(issued[k]) == Signature(issued[at])
    ensures PlaceOf(log, p) < start + limit
  {
    assert WithinStreak(limit, log, p);
    StreakSpans(IssuedOf(log[..p]), start, PlaceOf(log, p));
  }

  lemma {:induction false} StreakSpans(calls: seq<ToolCall>, start: nat, at: nat)
    requires start <= at < |calls|
    requires forall k: nat :: start <= k <= at ==> Signature(calls[k]) == Signature(calls[at])
    ensures Streak(calls, at) >= at - start + 1
  {
    if start < at {
      assert Signature(calls[at - 1]) == Signature(calls[at]);
      StreakSpans(calls, start, at - 1);
    }
  }
}

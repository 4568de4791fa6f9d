/** Reassembly of streamed tool calls from interleaved fragments
    (providers/openai/toolacc.go). */
module ToolAcc {
  import opened Gage

  /** One fragment: the call it belongs to and what it adds. Empty means absent. */
  datatype Fragment = Fragment(index: int, id: string, name: string, args: string)

  datatype AccCall = AccCall(id: string, name: string, args: string, started: bool)

  // ---- one call, from its own fragments alone ----

  /** The last identifier given, if any. */
  function LatestID(own: seq<Fragment>): string {
    if own == [] then ""
    else
      var last := own[|own| - 1];
      if last.id != "" then last.id else LatestID(own[..|own| - 1])
  }

  function LatestName(own: seq<Fragment>): string {
    if own == [] then ""
    else
      var last := own[|own| - 1];
      if last.name != "" then last.name else LatestName(own[..|own| - 1])
  }

  function Args(own: seq<Fragment>): string {
    if own == [] then "" else Args(own[..|own| - 1]) + own[|own| - 1].args
  }

  function Completed(own: seq<Fragment>): ToolCall {
    ToolCall(LatestID(own), LatestName(own), if Args(own) == "" then "{}" else Args(own))
  }

  /** What fragment `f` of a call makes known, after the call's earlier fragments. */
  function StepEvents(earlier: seq<Fragment>, f: Fragment): seq<Event> {
    var own := earlier + [f];
    var id, name := LatestID(own), LatestName(own);
    (if LatestName(earlier) == "" && name != "" then [ToolCallStart(ToolCall(id, name, ""))] else [])
    + (if f.args != "" && name != "" then [ToolCallDelta(ToolCall(id, name, Args(own)))] else [])
  }

  /** Everything made known of one call before the end. */
  function CallEvents(own: seq<Fragment>): seq<Event> {
    if own == [] then []
    else CallEvents(own[..|own| - 1]) + StepEvents(own[..|own| - 1], own[|own| - 1])
  }

  // ---- the interleaved stream ----

  /** The fragments of call `i`, in order. */
  function Own(frags: seq<Fragment>, i: int): seq<Fragment> {
    if frags == [] then []
    else
      var last := frags[|frags| - 1];
      Own(frags[..|frags| - 1], i) + if last.index == i then [last] else []
  }

  /** The calls, in order of first arrival. */
  function Order(frags: seq<Fragment>): seq<int> {
    if frags == [] then []
    else
      var before, i := Order(frags[..|frags| - 1]), frags[|frags| - 1].index;
      if i in before then before else before + [i]
  }

  /** The completions of the named calls among those of `order`. */
  function Dones(order: seq<int>, frags: seq<Fragment>): seq<Event> {
    if order == [] then []
    else
      var own := Own(frags, order[|order| - 1]);
      Dones(order[..|order| - 1], frags)
      + if LatestName(own) == "" then [] else [ToolCallDone(Completed(own))]
  }

  /** The events of a whole stream, each with the call whose fragment brought it. */
  function Emitted(frags: seq<Fragment>): seq<(int, Event)> {
    if frags == [] then []
    else
      var before, f := frags[..|frags| - 1], frags[|frags| - 1];
      Emitted(before) + Tagged(f.index, StepEvents(Own(before, f.index), f))
  }

  function Tagged(i: int, events: seq<Event>): seq<(int, Event)> {
    seq(|events|, k requires 0 <= k < |events| => (i, events[k]))
  }

  function OfCall(tagged: seq<(int, Event)>, i: int): seq<Event> {
    if tagged == [] then []
    else
      var last := tagged[|tagged| - 1];
      OfCall(tagged[..|tagged| - 1], i) + if last.0 == i then [last.1] else []
  }

  // ---- the accumulator ----

  class ToolAccumulator {
    var order: seq<int>
    var calls: map<int, AccCall>
    ghost var applied: seq<Fragment>

    ghost predicate Valid()
      reads this
    {
      && order == Order(applied) && Matches(order, calls, applied)
    }

    constructor ()
      ensures Valid() && applied == []
    {
      order, calls, applied := [], map[], [];
    }

    method Apply(tc: Fragment) returns (events: seq<Event>)
      requires Valid()
      modifies this
      ensures Valid() && applied == old(applied) + [tc]
      ensures events == StepEvents(Own(old(applied), tc.index), tc)
    {
      ghost var earlier := Own(applied, tc.index);
      KnownBefore(calls, applied, order, tc.index);
      StaysMatched(order, calls, applied, tc);
      if tc.index !in calls {
        calls := calls[tc.index := AccCall("", "", "", false)];
        order := order + [tc.index];
      }
      var c;
      c, events := Grow(calls[tc.index], tc, earlier);
      calls := calls[tc.index := c];
      applied := applied + [tc];
    }

    method Finish() returns (events: seq<Event>)
      requires Valid()
      ensures events == Dones(Order(applied), applied)
    {
      events := [];
      assert order[..0] == [];
      for k := 0 to |order|
        invariant events == Dones(order[..k], applied)
      {
        var idx := order[k];
        assert order[..k + 1][..k] == order[..k] && order[..k + 1][k] == idx;
        assert idx in order;
        var c := calls[idx];
        if !c.started && c.name == "" {
          continue;
        }
        var input := c.args;
        if |input| == 0 {
          input := "{}";
        }
        events := events + [ToolCallDone(ToolCall(c.id, c.name, input))];
      }
      assert order[..|order|] == order;
    }
  }

  ghost function Held(own: seq<Fragment>): AccCall {
    AccCall(LatestID(own), LatestName(own), Args(own), LatestName(own) != "")
  }

  /** The part of `apply` that changes the one call. */
  method Grow(held: AccCall, tc: Fragment, ghost earlier: seq<Fragment>) returns (c: AccCall, events: seq<Event>)
    requires held == Held(earlier)
    ensures c == Held(earlier + [tc]) && events == StepEvents(earlier, tc)
  {
    AppendedOwn(earlier, tc);
    c, events := held, [];
    if tc.id != "" {
      c := c.(id := tc.id);
    }
    if tc.name != "" {
      c := c.(name := tc.name);
    }
    if !c.started && c.name != "" {
      c := c.(started := true);
      events := events + [ToolCallStart(ToolCall(c.id, c.name, ""))];
    }
    if tc.args != "" {
      c := c.(args := c.args + tc.args);
      if c.started {
        events := events + [ToolCallDelta(ToolCall(c.id, c.name, c.args))];
      }
    }
  }

  ghost predicate Matches(order: seq<int>, calls: map<int, AccCall>, frags: seq<Fragment>) {
    && (forall i :: i in calls <==> i in order)
    && (forall i :: i in calls ==> calls[i] == Held(Own(frags, i)))
  }

  lemma StaysMatched(order: seq<int>, calls: map<int, AccCall>, frags: seq<Fragment>, f: Fragment)
    requires Matches(order, calls, frags) && order == Order(frags)
    ensures var order' := if f.index in order then order else order + [f.index];
            && order' == Order(frags + [f])
            && Matches(order', calls[f.index := Held(Own(frags, f.index) + [f])], frags + [f])
  {
    Appended(frags, f);
    var calls' := calls[f.index := Held(Own(frags, f.index) + [f])];
    forall i | i in calls'
      ensures calls'[i] == Held(Own(frags + [f], i))
    {
      OwnMore(frags, f, i);
    }
  }

  lemma OwnMore(frags: seq<Fragment>, f: Fragment, i: int)
    ensures Own(frags + [f], i) == if f.index == i then Own(frags, i) + [f] else Own(frags, i)
  {
    assert (frags + [f])[..|frags|] == frags;
  }

  lemma KnownBefore(calls: map<int, AccCall>, frags: seq<Fragment>, order: seq<int>, i: int)
    requires Matches(order, calls, frags) && order == Order(frags)
    ensures i in calls <==> i in order
    ensures (if i in calls then calls[i] else AccCall("", "", "", false)) == Held(Own(frags, i))
  {
    OwnArrived(frags);
  }

  lemma AppendedOwn(own: seq<Fragment>, f: Fragment)
    ensures var more := own + [f];
            && LatestID(more) == (if f.id != "" then f.id else LatestID(own))
            && LatestName(more) == (if f.name != "" then f.name else LatestName(own))
            && Args(more) == Args(own) + f.args
            && CallEvents(more) == CallEvents(own) + StepEvents(own, f)
  {
    var more := own + [f];
    assert more[..|more| - 1] == own && more[|more| - 1] == f;
  }

  lemma Appended(frags: seq<Fragment>, f: Fragment)
    ensures var more := frags + [f];
            && Order(more) == (if f.index in Order(frags) then Order(frags) else Order(frags) + [f.index])
            && Emitted(more) == Emitted(frags) + Tagged(f.index, StepEvents(Own(frags, f.index), f))
            && forall i :: Own(more, i) == Own(frags, i) + if f.index == i then [f] else []
  {
    var more := frags + [f];
    assert more[..|more| - 1] == frags && more[|more| - 1] == f;
  }

  // ---- interleaving ----

  /** A call is in the order exactly when it has fragments, and only once. */
  lemma {:induction false} OwnArrived(frags: seq<Fragment>)
    ensures forall i :: i in Order(frags) <==> Own(frags, i) != []
    ensures forall j, k :: 0 <= j < k < |Order(frags)| ==> Order(frags)[j] != Order(frags)[k]
    decreases |frags|
  {
    if frags != [] {
      OwnArrived(frags[..|frags| - 1]);
      assert forall i :: i != frags[|frags| - 1].index ==> Own(frags, i) == Own(frags[..|frags| - 1], i);
    }
  }

  lemma {:induction false} Arrives(frags: seq<Fragment>, i: int) returns (p: nat)
    requires i in Order(frags)
    ensures p < |frags| && frags[p].index == i
    decreases |frags|
  {
    var last := |frags| - 1;
    if frags[last].index == i {
      p := last;
    } else {
      p := Arrives(frags[..last], i);
    }
  }

  lemma {:induction false} AllArrive(frags: seq<Fragment>)
    ensures forall q :: 0 <= q < |frags| ==> frags[q].index in Order(frags)
    decreases |frags|
  {
    if frags != [] {
      AllArrive(frags[..|frags| - 1]);
    }
  }

  /** Of two calls in the order, the first has a fragment before any of the second. */
  lemma {:induction false} FirstArrivalFirst(frags: seq<Fragment>, j: nat, k: nat) returns (p: nat)
    requires j < k < |Order(frags)|
    ensures p < |frags| && frags[p].index == Order(frags)[j]
    ensures forall q :: 0 <= q <= p ==> frags[q].index != Order(frags)[k]
    decreases |frags|
  {
    var before := frags[..|frags| - 1];
    if k < |Order(before)| {
      p := FirstArrivalFirst(before, j, k);
    } else {
      assert Order(before)[j] in Order(before);
      p := Arrives(before, Order(before)[j]);
      AllArrive(before);
    }
  }

  lemma {:induction false} OfCallMore(tagged: seq<(int, Event)>, i: int, j: int, events: seq<Event>)
    ensures OfCall(tagged + Tagged(j, events), i) == OfCall(tagged, i) + if i == j then events else []
    decreases |events|
  {
    var more := tagged + Tagged(j, events);
    if events == [] {
      assert more == tagged;
    } else {
      var front := events[..|events| - 1];
      OfCallMore(tagged, i, j, front);
      var last := events[|events| - 1];
      assert Tagged(j, events) == Tagged(j, front) + [(j, last)];
      assert more == (tagged + Tagged(j, front)) + [(j, last)];
      OfCallSnoc(tagged + Tagged(j, front), (j, last), i);
      assert events == front + [last];
      if i == j {
        assert (OfCall(tagged, i) + front) + [last] == OfCall(tagged, i) + (front + [last]);
      }
    }
  }

  lemma OfCallSnoc(tagged: seq<(int, Event)>, t: (int, Event), i: int)
    ensures OfCall(tagged + [t], i) == OfCall(tagged, i) + if t.0 == i then [t.1] else []
  {
    assert (tagged + [t])[..|tagged|] == tagged;
  }

  /** What the stream makes known of a call is what its own fragments, alone, would. */
  lemma {:induction false} EventsAreTheCallsOwn(frags: seq<Fragment>, i: int)
    ensures OfCall(Emitted(frags), i) == CallEvents(Own(frags, i))
    decreases |frags|
  {
    if frags != [] {
      var before, f := frags[..|frags| - 1], frags[|frags| - 1];
      EventsAreTheCallsOwn(before, i);
      var earlier := Own(before, f.index);
      OfCallMore(Emitted(before), i, f.index, StepEvents(earlier, f));
      AppendedOwn(earlier, f);
      assert i != f.index ==> Own(frags, i) == Own(before, i);
    }
  }

  /** The completions depend only on each call's own fragments and the order of arrival. */
  lemma {:induction false} FinishIgnoresInterleaving(f: seq<Fragment>, g: seq<Fragment>, order: seq<int>)
    requires forall i :: i in order ==> Own(f, i) == Own(g, i)
    ensures Dones(order, f) == Dones(order, g)
    decreases |order|
  {
    if order != [] {
      assert order[|order| - 1] in order;
      FinishIgnoresInterleaving(f, g, order[..|order| - 1]);
    }
  }

  // ---- what the events of one call are ----

  /** Nothing before the name is known; then one start and after it only deltas, each
      carrying a non-empty prefix of the final input, longer than the one before. */
  lemma {:induction false} OneStartThenGrowingDeltas(own: seq<Fragment>)
    ensures var evs := CallEvents(own);
            && (evs == [] <==> LatestName(own) == "")
            && (evs != [] ==> evs[0].ToolCallStart?)
            && (forall k :: 0 < k < |evs| ==>
                  evs[k].ToolCallDelta? && evs[k].call.input != "" && evs[k].call.input <= Args(own))
            && (forall j, k :: 0 < j < k < |evs| ==> |evs[j].call.input| < |evs[k].call.input|)
    decreases |own|
  {
    if own != [] {
      var before, f := own[..|own| - 1], own[|own| - 1];
      OneStartThenGrowingDeltas(before);
      assert own == before + [f];
      AppendedOwn(before, f);
      if CallEvents(before) != [] {
        GrowsOn(CallEvents(before), StepEvents(before, f), Args(before), Args(own));
      }
    }
  }

  /** One more delta, if any, behind growing ones. */
  lemma GrowsOn(evs: seq<Event>, more: seq<Event>, args: string, args': string)
    requires evs != [] && args <= args'
    requires forall k :: 0 < k < |evs| ==> evs[k].ToolCallDelta? && evs[k].call.input <= args
    requires forall j, k :: 0 < j < k < |evs| ==> |evs[j].call.input| < |evs[k].call.input|
    requires more == [] || (|more| == 1 && more[0].ToolCallDelta? && more[0].call.input == args' && |args| < |args'|)
    ensures var all := evs + more;
            && (forall k :: 0 < k < |all| ==> all[k].ToolCallDelta? && all[k].call.input <= args')
            && (forall j, k :: 0 < j < k < |all| ==> |all[j].call.input| < |all[k].call.input|)
  {
  }

  /** A start was emitted for call `i`. */
  ghost predicate IsStarted(frags: seq<Fragment>, i: int) {
    exists k :: 0 <= k < |OfCall(Emitted(frags), i)| && OfCall(Emitted(frags), i)[k].ToolCallStart?
  }

  lemma StartedMeansNamed(frags: seq<Fragment>, i: int)
    ensures IsStarted(frags, i) <==> LatestName(Own(frags, i)) != ""
  {
    EventsAreTheCallsOwn(frags, i);
    OneStartThenGrowingDeltas(Own(frags, i));
  }

  /** The calls of `order` for which a start was emitted. */
  ghost function Started(order: seq<int>, frags: seq<Fragment>): seq<int> {
    if order == [] then []
    else
      var i := order[|order| - 1];
      Started(order[..|order| - 1], frags) + if IsStarted(frags, i) then [i] else []
  }

  /** A completion is emitted for exactly the calls that were started: as many as those,
      the n-th for the n-th of them in order of arrival. */
  lemma {:induction false} DoneExactlyWhenStarted(frags: seq<Fragment>, order: seq<int>)
    ensures var started := Started(order, frags);
            && |Dones(order, frags)| == |started|
            && forall n :: 0 <= n < |started| ==>
                 Dones(order, frags)[n] == ToolCallDone(Completed(Own(frags, started[n])))
    decreases |order|
  {
    if order != [] {
      DoneExactlyWhenStarted(frags, order[..|order| - 1]);
      StartedMeansNamed(frags, order[|order| - 1]);
    }
  }

  // ---- round trip ----

  /** `own` is a way of sending `call` in pieces: its identifier and its name said at
      least once, and never otherwise, its input cut anywhere. */
  ghost predicate Pieces(own: seq<Fragment>, call: ToolCall) {
    && call.name != ""
    && (forall k :: 0 <= k < |own| ==> own[k].id in {"", call.id} && own[k].name in {"", call.name})
    && (exists k :: 0 <= k < |own| && own[k].id == call.id)
    && (exists k :: 0 <= k < |own| && own[k].name == call.name)
    && Args(own) == call.input
  }

  lemma {:induction false} LatestOfPieces(own: seq<Fragment>, id: string, name: string)
    requires forall k :: 0 <= k < |own| ==> own[k].id in {"", id} && own[k].name in {"", name}
    ensures LatestID(own) in {"", id} && LatestName(own) in {"", name}
    ensures (exists k :: 0 <= k < |own| && own[k].id == id) ==> LatestID(own) == id
    ensures (exists k :: 0 <= k < |own| && own[k].name == name) ==> LatestName(own) == name
    decreases |own|
  {
    if own != [] {
      LatestOfPieces(own[..|own| - 1], id, name);
    }
  }

  /** The calls as completed: an absent input becomes the empty object. */
  function Closed(order: seq<int>, calls: map<int, ToolCall>): seq<Event>
    requires forall i :: i in order ==> i in calls
  {
    if order == [] then []
    else
      var i := order[|order| - 1];
      assert i in order;
      var call := calls[i];
      Closed(order[..|order| - 1], calls)
      + [ToolCallDone(if call.input == "" then call.(input := "{}") else call)]
  }

  /** However calls are cut into fragments and however those are interleaved, finishing
      gives the calls back, in order of arrival. */
  lemma {:induction false} ReassemblesAnyInterleaving(frags: seq<Fragment>, order: seq<int>, calls: map<int, ToolCall>)
    requires forall i :: i in order ==> i in calls && Pieces(Own(frags, i), calls[i])
    ensures Dones(order, frags) == Closed(order, calls)
    decreases |order|
  {
    if order != [] {
      var i := order[|order| - 1];
      assert i in order;
      ReassemblesAnyInterleaving(frags, order[..|order| - 1], calls);
      LatestOfPieces(Own(frags, i), calls[i].id, calls[i].name);
    }
  }
}

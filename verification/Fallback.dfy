/** The provider that fails over to the next one until content flows
    (providers/fallback/fallback.go). */
module Fallback {
  import opened Gage

  /** A provider, and what it answers: an error, or the events of its stream. */
  datatype Provider = Provider(name: string, answer: Outcome<seq<Event>, Err>)

  predicate IsContent(e: Event) {
    e.TextDelta? || e.ReasoningDelta? || e.ReasoningDone? || e.ToolCallStart?
    || e.ToolCallDelta? || e.ToolCallDone? || e.MessageDone?
  }

  function ErrorOf(err: Err): Event {
    ErrorEvent(Some(err), "")
  }

  // ---- the simple form ----

  /** Position `k` is the first that is content or an error. */
  ghost predicate Decides(events: seq<Event>, k: int) {
    && 0 <= k < |events|
    && (IsContent(events[k]) || events[k].ErrorEvent?)
    && forall j :: 0 <= j < k ==> !IsContent(events[j]) && !events[j].ErrorEvent?
  }

  /** The stream has content before any error. */
  ghost predicate Yields(p: Provider) {
    p.answer.Ok? && exists k :: Decides(p.answer.value, k) && IsContent(p.answer.value[k])
  }

  /** The event by which a provider without content is known to have failed. */
  ghost predicate FailsWith(p: Provider, e: Event) {
    match p.answer
    case Fail(err) => e == ErrorOf(Wrapped(p.name, err))
    case Ok(events) =>
      || (exists k :: Decides(events, k) && events[k] == e && e.ErrorEvent?)
      || ((forall k :: 0 <= k < |events| ==> !IsContent(events[k]) && !events[k].ErrorEvent?)
          && e == ErrorOf(OtherError(p.name + ": stream ended without content")))
  }

  const NO_PROVIDER := ErrorOf(OtherError("fallback: all providers failed"))

  /** The whole output: everything the first provider with content sends and nothing
      else, or, when there is no such provider, the last one's failure. */
  ghost predicate FailsOver(providers: seq<Provider>, chosen: nat, output: seq<Event>) {
    && chosen <= |providers|
    && (forall j :: 0 <= j < chosen ==> !Yields(providers[j]))
    && (chosen < |providers| ==> Yields(providers[chosen]) && output == providers[chosen].answer.value)
    && (chosen == |providers| ==>
          && |output| == 1
          && (if providers == [] then output[0] == NO_PROVIDER else FailsWith(providers[|providers| - 1], output[0])))
  }

  // ---- the consumer ----

  /** The output channel together with the context: each look at them says whether the
      context is still live. */
  class Consumer {
    const live: nat -> bool
    var looks: nat
    var sent: seq<Event>

    constructor (live: nat -> bool)
      ensures this.live == live && looks == 0 && sent == []
    {
      this.live := live;
      looks, sent := 0, [];
    }

    method Alive() returns (ok: bool)
      modifies this`looks
      ensures ok == live(old(looks)) && looks == old(looks) + 1
    {
      ok := live(looks);
      looks := looks + 1;
    }

    method Send(e: Event) returns (ok: bool)
      modifies this
      ensures ok == live(old(looks)) && looks == old(looks) + 1
      ensures sent == if ok then old(sent) + [e] else old(sent)
    {
      ok := live(looks);
      looks := looks + 1;
      if ok {
        sent := sent + [e];
      }
    }
  }

  ghost predicate Uncancelled(out: Consumer) {
    forall n :: out.live(n)
  }

  /** How one provider left things: either its stream was relayed, in full unless
      cancelled, or nothing of it was and it failed with `err`. */
  ghost predicate Tried(p: Provider, committed: bool, err: Event, ok: bool, before: seq<Event>, after: seq<Event>) {
    if committed then
      Yields(p) && before <= after <= before + p.answer.value && (ok ==> after == before + p.answer.value)
    else !Yields(p) && FailsWith(p, err) && after == before
  }

  method TryOne(p: Provider, out: Consumer) returns (committed: bool, err: Event, ok: bool)
    modifies out
    ensures Tried(p, committed, err, ok, old(out.sent), out.sent)
    ensures Uncancelled(out) ==> ok
  {
    committed, err, ok := false, ErrorEvent(None, ""), true;
    if p.answer.Fail? {
      return false, ErrorOf(Wrapped(p.name, p.answer.error)), true;
    }
    var stream := p.answer.value;
    var buffered: seq<Event> := [];
    for k := 0 to |stream|
      invariant ok && !committed ==> out.sent == old(out.sent) && buffered == stream[..k]
      invariant !committed ==> forall j :: 0 <= j < k ==> !IsContent(stream[j]) && !stream[j].ErrorEvent?
      invariant committed ==> Yields(p) && out.sent == old(out.sent) + stream[..k]
      invariant ok
    {
      var ev := stream[k];
      assert stream[..k + 1] == stream[..k] + [ev];
      if !committed {
        if ev.ErrorEvent? {
          FirstDecides(stream, k);
          assert Decides(stream, k) && stream[k] == ev;
          return false, ev, true;
        }
        if !IsContent(ev) {
          buffered := buffered + [ev];
          continue;
        }
        FirstDecides(stream, k);
        committed := true;
        for n := 0 to |buffered|
          invariant out.sent == old(out.sent) + stream[..n]
        {
          ok := out.Send(buffered[n]);
          if !ok {
            assert stream[..n] <= stream;
            return true, ErrorEvent(None, ""), false;
          }
          assert stream[..n + 1] == stream[..n] + [buffered[n]];
        }
      }
      ok := out.Send(ev);
      if !ok {
        assert stream[..k] <= stream;
        return true, ErrorEvent(None, ""), false;
      }
    }
    assert stream[..|stream|] == stream;
    if !committed {
      ok := out.Alive();
      return false, ErrorOf(OtherError(p.name + ": stream ended without content")), ok;
    }
  }

  /** Nothing but position `k` decides a stream. */
  lemma FirstDecides(events: seq<Event>, k: int)
    requires 0 <= k < |events| && (IsContent(events[k]) || events[k].ErrorEvent?)
    requires forall j :: 0 <= j < k ==> !IsContent(events[j]) && !events[j].ErrorEvent?
    ensures Decides(events, k) && forall n :: Decides(events, n) ==> n == k
  {
  }

  /** Stream, to its end. `asked` providers were asked; `output` is what an uncancelled
      consumer receives, and a cancelled one receives the beginning of. */
  method Stream(providers: seq<Provider>, out: Consumer)
      returns (asked: nat, ghost chosen: nat, ghost output: seq<Event>)
    modifies out
    ensures FailsOver(providers, chosen, output)
    ensures Uncancelled(out) ==> out.sent == old(out.sent) + output
    ensures old(out.sent) <= out.sent <= old(out.sent) + output
    ensures asked <= if chosen < |providers| then chosen + 1 else chosen
    ensures Uncancelled(out) ==> asked == if chosen < |providers| then chosen + 1 else chosen
  {
    chosen, output := Outcome(providers);
    asked := 0;
    var lastErr := ErrorEvent(None, "");
    var haveErr := false;
    for k := 0 to |providers|
      invariant asked == k <= chosen
      invariant out.sent == old(out.sent)
      invariant haveErr <==> k > 0
      invariant k > 0 ==> FailsWith(providers[k - 1], lastErr)
    {
      var alive := out.Alive();
      if !alive {
        return;
      }
      asked := asked + 1;
      var committed, err, ok := TryOne(providers[k], out);
      if committed || !ok {
        return;
      }
      lastErr, haveErr := err, true;
    }
    if !haveErr {
      lastErr := NO_PROVIDER;
    } else {
      OneFailure(providers[|providers| - 1], lastErr, output[0]);
    }
    assert output == [lastErr];
    var _ := out.Send(lastErr);
  }

  // ---- about the simple form ----

  /** A provider fails in one way. */
  lemma OneFailure(p: Provider, e: Event, f: Event)
    requires FailsWith(p, e) && FailsWith(p, f)
    ensures e == f
  {
    if p.answer.Ok? {
      var events := p.answer.value;
      if k :| Decides(events, k) && events[k] == e && e.ErrorEvent? {
        FirstDecides(events, k);
      }
    }
  }

  /** A provider that does not yield fails in some way. */
  lemma FailsSomehow(p: Provider) returns (e: Event)
    requires !Yields(p)
    ensures FailsWith(p, e)
  {
    match p.answer
    case Fail(err) =>
      e := ErrorOf(Wrapped(p.name, err));
    case Ok(events) =>
      if k :| Decides(events, k) {
        e := events[k];
      } else {
        e := ErrorOf(OtherError(p.name + ": stream ended without content"));
        Undecided(events, |events|);
      }
  }

  lemma {:induction false} Undecided(events: seq<Event>, n: nat)
    requires n <= |events| && forall k :: !Decides(events, k)
    ensures forall k :: 0 <= k < n ==> !IsContent(events[k]) && !events[k].ErrorEvent?
  {
    if n > 0 {
      Undecided(events, n - 1);
      assert !Decides(events, n - 1);
    }
  }

  /** There is an output, whatever the providers do. */
  lemma {:induction false} Outcome(providers: seq<Provider>) returns (chosen: nat, output: seq<Event>)
    ensures FailsOver(providers, chosen, output)
    decreases |providers|
  {
    var n := |providers| - 1;
    if providers == [] {
      chosen, output := 0, [NO_PROVIDER];
      return;
    }
    chosen, output := Outcome(providers[..n]);
    if chosen < n {
      assert Yields(providers[chosen]);
    } else if Yields(providers[n]) {
      chosen, output := n, providers[n].answer.value;
    } else {
      var e := FailsSomehow(providers[n]);
      chosen, output := n + 1, [e];
    }
  }

  /** And only one. */
  lemma OneOutput(providers: seq<Provider>, c: nat, o: seq<Event>, d: nat, p: seq<Event>)
    requires FailsOver(providers, c, o) && FailsOver(providers, d, p)
    ensures c == d && o == p
  {
    assert c < |providers| ==> Yields(providers[c]);
    assert d < |providers| ==> Yields(providers[d]);
    if c == |providers| {
      if providers != [] {
        OneFailure(providers[|providers| - 1], o[0], p[0]);
      }
      assert o == [o[0]] && p == [p[0]];
    }
  }

  /** A failover provider among the providers of another is as good as its own providers
      in its place. */
  lemma NestingIsFlat(name: string, inner: seq<Provider>, outer: seq<Provider>,
                      c: nat, o: seq<Event>, d: nat, p: seq<Event>)
    requires FailsOver(inner, c, o)
    requires FailsOver([Provider(name, Ok(o))] + outer, d, p)
    ensures exists k :: FailsOver(inner + outer, k, p)
  {
    var nested := Provider(name, Ok(o));
    var all, flat := [nested] + outer, inner + outer;
    var k := if d == 0 then c else |inner| + d - 1;
    assert all[0] == nested;
    if c < |inner| {
      assert Yields(inner[c]) && Yields(nested);
      assert flat[c] == inner[c];
    } else {
      OnlyAnError(inner, o);
      FirstDecides(o, 0);
      assert Decides(o, 0) && !IsContent(o[0]);
      assert !Yields(nested);
      assert FailsWith(nested, o[0]);
      if outer == [] {
        OneFailure(nested, o[0], p[0]);
        assert flat == inner && p == o;
      } else {
        assert all[|all| - 1] == flat[|flat| - 1] == outer[|outer| - 1];
        assert forall j :: |inner| <= j < k ==> flat[j] == all[j - |inner| + 1];
        assert forall j :: 0 <= j < |inner| ==> flat[j] == inner[j];
        if d < |all| {
          assert flat[k] == all[d];
        }
      }
    }
    assert FailsOver(flat, k, p);
  }

  lemma OnlyAnError(providers: seq<Provider>, output: seq<Event>)
    requires FailsOver(providers, |providers|, output)
    ensures |output| == 1 && output[0].ErrorEvent?
  {
  }

  // ---- by the kinds of events ----

  /** Events that say something: text, reasoning, a tool call, or that the message is
      over. */
  predicate SaysSomething(e: Event) {
    match e
    case TextDelta(_) => true
    case ReasoningDelta(_) => true
    case ReasoningDone(_) => true
    case ToolCallStart(_) => true
    case ToolCallDelta(_) => true
    case ToolCallDone(_) => true
    case MessageDone(_) => true
    case _ => false
  }

  /** Before any error of its stream the provider says something. */
  ghost predicate SaysBeforeFailing(p: Provider) {
    p.answer.Ok? && exists k: nat ::
      && k < |p.answer.value| && SaysSomething(p.answer.value[k])
      && forall j :: 0 <= j < k ==> !p.answer.value[j].ErrorEvent?
  }

  /** The providers that are relayed are exactly those: a stream that was opened, and even
      one that reported usage, is failed over as long as it has said nothing. */
  lemma YieldsIff(p: Provider)
    ensures Yields(p) <==> SaysBeforeFailing(p)
  {
    if p.answer.Ok? {
      var events := p.answer.value;
      if k: nat :| k < |events| && SaysSomething(events[k]) && forall j :: 0 <= j < k ==> !events[j].ErrorEvent? {
        var n := FirstSaying(events, k);
        assert Decides(events, n) && IsContent(events[n]);
      }
      if k :| Decides(events, k) && IsContent(events[k]) {
        assert SaysSomething(events[k]);
      }
    }
  }

  lemma {:induction false} FirstSaying(events: seq<Event>, k: nat) returns (n: nat)
    requires k < |events| && SaysSomething(events[k])
    ensures n <= k && SaysSomething(events[n]) && forall j :: 0 <= j < n ==> !SaysSomething(events[j])
  {
    if j: nat :| j < k && SaysSomething(events[j]) {
      n := FirstSaying(events, j);
    } else {
      n := k;
    }
  }

  /** A provider that says nothing before it fails is as good as absent, if another comes
      after it. */
  lemma SilentIsSkipped(before: seq<Provider>, p: Provider, after: seq<Provider>, c: nat, o: seq<Event>)
    requires !SaysBeforeFailing(p) && after != []
    requires FailsOver(before + [p] + after, c, o)
    ensures exists k :: FailsOver(before + after, k, o)
  {
    YieldsIff(p);
    var all, rest := before + [p] + after, before + after;
    assert all[|before|] == p;
    assert c != |before|;
    if c < |before| {
      SkippedLater(before, p, after, c, o);
    } else {
      SkippedEarlier(before, p, after, c, o);
    }
  }

  lemma SkippedLater(before: seq<Provider>, p: Provider, after: seq<Provider>, c: nat, o: seq<Event>)
    requires c < |before| && FailsOver(before + [p] + after, c, o)
    ensures FailsOver(before + after, c, o)
  {
    var all, rest := before + [p] + after, before + after;
    forall j | 0 <= j <= c
      ensures rest[j] == all[j]
    {
      assert all[j] == before[j] && rest[j] == before[j];
    }
  }

  lemma SkippedEarlier(before: seq<Provider>, p: Provider, after: seq<Provider>, c: nat, o: seq<Event>)
    requires c > |before| && after != [] && FailsOver(before + [p] + after, c, o)
    ensures FailsOver(before + after, c - 1, o)
  {
    var all, rest := before + [p] + after, before + after;
    forall j | 0 <= j < |rest|
      ensures rest[j] == all[if j < |before| then j else j + 1]
    {
      if j >= |before| {
        assert all[j + 1] == after[j - |before|] && rest[j] == after[j - |before|];
      }
    }
    forall j | 0 <= j < c - 1
      ensures !Yields(rest[j])
    {
      assert rest[j] == all[if j < |before| then j else j + 1];
    }
    assert |all| == |rest| + 1;
    assert c < |all| ==> rest[c - 1] == all[c];
    assert rest[|rest| - 1] == all[|all| - 1];
  }

  /** When no provider says anything, the output is the failure of the last, told by its
      kind: refused, failed in its stream, or ended without content. */
  lemma LastFailureTells(providers: seq<Provider>, o: seq<Event>)
    requires providers != [] && FailsOver(providers, |providers|, o)
    ensures var last := providers[|providers| - 1];
            match last.answer
            case Fail(err) => o == [ErrorEvent(Some(Wrapped(last.name, err)), "")]
            case Ok(events) =>
              || (|o| == 1 && o[0].ErrorEvent? && exists k: nat ::
                    k < |events| && events[k] == o[0] && forall j :: 0 <= j < k ==> !events[j].ErrorEvent?)
              || (o == [ErrorEvent(Some(OtherError(last.name + ": stream ended without content")), "")]
                  && forall k :: 0 <= k < |events| ==> !events[k].ErrorEvent?)
  {
    assert o == [o[0]];
  }
}

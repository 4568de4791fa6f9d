/** Sending events to a consumer that may leave (providers/shared/send.go), and what such
    a consumer has got of a provider's events. */
module Delivery {
  import opened Gage

  /** The first send that fails, counting from `k`, or the number of events. */
  function FirstRefused(events: seq<Event>, takes: nat -> bool, k: nat): (r: nat)
    requires k <= |events|
    ensures k <= r <= |events|
    ensures forall j :: k <= j < r ==> takes(j)
    ensures r < |events| ==> !takes(r)
    decreases |events| - k
  {
    if k == |events| || !takes(k) then k else FirstRefused(events, takes, k + 1)
  }

  /** The events up to the first that is not taken. Among the first `n`, those relayed
      from the wire, a failed send is itself reported, by `last`, which may get through. */
  function Received(events: seq<Event>, n: nat, takes: nat -> bool, last: Event): seq<Event> {
    var k := FirstRefused(events, takes, 0);
    if k == |events| then events else events[..k] + if 0 < k < n && takes(k + 1) then [last] else []
  }

  method Send(out: seq<Event>, ev: Event, takes: nat -> bool) returns (ok: bool, out': seq<Event>)
    ensures ok == takes(|out|) && out' == if ok then out + [ev] else out
  {
    ok := takes(|out|);
    out' := if ok then out + [ev] else out;
  }

  /** Report that the consumer has left, to the consumer. */
  method Leave(out: seq<Event>, last: Event, takes: nat -> bool) returns (out': seq<Event>)
    ensures out' == out + if takes(|out| + 1) then [last] else []
  {
    out' := out;
    if takes(|out| + 1) {
      out' := out' + [last];
    }
  }

  /** Everything sent so far was taken. */
  ghost predicate AllTaken(out: seq<Event>, takes: nat -> bool) {
    forall j: nat :: j < |out| ==> takes(j)
  }

  lemma LeftAt(events: seq<Event>, n: nat, takes: nat -> bool, last: Event, out: seq<Event>, ev: Event)
    requires out + [ev] <= events && AllTaken(out, takes) && !takes(|out|)
    ensures Received(events, n, takes, last) == out + if 0 < |out| < n && takes(|out| + 1) then [last] else []
  {
    assert FirstRefused(events, takes, 0) == |out|;
    assert events[..|out|] == out;
  }

  /** What is received is the stream, or a proper prefix of it and at most one event more. */
  lemma ReceivedIsPrefix(events: seq<Event>, n: nat, takes: nat -> bool, last: Event)
    ensures (forall j: nat :: takes(j)) ==> Received(events, n, takes, last) == events
    ensures var r := Received(events, n, takes, last);
            r == events || exists k: nat :: k < |events| && !takes(k) && (r == events[..k] || r == events[..k] + [last])
  {
    var k := FirstRefused(events, takes, 0);
    assert k < |events| ==> events[..k] + [] == events[..k];
  }

  /** What exactly: the events before the first that is not taken, and a report of that if
      something had been sent before, the wire was still being relayed and it gets through. */
  lemma ReceivedExactly(events: seq<Event>, n: nat, takes: nat -> bool, last: Event, k: nat)
    requires k < |events| && !takes(k) && forall j: nat :: j < k ==> takes(j)
    ensures Received(events, n, takes, last)
         == if k > 0 && k < n && takes(k + 1) then events[..k] + [last] else events[..k]
  {
    assert FirstRefused(events, takes, 0) == k;
    assert events[..k] + [] == events[..k];
  }
}

/** Rebuilding an assistant message from a provider's event stream
    (assistantAccum in agent/loop.go). */
module Accumulate {
  import opened Gage

  datatype OpenKind = Closed | OpenText | OpenReasoning

  datatype Acc = Acc(
    parts: seq<Part>,
    openKind: OpenKind,
    openText: string,
    toolCalls: seq<ToolCall>,
    usage: Usage,
    stopReason: StopReason)

  const EMPTY_ACC := Acc([], Closed, "", [], ZERO_USAGE, "")

  /** Close the open run of deltas into a part. */
  function Flush(acc: Acc, signature: string): Acc {
    if acc.openText == "" && signature == "" then acc.(openKind := Closed)
    else
      var closed := acc.(openKind := Closed, openText := "");
      match acc.openKind
      case OpenReasoning => closed.(parts := acc.parts + [ReasoningPart(acc.openText, signature)])
      case OpenText => closed.(parts := acc.parts + [TextPart(acc.openText)])
      case Closed => closed
  }

  /** Append streamed text of one kind, closing a run of the other kind. */
  function Delta(acc: Acc, kind: OpenKind, s: string): Acc {
    var a := if acc.openKind != kind then Flush(acc, "").(openKind := kind) else acc;
    a.(openText := a.openText + s)
  }

  /** What one provider event other than a terminal error does. */
  function Take(acc: Acc, ev: Event): Acc {
    match ev
    case TextDelta(s) => Delta(acc, OpenText, s)
    case ReasoningDelta(s) => Delta(acc, OpenReasoning, s)
    case ReasoningDone(sig) =>
      Flush(if acc.openKind != OpenReasoning then Flush(acc, "").(openKind := OpenReasoning) else acc, sig)
    case ToolCallDone(tc) =>
      var a := Flush(acc, "");
      a.(toolCalls := a.toolCalls + [tc], parts := a.parts + [ToolUsePart(tc)])
    case UsageEvent(u) => acc.(usage := u)
    case MessageDone(stop) => acc.(stopReason := stop)
    case _ => acc
  }

  function TakeAll(acc: Acc, evs: seq<Event>): Acc
    decreases |evs|
  {
    if evs == [] then acc else TakeAll(Take(acc, evs[0]), evs[1..])
  }

  /** The visible text so far, the open run included. */
  function AccText(acc: Acc): string {
    TextOf(acc.parts) + if acc.openKind == OpenText then acc.openText else ""
  }

  /** The content of the rebuilt message; empty when nothing was produced. */
  function Content(acc: Acc): seq<Part> {
    Flush(acc, "").parts
  }

  ghost predicate Sound(acc: Acc) {
    && CallsOf(acc.parts) == acc.toolCalls
    && (acc.openKind == Closed ==> acc.openText == "")
  }

  /** Whatever the stream, the tool calls collected on the side are exactly those
      in the message, and the running text is the text of the message. */
  lemma {:induction false} TakeAllSound(acc: Acc, evs: seq<Event>)
    requires Sound(acc)
    ensures var a := TakeAll(acc, evs);
            && Sound(a)
            && CallsOf(Content(a)) == a.toolCalls
            && TextOf(Content(a)) == AccText(a)
    decreases |evs|
  {
    if evs != [] {
      assert Sound(Take(acc, evs[0])) by { TakeSound(acc, evs[0]); }
      TakeAllSound(Take(acc, evs[0]), evs[1..]);
    } else {
      FlushSound(acc, "");
    }
  }

  lemma FlushSound(acc: Acc, signature: string)
    requires Sound(acc)
    ensures Sound(Flush(acc, signature))
    ensures Flush(acc, signature).toolCalls == acc.toolCalls
    ensures acc.openKind != OpenReasoning ==> TextOf(Flush(acc, signature).parts) == AccText(acc)
    ensures signature == "" ==> TextOf(Flush(acc, signature).parts) == AccText(acc)
  {
    var f := Flush(acc, signature);
    if f.parts != acc.parts {
      assert f.parts[..|f.parts| - 1] == acc.parts;
    }
  }

  lemma TakeSound(acc: Acc, ev: Event)
    requires Sound(acc)
    ensures Sound(Take(acc, ev))
  {
    FlushSound(acc, "");
    match ev
    case ReasoningDone(sig) =>
      FlushSound(if acc.openKind != OpenReasoning then Flush(acc, "").(openKind := OpenReasoning) else acc, sig);
    case ToolCallDone(tc) =>
      var a := Take(acc, ev);
      assert a.parts[..|a.parts| - 1] == Flush(acc, "").parts;
    case _ =>
  }

  lemma {:induction false} TakeAllConcat(acc: Acc, a: seq<Event>, b: seq<Event>)
    ensures TakeAll(acc, a + b) == TakeAll(TakeAll(acc, a), b)
    decreases |a|
  {
    if a == [] {
      assert a + b == b;
    } else {
      assert (a + b)[0] == a[0] && (a + b)[1..] == a[1..] + b;
      TakeAllConcat(Take(acc, a[0]), a[1..], b);
    }
  }

  // ---- accumulator states that cannot be told apart ----

  /** An open run with nothing in it is as good as closed. */
  function Norm(acc: Acc): Acc {
    if acc.openText == "" then acc.(openKind := Closed) else acc
  }

  lemma TakeNorm(acc: Acc, ev: Event)
    ensures Norm(Take(acc, ev)) == Norm(Take(Norm(acc), ev))
  {
  }

  lemma TakeAllSnoc(acc: Acc, evs: seq<Event>, ev: Event)
    ensures TakeAll(acc, evs + [ev]) == Take(TakeAll(acc, evs), ev)
  {
    TakeAllConcat(acc, evs, [ev]);
    assert TakeAll(TakeAll(acc, evs), [ev]) == TakeAll(Take(TakeAll(acc, evs), ev), []);
  }

  /** The states between blocks. */
  ghost predicate Between(acc: Acc) {
    acc.openKind != OpenReasoning && (acc.openKind == Closed <==> acc.openText == "")
  }

  /** One more piece of a run, whether or not the run was already opened. */
  lemma DeltaNorm(start: Acc, acc: Acc, kind: OpenKind, sofar: string, s: string)
    requires Between(start) && kind != Closed
    requires Norm(acc) == Norm(Delta(start, kind, sofar)) || (sofar == "" && Norm(acc) == start)
    ensures Norm(Delta(acc, kind, s)) == Norm(Delta(start, kind, sofar + s))
  {
    DeltaOfNorm(acc, kind, s);
    if Norm(acc) == Norm(Delta(start, kind, sofar)) {
      DeltaOfNorm(Delta(start, kind, sofar), kind, s);
      DeltaTwice(start, kind, sofar, s);
    } else {
      assert "" + s == s;
    }
  }

  lemma DeltaOfNorm(acc: Acc, kind: OpenKind, s: string)
    requires kind != Closed
    ensures Norm(Delta(acc, kind, s)) == Norm(Delta(Norm(acc), kind, s))
  {
  }

  lemma DeltaTwice(acc: Acc, kind: OpenKind, s: string, t: string)
    requires kind != Closed
    ensures Delta(Delta(acc, kind, s), kind, t) == Delta(acc, kind, s + t)
  {
    var a := if acc.openKind != kind then Flush(acc, "").(openKind := kind) else acc;
    assert (a.openText + s) + t == a.openText + (s + t);
  }

  /** Closing a reasoning block that was never opened is closing an empty one. */
  lemma StopAtOnce(start: Acc, signature: string)
    requires Between(start)
    ensures Take(start, ReasoningDone(signature)) == Flush(Delta(start, OpenReasoning, ""), signature)
  {
    assert "" + "" == "";
  }

  /** The part an open run of text becomes. */
  function Flushed(open: string): seq<Part> {
    if open == "" then [] else [TextPart(open)]
  }

  /** The accumulator as the agent holds it: fields updated per event. */
  class AssistantAccum {
    var parts: seq<Part>
    var openKind: OpenKind
    var openText: string
    var toolCalls: seq<ToolCall>
    var usage: Usage
    var stopReason: StopReason

    function View(): Acc
      reads this
    {
      Acc(parts, openKind, openText, toolCalls, usage, stopReason)
    }

    constructor ()
      ensures View() == EMPTY_ACC
    {
      parts, openKind, openText := [], Closed, "";
      toolCalls, usage, stopReason := [], ZERO_USAGE, "";
    }

    method DoFlush(signature: string)
      modifies this
      ensures View() == Flush(old(View()), signature)
    {
      if openText == "" && signature == "" {
        openKind := Closed;
        return;
      }
      match openKind {
        case OpenReasoning => parts := parts + [ReasoningPart(openText, signature)];
        case OpenText => parts := parts + [TextPart(openText)];
        case Closed =>
      }
      openKind := Closed;
      openText := "";
    }

    method DoDelta(kind: OpenKind, s: string)
      modifies this
      ensures View() == Delta(old(View()), kind, s)
    {
      if openKind != kind {
        DoFlush("");
        openKind := kind;
      }
      openText := openText + s;
    }

    method DoTake(ev: Event)
      modifies this
      ensures View() == Take(old(View()), ev)
    {
      match ev {
        case TextDelta(s) => DoDelta(OpenText, s);
        case ReasoningDelta(s) => DoDelta(OpenReasoning, s);
        case ReasoningDone(sig) =>
          if openKind != OpenReasoning {
            DoFlush("");
            openKind := OpenReasoning;
          }
          DoFlush(sig);
        case ToolCallDone(tc) =>
          DoFlush("");
          toolCalls := toolCalls + [tc];
          parts := parts + [ToolUsePart(tc)];
        case UsageEvent(u) => usage := u;
        case MessageDone(stop) => stopReason := stop;
        case _ =>
      }
    }
  }
}

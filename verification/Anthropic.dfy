/** The Messages wire format: stream to events (providers/anthropic/stream.go), and
    message back to blocks (assistantContent in providers/anthropic/encode.go). */
module Anthropic {
  import opened Gage
  import opened Delivery
  import Strings

  /** The content blocks of a wire message. */
  datatype Block =
    | Thinking(thinking: string, signature: string)
    | Redacted(data: string)
    | Text(text: string)
    | Use(id: string, name: string, input: string)

  datatype Kind = TextKind | ThinkingKind | RedactedKind | ToolUseKind | OtherKind

  datatype DeltaPiece =
    | TextPiece(s: string)
    | ThinkingPiece(s: string)
    | SignaturePiece(s: string)
    | InputPiece(s: string)
    | OtherPiece

  /** A decoded stream event. `Ignored` stands for pings, unknown types and payloads
      that do not decode. */
  datatype WireEvent =
    | WireStart(startUsage: Option<Usage>)
    | BlockStart(index: int, kind: Kind, id: string, name: string, data: string)
    | BlockDelta(index: int, piece: DeltaPiece)
    | BlockStop(index: int)
    | WireDelta(stopReason: string, deltaUsage: Option<Usage>)
    | WireError(msg: string)
    | Ignored

  const REDACTED_PREFIX := "redacted:"
  const END_TURN := "end_turn"
  const TOOL_USE := "tool_use"

  /** An open content block. */
  datatype Open = Open(kind: Kind, id: string, name: string, input: string, signature: string)

  datatype PumpState = PumpState(
    blocks: map<int, Open>,
    stopReason: StopReason,
    usage: Usage,
    haveUsage: bool,
    out: seq<Event>)

  /** Usage snapshots are cumulative: a reported field replaces the earlier figure. */
  function MergeUsage(dst: Usage, u: Usage): Usage {
    dst.(input := if u.input > 0 then u.input else dst.input,
         output := if u.output > 0 then u.output else dst.output,
         cacheRead := if u.cacheRead > 0 then u.cacheRead else dst.cacheRead,
         cacheWrite := if u.cacheWrite > 0 then u.cacheWrite else dst.cacheWrite)
  }

  function OnStart(st: PumpState, e: WireEvent): PumpState
    requires e.BlockStart?
  {
    var named := e.kind.ToolUseKind?;
    var open := Open(e.kind, if named then e.id else "", if named then e.name else "", "",
                     if e.kind.RedactedKind? then REDACTED_PREFIX + e.data else "");
    var st' := st.(blocks := st.blocks[e.index := open]);
    if named then st'.(stopReason := TOOL_USE, out := st.out + [ToolCallStart(ToolCall(e.id, e.name, ""))]) else st'
  }

  function OnDelta(st: PumpState, index: int, piece: DeltaPiece): PumpState {
    match piece
    case TextPiece(s) => st.(out := st.out + [TextDelta(s)])
    case ThinkingPiece(s) => st.(out := st.out + [ReasoningDelta(s)])
    case SignaturePiece(s) =>
      if index !in st.blocks then st
      else
        var b := st.blocks[index];
        st.(blocks := st.blocks[index := b.(signature := b.signature + s)])
    case InputPiece(s) =>
      if index !in st.blocks || !st.blocks[index].kind.ToolUseKind? then st
      else
        var b := st.blocks[index].(input := st.blocks[index].input + s);
        st.(blocks := st.blocks[index := b], out := st.out + [ToolCallDelta(ToolCall(b.id, b.name, b.input))])
    case OtherPiece => st
  }

  /** The event that completes a block, if one does. */
  function BlockDone(b: Open): Option<Event> {
    match b.kind
    case ToolUseKind => Some(ToolCallDone(ToolCall(b.id, b.name, NonEmpty(b.input))))
    case ThinkingKind => Some(ReasoningDone(b.signature))
    case RedactedKind => Some(ReasoningDone(b.signature))
    case _ => None
  }

  function OnStop(st: PumpState, index: int): PumpState {
    if index !in st.blocks then st
    else
      var done := BlockDone(st.blocks[index]);
      if done.Some? then st.(out := st.out + [done.value]) else st
  }

  function PumpStep(st: PumpState, e: WireEvent): PumpState {
    match e
    case WireStart(u) => if u.Some? then st.(usage := u.value, haveUsage := true) else st
    case BlockStart(_, _, _, _, _) => OnStart(st, e)
    case BlockDelta(index, piece) => OnDelta(st, index, piece)
    case BlockStop(index) => OnStop(st, index)
    case WireDelta(stop, u) =>
      var st' := if stop != "" then st.(stopReason := stop) else st;
      if u.Some? then st'.(usage := MergeUsage(st.usage, u.value), haveUsage := true) else st'
    case WireError(_) => st
    case Ignored => st
  }

  /** Everything up to the first error. */
  function PumpAll(st: PumpState, es: seq<WireEvent>): PumpState
    decreases |es|
  {
    if es == [] || es[0].WireError? then st else PumpAll(PumpStep(st, es[0]), es[1..])
  }

  function FirstError(es: seq<WireEvent>): Option<string> {
    if es == [] then None
    else if es[0].WireError? then Some(es[0].msg)
    else FirstError(es[1..])
  }

  const PUMP_START := PumpState(map[], END_TURN, ZERO_USAGE, false, [MessageStart])

  /** The report of an error: one on the wire, or the context's when the consumer has left. */
  function Failure(why: Err): Event {
    ErrorEvent(Some(Wrapped("anthropic", why)), "")
  }

  /** What closes the event stream. */
  function Closing(st: PumpState, error: Option<string>): seq<Event> {
    if error.Some? then [Failure(OtherError(error.value))]
    else (if st.haveUsage then [UsageEvent(st.usage)] else []) + [MessageDone(st.stopReason)]
  }

  function PumpOutput(es: seq<WireEvent>): seq<Event> {
    var st := PumpAll(PUMP_START, es);
    st.out + Closing(st, FirstError(es))
  }

  lemma {:induction false} PumpGrows(st: PumpState, es: seq<WireEvent>)
    ensures st.out <= PumpAll(st, es).out
    decreases |es|
  {
    if es != [] && !es[0].WireError? {
      PumpGrows(PumpStep(st, es[0]), es[1..]);
    }
  }

  /** The send at event `i` fails. */
  lemma LeftMidway(es: seq<WireEvent>, i: nat, st: PumpState, ev: Event, takes: nat -> bool, last: Event)
    requires i < |es| && PumpAll(st, es[i..]) == PumpAll(PUMP_START, es)
    requires !es[i].WireError? && PumpStep(st, es[i]).out == st.out + [ev]
    requires AllTaken(st.out, takes) && !takes(|st.out|) && st.out != []
    ensures Received(PumpOutput(es), |PumpAll(PUMP_START, es).out|, takes, last)
         == st.out + if takes(|st.out| + 1) then [last] else []
  {
    assert es[i..][0] == es[i];
    PumpGrows(PumpStep(st, es[i]), es[i..][1..]);
    LeftAt(PumpOutput(es), |PumpAll(PUMP_START, es).out|, takes, last, st.out, ev);
  }

  /** One wire event, its blocks updated by index. When a send fails nothing more is done. */
  method Handle(start: PumpState, e: WireEvent, takes: nat -> bool) returns (ok: bool, st: PumpState)
    requires !e.WireError? && AllTaken(start.out, takes)
    ensures ok ==> st == PumpStep(start, e) && AllTaken(st.out, takes)
    ensures !ok ==> st.out == start.out && !takes(|st.out|) && exists ev :: PumpStep(start, e).out == st.out + [ev]
  {
    ok, st := true, start;
    match e {
      case WireStart(u) =>
        if u.Some? {
          st := st.(usage := u.value, haveUsage := true);
        }
      case BlockStart(index, kind, id, name, data) =>
        var b := Open(kind, "", "", "", "");
        match kind {
          case ToolUseKind =>
            b := b.(id := id, name := name);
            ok, st := Emit(st, ToolCallStart(ToolCall(id, name, "")), takes);
            if !ok {
              return;
            }
            st := st.(stopReason := TOOL_USE);
          case RedactedKind => b := b.(signature := REDACTED_PREFIX + data);
          case _ =>
        }
        st := st.(blocks := st.blocks[index := b]);
      case BlockDelta(index, piece) =>
        match piece {
          case TextPiece(s) => ok, st := Emit(st, TextDelta(s), takes);
          case ThinkingPiece(s) => ok, st := Emit(st, ReasoningDelta(s), takes);
          case SignaturePiece(s) =>
            if index in st.blocks {
              var b := st.blocks[index];
              st := st.(blocks := st.blocks[index := b.(signature := b.signature + s)]);
            }
          case InputPiece(s) =>
            if index in st.blocks && st.blocks[index].kind.ToolUseKind? {
              var b := st.blocks[index].(input := st.blocks[index].input + s);
              st := st.(blocks := st.blocks[index := b]);
              ok, st := Emit(st, ToolCallDelta(ToolCall(b.id, b.name, b.input)), takes);
            }
          case OtherPiece =>
        }
      case BlockStop(index) =>
        if index in st.blocks {
          var done := BlockDone(st.blocks[index]);
          if done.Some? {
            ok, st := Emit(st, done.value, takes);
          }
        }
      case WireDelta(stop, u) =>
        if stop != "" {
          st := st.(stopReason := stop);
        }
        if u.Some? {
          st := st.(usage := MergeUsage(st.usage, u.value), haveUsage := true);
        }
      case Ignored =>
    }
  }

  method Emit(start: PumpState, ev: Event, takes: nat -> bool) returns (ok: bool, st: PumpState)
    ensures ok == takes(|start.out|)
    ensures st == if ok then start.(out := start.out + [ev]) else start
  {
    var out;
    ok, out := Send(start.out, ev, takes);
    st := start.(out := out);
  }

  /** The end of a stream that did not fail: the usage, and the stop reason. */
  method Close(st: PumpState, takes: nat -> bool, ghost full: seq<Event>, ghost n: nat, ghost last: Event)
      returns (out: seq<Event>)
    requires full == st.out + Closing(st, None) && n <= |st.out| && AllTaken(st.out, takes)
    ensures out == Received(full, n, takes, last)
  {
    var ok;
    out := st.out;
    if st.haveUsage {
      ok, out := Send(out, UsageEvent(st.usage), takes);
      if !ok {
        LeftAt(full, n, takes, last, out, UsageEvent(st.usage));
        return;
      }
    }
    ok, out := Send(out, MessageDone(st.stopReason), takes);
    if !ok {
      LeftAt(full, n, takes, last, out, MessageDone(st.stopReason));
    }
  }

  /** The pump as it runs. The `k`-th event is taken if `takes(k)`. */
  method Pump(es: seq<WireEvent>, takes: nat -> bool, why: Err) returns (out: seq<Event>)
    ensures out == Received(PumpOutput(es), |PumpAll(PUMP_START, es).out|, takes, Failure(why))
  {
    ghost var full, n := PumpOutput(es), |PumpAll(PUMP_START, es).out|;
    PumpGrows(PUMP_START, es);
    var ok, st := Emit(PUMP_START.(out := []), MessageStart, takes);
    if !ok {
      LeftAt(full, n, takes, Failure(why), [], MessageStart);
      return [];
    }
    assert st == PUMP_START && es[0..] == es;
    for i := 0 to |es|
      invariant PumpAll(st, es[i..]) == PumpAll(PUMP_START, es) && FirstError(es[i..]) == FirstError(es)
      invariant AllTaken(st.out, takes) && st.out != []
    {
      assert es[i..][0] == es[i] && es[i..][1..] == es[i + 1..];
      if es[i].WireError? {
        var failed := Failure(OtherError(es[i].msg));
        ok, out := Send(st.out, failed, takes);
        if !ok {
          LeftAt(full, n, takes, Failure(why), out, failed);
        }
        return;
      }
      ghost var before := st;
      PumpGrows(st, es[i..]);
      ok, st := Handle(st, es[i], takes);
      if !ok {
        ghost var ev :| PumpStep(before, es[i]).out == before.out + [ev];
        LeftMidway(es, i, before, ev, takes, Failure(why));
        out := Leave(st.out, Failure(why), takes);
        return;
      }
      PumpGrows(st, es[i + 1..]);
    }
    assert es[|es|..] == [];
    out := Close(st, takes, full, n, Failure(why));
  }

  // ---- the encoder ----

  predicate HasPrefix(s: string, prefix: string) {
    prefix <= s
  }

  function EncodeReasoning(thought: string, signature: string): Block {
    if HasPrefix(signature, REDACTED_PREFIX) then Redacted(signature[|REDACTED_PREFIX|..])
    else Thinking(thought, signature)
  }

  function ReasoningBlocks(parts: seq<Part>): seq<Block> {
    if parts == [] then []
    else
      (if parts[0].ReasoningPart? then [EncodeReasoning(parts[0].thought, parts[0].signature)] else [])
      + ReasoningBlocks(parts[1..])
  }

  function OtherBlocks(parts: seq<Part>): seq<Block> {
    if parts == [] then []
    else
      OtherBlock(parts[0]) + OtherBlocks(parts[1..])
  }

  function OtherBlock(p: Part): seq<Block> {
    match p
    case TextPart(s) => [Text(s)]
    case ToolUsePart(tc) => [Use(tc.id, tc.name, NonEmpty(tc.input))]
    case _ => []
  }

  /** Thinking blocks are replayed ahead of the message's other blocks. */
  method AssistantContent(parts: seq<Part>) returns (content: seq<Block>)
    ensures content == ReasoningBlocks(parts) + OtherBlocks(parts)
  {
    content := [];
    for i := 0 to |parts|
      invariant content + ReasoningBlocks(parts[i..]) == ReasoningBlocks(parts)
    {
      ghost var rest := ReasoningBlocks(parts[i + 1..]);
      assert parts[i..][0] == parts[i] && parts[i..][1..] == parts[i + 1..];
      if parts[i].ReasoningPart? {
        var b := EncodeReasoning(parts[i].thought, parts[i].signature);
        Strings.Assoc(content, [b], rest);
        content := content + [b];
      } else {
        assert [] + rest == rest;
      }
    }
    assert content == ReasoningBlocks(parts);
    for i := 0 to |parts|
      invariant content + OtherBlocks(parts[i..]) == ReasoningBlocks(parts) + OtherBlocks(parts)
    {
      var block := OtherBlock(parts[i]);
      ghost var rest := OtherBlocks(parts[i + 1..]);
      assert parts[i..][0] == parts[i] && parts[i..][1..] == parts[i + 1..];
      Strings.Assoc(content, block, rest);
      content := content + block;
    }
    assert content == ReasoningBlocks(parts) + OtherBlocks(parts);
  }
}

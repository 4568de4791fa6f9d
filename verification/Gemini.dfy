/** The generateContent wire format: stream to events (providers/gemini/stream.go) and
    conversation back to contents (providers/gemini/encode.go). */
module Gemini {
  import opened Gage
  import opened Delivery
  import opened Numerals
  import Strings

  datatype FunctionCall = FunctionCall(name: string, args: string)

  datatype WirePart = WirePart(text: string, thought: bool, signature: string, call: Option<FunctionCall>)

  /** A decoded chunk; `parts` are those of its first candidate, if it has one. */
  datatype Chunk = Chunk(error: Option<string>, usage: Option<Usage>, candidate: bool, parts: seq<WirePart>,
                         finish: string)

  datatype PumpState = PumpState(
    inThought: bool,
    thoughtSig: string,
    callIdx: nat,
    sawTool: bool,
    finish: string,
    usage: Usage,
    haveUsage: bool,
    out: seq<Event>)

  const PUMP_START := PumpState(false, "", 0, false, "", ZERO_USAGE, false, [MessageStart])

  function CallID(n: nat): string {
    "call_" + Decimal(n)
  }

  function CloseThought(st: PumpState): PumpState {
    if !st.inThought then st
    else st.(inThought := false, thoughtSig := "", out := st.out + [ReasoningDone(st.thoughtSig)])
  }

  function PartStep(st: PumpState, p: WirePart): PumpState {
    if p.call.Some? then
      var st' := CloseThought(st);
      var call := ToolCall(CallID(st.callIdx), p.call.value.name, NonEmpty(p.call.value.args));
      st'.(callIdx := st.callIdx + 1, sawTool := true,
           out := st'.out + [ToolCallStart(ToolCall(call.id, call.name, ""))] + [ToolCallDelta(call)]
             + [ToolCallDone(call)])
    else if p.thought then
      st.(inThought := true,
          thoughtSig := if p.signature != "" then p.signature else st.thoughtSig,
          out := if p.text != "" then st.out + [ReasoningDelta(p.text)] else st.out)
    else if p.text != "" then
      var st' := CloseThought(st);
      st'.(out := st'.out + [TextDelta(p.text)])
    else st
  }

  function PartSteps(st: PumpState, parts: seq<WirePart>): PumpState
    decreases |parts|
  {
    if parts == [] then st else PartSteps(PartStep(st, parts[0]), parts[1..])
  }

  /** Usage snapshots are cumulative: the latest counts. */
  function Counted(st: PumpState, c: Chunk): PumpState {
    if c.usage.Some? then st.(usage := c.usage.value, haveUsage := true) else st
  }

  function ChunkStep(st: PumpState, c: Chunk): PumpState {
    var st' := Counted(st, c);
    if !c.candidate then st'
    else
      var st'' := PartSteps(st', c.parts);
      if c.finish != "" then st''.(finish := c.finish) else st''
  }

  /** Everything up to the first error. */
  function PumpAll(st: PumpState, chunks: seq<Chunk>): PumpState
    decreases |chunks|
  {
    if chunks == [] || chunks[0].error.Some? then st else PumpAll(ChunkStep(st, chunks[0]), chunks[1..])
  }

  function FirstError(chunks: seq<Chunk>): Option<string> {
    if chunks == [] then None
    else if chunks[0].error.Some? then chunks[0].error
    else FirstError(chunks[1..])
  }

  /** A tool call in the turn takes precedence over a plain stop. */
  function MapStopReason(finish: string, sawTool: bool): StopReason {
    if finish == "" || finish == "STOP" then if sawTool then "tool_use" else "end_turn"
    else if finish == "MAX_TOKENS" then "max_tokens"
    else finish
  }

  /** The report of an error: one on the wire, or the context's when the consumer has left. */
  function Failure(why: Err): Event {
    ErrorEvent(Some(Wrapped("gemini", why)), "")
  }

  function Closing(st: PumpState): seq<Event> {
    (if st.haveUsage then [UsageEvent(st.usage)] else []) + [MessageDone(MapStopReason(st.finish, st.sawTool))]
  }

  function PumpOutput(chunks: seq<Chunk>): seq<Event> {
    var st := PumpAll(PUMP_START, chunks);
    var error := FirstError(chunks);
    if error.Some? then st.out + [Failure(OtherError(error.value))]
    else CloseThought(st).out + Closing(st)
  }

  lemma {:induction false} PartsGrow(st: PumpState, parts: seq<WirePart>)
    ensures st.out <= PartSteps(st, parts).out
    decreases |parts|
  {
    if parts != [] {
      PartsGrow(PartStep(st, parts[0]), parts[1..]);
    }
  }

  lemma {:induction false} PumpGrows(st: PumpState, chunks: seq<Chunk>)
    ensures st.out <= PumpAll(st, chunks).out
    decreases |chunks|
  {
    if chunks != [] && chunks[0].error.None? {
      PartsGrow(Counted(st, chunks[0]), chunks[0].parts);
      PumpGrows(ChunkStep(st, chunks[0]), chunks[1..]);
    }
  }

  method Emit(start: PumpState, ev: Event, takes: nat -> bool) returns (ok: bool, st: PumpState)
    ensures ok == takes(|start.out|)
    ensures st == if ok then start.(out := start.out + [ev]) else start
  {
    var out;
    ok, out := Send(start.out, ev, takes);
    st := start.(out := out);
  }

  /** A send that fails leaves the thought closed all the same. */
  method CloseOpenThought(start: PumpState, takes: nat -> bool) returns (ok: bool, st: PumpState)
    requires AllTaken(start.out, takes)
    ensures ok ==> st == CloseThought(start) && AllTaken(st.out, takes)
    ensures !ok ==>
              && st.out == start.out && !takes(|st.out|)
              && CloseThought(start).out == st.out + [ReasoningDone(start.thoughtSig)]
  {
    ok, st := true, start;
    if !st.inThought {
      return;
    }
    var sig := st.thoughtSig;
    st := st.(inThought := false, thoughtSig := "");
    ok, st := Emit(st, ReasoningDone(sig), takes);
  }

  /** What was sent before a send failed, on the way to `full`. */
  ghost predicate Stopped(out: seq<Event>, full: seq<Event>, takes: nat -> bool) {
    AllTaken(out, takes) && !takes(|out|) && out < full
  }

  /** One part of a candidate. When a send fails nothing more is done. */
  method Handle(start: PumpState, p: WirePart, takes: nat -> bool) returns (ok: bool, st: PumpState)
    requires AllTaken(start.out, takes)
    ensures start.out <= st.out
    ensures ok ==> st == PartStep(start, p) && AllTaken(st.out, takes)
    ensures !ok ==> Stopped(st.out, PartStep(start, p).out, takes)
  {
    ok, st := true, start;
    if p.call.Some? {
      ok, st := CloseOpenThought(st, takes);
      if !ok {
        return;
      }
      ok, st := HandleCall(start, st, p, takes);
    } else if p.thought {
      st := st.(inThought := true);
      if p.signature != "" {
        st := st.(thoughtSig := p.signature);
      }
      if p.text != "" {
        ok, st := Emit(st, ReasoningDelta(p.text), takes);
      }
    } else if p.text != "" {
      ok, st := CloseOpenThought(st, takes);
      if !ok {
        return;
      }
      ok, st := Emit(st, TextDelta(p.text), takes);
    }
  }

  /** A call comes whole: it starts, its input arrives, it is done. */
  method HandleCall(ghost start: PumpState, closed: PumpState, p: WirePart, takes: nat -> bool)
      returns (ok: bool, st: PumpState)
    requires p.call.Some? && closed == CloseThought(start) && AllTaken(closed.out, takes)
    ensures closed.out <= st.out
    ensures ok ==> st == PartStep(start, p) && AllTaken(st.out, takes)
    ensures !ok ==> Stopped(st.out, PartStep(start, p).out, takes)
  {
    var call := ToolCall(CallID(closed.callIdx), p.call.value.name, NonEmpty(p.call.value.args));
    st := closed.(callIdx := closed.callIdx + 1, sawTool := true);
    ghost var full := PartStep(start, p).out;
    var begun := ToolCallStart(ToolCall(call.id, call.name, ""));
    assert full == closed.out + [begun] + [ToolCallDelta(call)] + [ToolCallDone(call)];
    ok, st := Emit(st, begun, takes);
    if !ok {
      assert full == st.out + ([begun] + [ToolCallDelta(call)] + [ToolCallDone(call)]);
      return;
    }
    ok, st := Emit(st, ToolCallDelta(call), takes);
    if !ok {
      assert full == st.out + ([ToolCallDelta(call)] + [ToolCallDone(call)]);
      return;
    }
    ok, st := Emit(st, ToolCallDone(call), takes);
  }

  /** One chunk of the stream. */
  method HandleChunk(start: PumpState, c: Chunk, takes: nat -> bool) returns (ok: bool, st: PumpState)
    requires AllTaken(start.out, takes)
    ensures start.out <= st.out
    ensures ok ==> st == ChunkStep(start, c) && AllTaken(st.out, takes)
    ensures !ok ==> Stopped(st.out, ChunkStep(start, c).out, takes)
  {
    ok, st := true, start;
    if c.usage.Some? {
      st := st.(usage := c.usage.value, haveUsage := true);
    }
    if !c.candidate {
      return;
    }
    for k := 0 to |c.parts|
      invariant start.out <= st.out && AllTaken(st.out, takes)
      invariant PartSteps(st, c.parts[k..]) == PartSteps(Counted(start, c), c.parts)
    {
      assert c.parts[k..][0] == c.parts[k] && c.parts[k..][1..] == c.parts[k + 1..];
      PartsGrow(PartStep(st, c.parts[k]), c.parts[k + 1..]);
      ok, st := Handle(st, c.parts[k], takes);
      if !ok {
        return;
      }
    }
    assert c.parts[|c.parts|..] == [];
    if c.finish != "" {
      st := st.(finish := c.finish);
    }
  }

  /** The end of a stream that did not fail: an open thought is closed, then the usage
      and the stop reason. */
  method Close(start: PumpState, takes: nat -> bool, ghost full: seq<Event>, ghost n: nat, ghost last: Event)
      returns (out: seq<Event>)
    requires full == CloseThought(start).out + Closing(start) && n <= |start.out| && AllTaken(start.out, takes)
    ensures out == Received(full, n, takes, last)
  {
    var ok, st := CloseOpenThought(start, takes);
    out := st.out;
    if !ok {
      LeftAt(full, n, takes, last, out, ReasoningDone(start.thoughtSig));
      return;
    }
    if st.haveUsage {
      ok, out := Send(out, UsageEvent(st.usage), takes);
      if !ok {
        LeftAt(full, n, takes, last, out, UsageEvent(st.usage));
        return;
      }
    }
    ok, out := Send(out, MessageDone(MapStopReason(st.finish, st.sawTool)), takes);
    if !ok {
      LeftAt(full, n, takes, last, out, MessageDone(MapStopReason(st.finish, st.sawTool)));
    }
  }

  /** A failed send ends the relaying. */
  lemma LeftMidway(chunks: seq<Chunk>, relayed: seq<Event>, out: seq<Event>, takes: nat -> bool, last: Event)
    requires Stopped(out, relayed, takes) && out != [] && relayed <= PumpAll(PUMP_START, chunks).out
    ensures Received(PumpOutput(chunks), |PumpAll(PUMP_START, chunks).out|, takes, last)
         == out + if takes(|out| + 1) then [last] else []
  {
    assert out + [relayed[|out|]] <= relayed;
    LeftAt(PumpOutput(chunks), |PumpAll(PUMP_START, chunks).out|, takes, last, out, relayed[|out|]);
  }

  /** The pump as it runs. The `k`-th event is taken if `takes(k)`. */
  method Pump(chunks: seq<Chunk>, takes: nat -> bool, why: Err) returns (out: seq<Event>)
    ensures out == Received(PumpOutput(chunks), |PumpAll(PUMP_START, chunks).out|, takes, Failure(why))
  {
    ghost var full, n := PumpOutput(chunks), |PumpAll(PUMP_START, chunks).out|;
    PumpGrows(PUMP_START, chunks);
    var ok, st := Emit(PUMP_START.(out := []), MessageStart, takes);
    if !ok {
      LeftAt(full, n, takes, Failure(why), [], MessageStart);
      return [];
    }
    assert st == PUMP_START && chunks[0..] == chunks;
    for i := 0 to |chunks|
      invariant PumpAll(st, chunks[i..]) == PumpAll(PUMP_START, chunks) && FirstError(chunks[i..]) == FirstError(chunks)
      invariant AllTaken(st.out, takes) && st.out != []
    {
      assert chunks[i..][0] == chunks[i] && chunks[i..][1..] == chunks[i + 1..];
      if chunks[i].error.Some? {
        var failed := Failure(OtherError(chunks[i].error.value));
        ok, out := Send(st.out, failed, takes);
        if !ok {
          LeftAt(full, n, takes, Failure(why), out, failed);
        }
        return;
      }
      ghost var relayed := ChunkStep(st, chunks[i]).out;
      PumpGrows(ChunkStep(st, chunks[i]), chunks[i + 1..]);
      ok, st := HandleChunk(st, chunks[i], takes);
      if !ok {
        LeftMidway(chunks, relayed, st.out, takes, Failure(why));
        out := Leave(st.out, Failure(why), takes);
        return;
      }
    }
    assert chunks[|chunks|..] == [];
    out := Close(st, takes, full, n, Failure(why));
  }

  // ---- the encoder ----

  /** The parts of a content, each with the signature it has on the wire, if any.
      The encoder signs thoughts only. */
  datatype ContentPiece =
    | PlainText(text: string, signature: string)
    | Thought(thought: string, signature: string)
    | Call(name: string, args: string, signature: string)
    | Response(name: string, result: Payload)
    | Media(payload: string)

  datatype Content = Content(fromModel: bool, parts: seq<ContentPiece>)

  function AssistantPiece(p: Part): seq<ContentPiece> {
    match p
    case TextPart(s) => [PlainText(s, "")]
    case ReasoningPart(s, sig) => if sig == "" then [] else [Thought(s, sig)]
    case ToolUsePart(tc) => [Call(tc.name, NonEmpty(tc.input), "")]
    case _ => []
  }

  function AssistantParts(parts: seq<Part>): seq<ContentPiece> {
    if parts == [] then [] else AssistantPiece(parts[0]) + AssistantParts(parts[1..])
  }

  /** The name on record for each call id, the latest call of an id counting. */
  function Names(names: map<string, string>, parts: seq<Part>): map<string, string>
    decreases |parts|
  {
    if parts == [] then names
    else Names(if parts[0].ToolUsePart? then names[parts[0].call.id := parts[0].call.name] else names, parts[1..])
  }

  function NameFor(names: map<string, string>, id: string): string {
    if id in names && names[id] != "" then names[id] else id
  }

  function ResultParts(names: map<string, string>, parts: seq<Part>): seq<ContentPiece> {
    if parts == [] then []
    else
      (if parts[0].ToolResultPart? then [Response(NameFor(names, parts[0].result.callID), parts[0].result.content)]
       else [])
      + ResultParts(names, parts[1..])
  }

  function UserParts(parts: seq<Part>): seq<ContentPiece> {
    if parts == [] then []
    else
      (match parts[0]
       case TextPart(s) => [PlainText(s, "")]
       case MediaPart(payload) => [Media(payload)]
       case _ => [])
      + UserParts(parts[1..])
  }

  function MessageParts(names: map<string, string>, m: Message): seq<ContentPiece> {
    match m.role
    case RoleTool => ResultParts(names, m.content)
    case RoleAssistant => AssistantParts(m.content)
    case _ => UserParts(m.content)
  }

  function NamesAfter(names: map<string, string>, m: Message): map<string, string> {
    if m.role.RoleAssistant? then Names(names, m.content) else names
  }

  /** One content a message, messages without parts left out. */
  function Contents(names: map<string, string>, msgs: seq<Message>): seq<Content>
    decreases |msgs|
  {
    if msgs == [] then []
    else
      var parts := MessageParts(names, msgs[0]);
      (if parts == [] then [] else [Content(msgs[0].role.RoleAssistant?, parts)])
      + Contents(NamesAfter(names, msgs[0]), msgs[1..])
  }

  method ToContents(msgs: seq<Message>) returns (out: seq<Content>)
    ensures out == Contents(map[], msgs)
  {
    out := [];
    var names: map<string, string> := map[];
    for i := 0 to |msgs|
      invariant out + Contents(names, msgs[i..]) == Contents(map[], msgs)
    {
      var m := msgs[i];
      assert msgs[i..][0] == m && msgs[i..][1..] == msgs[i + 1..];
      var parts := MessageParts(names, m);
      names := NamesAfter(names, m);
      ghost var rest := Contents(names, msgs[i + 1..]);
      if parts == [] {
        assert [] + rest == rest;
        continue;
      }
      var content := Content(m.role.RoleAssistant?, parts);
      Strings.Assoc(out, [content], rest);
      out := out + [content];
    }
    assert out + [] == out;
  }
}

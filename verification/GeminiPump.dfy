/** What the generateContent pump emits, read off the wire's history instead of the pump's
    state: every part by what came before it, and the closing figures. */
module GeminiPump {
  import opened Gage
  import opened Numerals
  import opened Gemini
  import GeminiReplay
  import Strings

  // ---- the history of a stream ----

  /** A part that ends an open thought: a call, or text that is no thought. */
  predicate EndsThought(p: WirePart) {
    p.call.Some? || (!p.thought && p.text != "")
  }

  /** A thought has begun since the last part that ends thoughts. */
  predicate ThoughtOpen(parts: seq<WirePart>) {
    parts != [] &&
      var last := parts[|parts| - 1];
      !EndsThought(last) && (last.thought || ThoughtOpen(parts[..|parts| - 1]))
  }

  /** The signature its parts gave last. */
  function SignatureOpen(parts: seq<WirePart>): string {
    if parts == [] || EndsThought(parts[|parts| - 1]) then ""
    else
      var last := parts[|parts| - 1];
      if last.thought && last.signature != "" then last.signature else SignatureOpen(parts[..|parts| - 1])
  }

  function CallsIn(parts: seq<WirePart>): nat {
    if parts == [] then 0 else CallsIn(parts[..|parts| - 1]) + if parts[|parts| - 1].call.Some? then 1 else 0
  }

  // ---- what each part makes known ----

  /** The end of the thought open after `before`, if one is. */
  function Ended(before: seq<WirePart>): seq<Event> {
    if ThoughtOpen(before) then [ReasoningDone(SignatureOpen(before))] else []
  }

  /** What part `p` makes known after `before`. Calls are numbered from zero. */
  function Says(before: seq<WirePart>, p: WirePart): seq<Event> {
    match p.call
    case Some(FunctionCall(name, args)) =>
      var id := "call_" + Decimal(CallsIn(before));
      var call := ToolCall(id, name, if args == "" then "{}" else args);
      Ended(before) + [ToolCallStart(ToolCall(id, name, "")), ToolCallDelta(call), ToolCallDone(call)]
    case None =>
      if p.text == "" then []
      else if p.thought then [ReasoningDelta(p.text)]
      else Ended(before) + [TextDelta(p.text)]
  }

  function SaysAll(parts: seq<WirePart>): seq<Event> {
    if parts == [] then [] else SaysAll(parts[..|parts| - 1]) + Says(parts[..|parts| - 1], parts[|parts| - 1])
  }

  // ---- the closing figures ----

  /** The usage given last. */
  function UsageGiven(chunks: seq<Chunk>): Option<Usage> {
    if chunks == [] then None
    else if chunks[|chunks| - 1].usage.Some? then chunks[|chunks| - 1].usage
    else UsageGiven(chunks[..|chunks| - 1])
  }

  /** The finish reason a candidate gave last. */
  function FinishGiven(chunks: seq<Chunk>): string {
    if chunks == [] then ""
    else
      var last := chunks[|chunks| - 1];
      if last.candidate && last.finish != "" then last.finish else FinishGiven(chunks[..|chunks| - 1])
  }

  /** The stop reason. A turn with calls that finishes plainly stops for them. */
  function Stop(chunks: seq<Chunk>): StopReason {
    var finish := FinishGiven(chunks);
    if finish == "MAX_TOKENS" then "max_tokens"
    else if finish !in {"", "STOP"} then finish
    else if CallsIn(GeminiReplay.PartsIn(chunks)) > 0 then "tool_use"
    else "end_turn"
  }

  // ---- the pump agrees ----

  ghost predicate Recalls(st: PumpState, parts: seq<WirePart>) {
    && st.inThought == ThoughtOpen(parts) && st.thoughtSig == SignatureOpen(parts)
    && st.callIdx == CallsIn(parts) && st.sawTool == (CallsIn(parts) > 0)
    && (!ThoughtOpen(parts) ==> SignatureOpen(parts) == "")
  }

  ghost predicate Agrees(st: PumpState, parts: seq<WirePart>) {
    Recalls(st, parts) && st.out == [MessageStart] + SaysAll(parts)
  }

  lemma HistoryMore(parts: seq<WirePart>, p: WirePart)
    ensures var more := parts + [p];
            && ThoughtOpen(more) == (!EndsThought(p) && (p.thought || ThoughtOpen(parts)))
            && SignatureOpen(more) == (if EndsThought(p) then "" else
                                       if p.thought && p.signature != "" then p.signature else SignatureOpen(parts))
            && CallsIn(more) == CallsIn(parts) + if p.call.Some? then 1 else 0
  {
    var more := parts + [p];
    assert more[..|more| - 1] == parts && more[|more| - 1] == p;
  }

  lemma PartRecalls(st: PumpState, parts: seq<WirePart>, p: WirePart)
    requires Recalls(st, parts)
    ensures Recalls(PartStep(st, p), parts + [p])
  {
    HistoryMore(parts, p);
  }

  lemma PartSays(st: PumpState, parts: seq<WirePart>, p: WirePart)
    requires Recalls(st, parts)
    ensures PartStep(st, p).out == st.out + Says(parts, p)
  {
    assert CloseThought(st).out == st.out + Ended(parts);
  }

  lemma PartAgrees(st: PumpState, parts: seq<WirePart>, p: WirePart)
    requires Agrees(st, parts)
    ensures Agrees(PartStep(st, p), parts + [p])
  {
    PartRecalls(st, parts, p);
    PartSays(st, parts, p);
    var more := parts + [p];
    assert more[..|more| - 1] == parts && more[|more| - 1] == p;
    Strings.Assoc([MessageStart], SaysAll(parts), Says(parts, p));
  }

  lemma Regrouped(before: seq<WirePart>, parts: seq<WirePart>)
    requires parts != []
    ensures (before + [parts[0]]) + parts[1..] == before + parts
  {
  }

  lemma {:induction false} PartsAgree(st: PumpState, before: seq<WirePart>, parts: seq<WirePart>)
    requires Agrees(st, before)
    ensures Agrees(PartSteps(st, parts), before + parts)
    decreases |parts|
  {
    if parts == [] {
      assert before + parts == before;
    } else {
      PartAgrees(st, before, parts[0]);
      PartsAgree(PartStep(st, parts[0]), before + [parts[0]], parts[1..]);
      Regrouped(before, parts);
    }
  }

  lemma {:induction false} PartsKeep(st: PumpState, parts: seq<WirePart>)
    ensures var st' := PartSteps(st, parts);
            st'.usage == st.usage && st'.haveUsage == st.haveUsage && st'.finish == st.finish
    decreases |parts|
  {
    if parts != [] {
      PartsKeep(PartStep(st, parts[0]), parts[1..]);
    }
  }

  ghost predicate Figured(st: PumpState, chunks: seq<Chunk>) {
    && (if st.haveUsage then UsageGiven(chunks) == Some(st.usage) else UsageGiven(chunks) == None)
    && st.finish == FinishGiven(chunks)
  }

  lemma ChunkFigured(st: PumpState, chunks: seq<Chunk>, c: Chunk)
    requires Figured(st, chunks)
    ensures Figured(ChunkStep(st, c), chunks + [c])
  {
    var more := chunks + [c];
    assert more[..|more| - 1] == chunks && more[|more| - 1] == c;
    PartsKeep(Counted(st, c), c.parts);
  }

  lemma ChunkAgrees(st: PumpState, parts: seq<WirePart>, c: Chunk)
    requires Agrees(st, parts)
    ensures Agrees(ChunkStep(st, c), parts + if c.candidate then c.parts else [])
  {
    if c.candidate {
      assert Agrees(Counted(st, c), parts);
      PartsAgree(Counted(st, c), parts, c.parts);
    } else {
      assert parts + [] == parts;
    }
  }

  lemma {:induction false} PartsInMore(chunks: seq<Chunk>, c: Chunk)
    ensures GeminiReplay.PartsIn(chunks + [c]) == GeminiReplay.PartsIn(chunks) + if c.candidate then c.parts else []
    decreases |chunks|
  {
    if chunks == [] {
      assert [c][1..] == [];
      assert (if c.candidate then c.parts else []) + [] == [] + if c.candidate then c.parts else [];
    } else {
      assert (chunks + [c])[1..] == chunks[1..] + [c];
      PartsInMore(chunks[1..], c);
      Strings.Assoc(if chunks[0].candidate then chunks[0].parts else [], GeminiReplay.PartsIn(chunks[1..]),
                    if c.candidate then c.parts else []);
    }
  }

  /** The chunks before the first error. */
  function BeforeError(chunks: seq<Chunk>): seq<Chunk> {
    if chunks == [] || chunks[0].error.Some? then [] else [chunks[0]] + BeforeError(chunks[1..])
  }

  lemma {:induction false} AllAgree(st: PumpState, before: seq<Chunk>, chunks: seq<Chunk>)
    requires Agrees(st, GeminiReplay.PartsIn(before)) && Figured(st, before)
    ensures var st', read := PumpAll(st, chunks), before + BeforeError(chunks);
            Agrees(st', GeminiReplay.PartsIn(read)) && Figured(st', read)
    decreases |chunks|
  {
    if chunks == [] || chunks[0].error.Some? {
      assert before + [] == before;
    } else {
      ChunkAgrees(st, GeminiReplay.PartsIn(before), chunks[0]);
      ChunkFigured(st, before, chunks[0]);
      PartsInMore(before, chunks[0]);
      AllAgree(ChunkStep(st, chunks[0]), before + [chunks[0]], chunks[1..]);
      Strings.Assoc(before, [chunks[0]], BeforeError(chunks[1..]));
    }
  }

  /** For every stream: the pump emits the start, what each part before the first error makes
      known, in order, and then either that error or the end of an open thought, the usage
      given last and the stop reason. */
  lemma PumpTells(chunks: seq<Chunk>)
    ensures var read := BeforeError(chunks);
            var parts := GeminiReplay.PartsIn(read);
            PumpOutput(chunks) == [MessageStart] + SaysAll(parts) +
              match FirstError(chunks)
              case Some(msg) => [ErrorEvent(Some(Wrapped("gemini", OtherError(msg))), "")]
              case None =>
                Ended(parts) + (if UsageGiven(read).Some? then [UsageEvent(UsageGiven(read).value)] else [])
                + [MessageDone(Stop(read))]
  {
    StartAgrees();
    AllAgree(PUMP_START, [], chunks);
    assert [] + BeforeError(chunks) == BeforeError(chunks);
    EndTells(PumpAll(PUMP_START, chunks), chunks, BeforeError(chunks));
  }

  lemma StartAgrees()
    ensures Agrees(PUMP_START, GeminiReplay.PartsIn([])) && Figured(PUMP_START, [])
  {
    assert [MessageStart] + SaysAll([]) == [MessageStart];
  }

  lemma EndTells(st: PumpState, chunks: seq<Chunk>, read: seq<Chunk>)
    requires st == PumpAll(PUMP_START, chunks)
    requires Agrees(st, GeminiReplay.PartsIn(read)) && Figured(st, read)
    ensures var parts := GeminiReplay.PartsIn(read);
            PumpOutput(chunks) == [MessageStart] + SaysAll(parts) +
              match FirstError(chunks)
              case Some(msg) => [ErrorEvent(Some(Wrapped("gemini", OtherError(msg))), "")]
              case None =>
                Ended(parts) + (if UsageGiven(read).Some? then [UsageEvent(UsageGiven(read).value)] else [])
                + [MessageDone(Stop(read))]
  {
    var parts := GeminiReplay.PartsIn(read);
    var usage := if st.haveUsage then [UsageEvent(st.usage)] else [];
    assert CloseThought(st).out == st.out + Ended(parts);
    StopTells(st, read);
    if FirstError(chunks).None? {
      Strings.Assoc(st.out, Ended(parts), Closing(st));
      Strings.Assoc(Ended(parts), usage, [MessageDone(Stop(read))]);
    }
  }

  lemma StopTells(st: PumpState, read: seq<Chunk>)
    requires Recalls(st, GeminiReplay.PartsIn(read)) && Figured(st, read)
    ensures MapStopReason(st.finish, st.sawTool) == Stop(read)
  {
  }
}

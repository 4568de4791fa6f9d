/** What survives a model turn's trip through pump, accumulator and encoder, and how
    tool results find the name of their call. */
module GeminiReplay {
  import opened Gage
  import opened Numerals
  import opened Accumulate
  import opened Gemini
  import Pairing
  import PauseResume
  import Strings

  // ---- streaming a turn ----

  function TextsOf(pieces: seq<WirePart>): string {
    if pieces == [] then "" else pieces[0].text + TextsOf(pieces[1..])
  }

  /** The last signature among the pieces, or `sig` if there is none. */
  function LastSignature(sig: string, pieces: seq<WirePart>): string
    decreases |pieces|
  {
    if pieces == [] then sig
    else LastSignature(if pieces[0].signature != "" then pieces[0].signature else sig, pieces[1..])
  }

  /** Only this signature is among the pieces, on one of them at least if it is not empty. */
  predicate Signed(pieces: seq<WirePart>, sig: string) {
    && LastSignature("", pieces) == sig
    && forall p :: p in pieces ==> p.signature == "" || p.signature == sig
  }

  /** The wire parts of a thought, a text or a call, cut in any way. Any of them may be
      signed, on whichever of its parts; a text may also come in empty parts, and a call
      comes in one part only. */
  ghost predicate Cuts(piece: ContentPiece, wire: seq<WirePart>) {
    match piece
    case Thought(s, sig) =>
      && wire != [] && TextsOf(wire) == s && Signed(wire, sig)
      && forall p :: p in wire ==> p.thought && p.call.None?
    case PlainText(s, sig) =>
      && TextsOf(wire) == s && Signed(wire, sig)
      && forall p :: p in wire ==> !p.thought && p.call.None?
    case Call(name, args, sig) =>
      && |wire| == 1 && wire[0].call.Some? && wire[0].text == "" && !wire[0].thought
      && wire[0].call.value.name == name && NonEmpty(wire[0].call.value.args) == args
      && wire[0].signature == sig
    case _ => false
  }

  function Flat(cuts: seq<seq<WirePart>>): seq<WirePart> {
    if cuts == [] then [] else cuts[0] + Flat(cuts[1..])
  }

  ghost predicate AllCuts(pieces: seq<ContentPiece>, cuts: seq<seq<WirePart>>) {
    |pieces| == |cuts| && forall k :: 0 <= k < |pieces| ==> Cuts(pieces[k], cuts[k])
  }

  /** All parts of a stream, whatever chunks they came in. */
  function PartsIn(chunks: seq<Chunk>): seq<WirePart> {
    if chunks == [] then []
    else (if chunks[0].candidate then chunks[0].parts else []) + PartsIn(chunks[1..])
  }

  // ---- every thought is closed in time ----

  /** Reading the events front to back, a thought is `open` from its first delta until
      it is done: text and tool calls find none open, and none is open at the end. */
  predicate WellClosed(events: seq<Event>, open: bool)
    decreases |events|
  {
    if events == [] then !open
    else
      match events[0]
      case ReasoningDelta(_) => WellClosed(events[1..], true)
      case ReasoningDone(_) => WellClosed(events[1..], false)
      case TextDelta(_) => !open && WellClosed(events[1..], open)
      case ToolCallStart(_) => !open && WellClosed(events[1..], open)
      case ToolCallDelta(_) => !open && WellClosed(events[1..], open)
      case ToolCallDone(_) => !open && WellClosed(events[1..], open)
      case _ => WellClosed(events[1..], open)
  }

  /** The same up to the end, where a thought may be open. */
  predicate ClosedSoFar(events: seq<Event>, open: bool) {
    WellClosed(events + [ReasoningDone("")], open)
  }

  lemma {:induction false} ClosedSnoc(events: seq<Event>, open: bool, ev: Event, atEnd: bool)
    requires ClosedSoFar(events, open)
    requires ev.TextDelta? || ev.ToolCallStart? || ev.ToolCallDelta? || ev.ToolCallDone? ==>
               !atEnd && WellClosed(events, open)
    ensures ClosedSoFar(events + [ev], open)
    ensures ev.ReasoningDone? ==> WellClosed(events + [ev], open)
    ensures !ev.ReasoningDelta? && WellClosed(events, open) ==> WellClosed(events + [ev], open)
    decreases |events|
  {
    if events == [] {
      assert events + [ev] == [ev] && [ev][1..] == [];
      assert [ev] + [ReasoningDone("")] == [ev, ReasoningDone("")];
      assert [ev, ReasoningDone("")][1..] == [ReasoningDone("")];
      assert [ReasoningDone("")][1..] == [];
    } else {
      var rest := events[1..];
      assert (events + [ReasoningDone("")])[1..] == rest + [ReasoningDone("")];
      assert (events + [ev])[1..] == rest + [ev];
      assert (events + [ev] + [ReasoningDone("")])[1..] == rest + [ev] + [ReasoningDone("")];
      var next := match events[0] case ReasoningDelta(_) => true case ReasoningDone(_) => false case _ => open;
      ClosedSnoc(rest, next, ev, atEnd);
    }
  }

  /** The pump's record of an open thought is right. */
  ghost predicate Closes(st: PumpState) {
    ClosedSoFar(st.out, false) && (!st.inThought ==> WellClosed(st.out, false))
  }

  lemma CloseThoughtCloses(st: PumpState)
    requires Closes(st)
    ensures Closes(CloseThought(st)) && WellClosed(CloseThought(st).out, false)
  {
    if st.inThought {
      ClosedSnoc(st.out, false, ReasoningDone(st.thoughtSig), false);
    }
  }

  lemma PartCloses(st: PumpState, p: WirePart)
    requires Closes(st)
    ensures Closes(PartStep(st, p))
  {
    CloseThoughtCloses(st);
    if p.call.Some? {
      var out := CloseThought(st).out;
      var call := ToolCall(CallID(st.callIdx), p.call.value.name, NonEmpty(p.call.value.args));
      ClosedSnoc(out, false, ToolCallStart(ToolCall(call.id, call.name, "")), false);
      ClosedSnoc(out + [ToolCallStart(ToolCall(call.id, call.name, ""))], false, ToolCallDelta(call), false);
      ClosedSnoc(out + [ToolCallStart(ToolCall(call.id, call.name, ""))] + [ToolCallDelta(call)], false,
                 ToolCallDone(call), false);
    } else if p.thought {
      if p.text != "" {
        ClosedSnoc(st.out, false, ReasoningDelta(p.text), true);
      }
    } else if p.text != "" {
      ClosedSnoc(CloseThought(st).out, false, TextDelta(p.text), false);
    }
  }

  lemma {:induction false} PartsClose(st: PumpState, parts: seq<WirePart>)
    requires Closes(st)
    ensures Closes(PartSteps(st, parts))
    decreases |parts|
  {
    if parts != [] {
      PartCloses(st, parts[0]);
      PartsClose(PartStep(st, parts[0]), parts[1..]);
    }
  }

  lemma {:induction false} ChunksClose(st: PumpState, chunks: seq<Chunk>)
    requires Closes(st)
    ensures Closes(PumpAll(st, chunks))
    decreases |chunks|
  {
    if chunks != [] && chunks[0].error.None? {
      var st' := Counted(st, chunks[0]);
      PartsClose(st', chunks[0].parts);
      ChunksClose(ChunkStep(st, chunks[0]), chunks[1..]);
    }
  }

  /** Whatever arrives and however the stream ends, every thought is closed before the
      next text or tool call; and before the end, if the stream does not fail. */
  lemma ThoughtsAreClosed(chunks: seq<Chunk>)
    ensures ClosedSoFar(PumpOutput(chunks), false)
    ensures FirstError(chunks).None? ==> WellClosed(PumpOutput(chunks), false)
  {
    assert [MessageStart] + [ReasoningDone("")] == [MessageStart, ReasoningDone("")];
    assert [MessageStart, ReasoningDone("")][1..] == [ReasoningDone("")] && [ReasoningDone("")][1..] == [];
    assert [MessageStart][1..] == [];
    assert Closes(PUMP_START);
    ChunksClose(PUMP_START, chunks);
    var st := PumpAll(PUMP_START, chunks);
    var error := FirstError(chunks);
    if error.Some? {
      ClosedSnoc(st.out, false, Failure(OtherError(error.value)), true);
    } else {
      ClosesAtEnd(st);
    }
  }

  lemma ClosesAtEnd(st: PumpState)
    requires Closes(st)
    ensures WellClosed(CloseThought(st).out + Closing(st), false)
    ensures ClosedSoFar(CloseThought(st).out + Closing(st), false)
  {
    CloseThoughtCloses(st);
    var out := CloseThought(st).out;
    var done := MessageDone(MapStopReason(CloseThought(st).finish, CloseThought(st).sawTool));
    if st.haveUsage {
      ClosedSnoc(out, false, UsageEvent(st.usage), false);
      ClosedSnoc(out + [UsageEvent(st.usage)], false, done, false);
      assert out + Closing(CloseThought(st)) == out + [UsageEvent(st.usage)] + [done];
    } else {
      ClosedSnoc(out, false, done, false);
      assert out + Closing(CloseThought(st)) == out + [done];
    }
  }

  // ---- the pump against the accumulator ----

  /** A turn half told: the accumulator before the open thought, and that thought. */
  datatype Told = Told(base: Acc, thought: Option<(string, string)>, calls: nat)

  function Heard(st: PumpState): Acc {
    TakeAll(EMPTY_ACC, st.out)
  }

  ghost predicate Tells(st: PumpState, g: Told) {
    && Between(g.base)
    && st.callIdx == g.calls
    && st.inThought == g.thought.Some?
    && (if g.thought.None? then Norm(Heard(st)) == g.base
        else
          && st.thoughtSig == g.thought.value.1
          && (Norm(Heard(st)) == Norm(Delta(g.base, OpenReasoning, g.thought.value.0))
              || (g.thought.value.0 == "" && Norm(Heard(st)) == g.base)))
    && (g.thought.None? ==> st.thoughtSig == "")
  }

  function Settled(g: Told): Told {
    if g.thought.None? then g
    else g.(base := Flush(Delta(g.base, OpenReasoning, g.thought.value.0), g.thought.value.1), thought := None)
  }

  function Fed(g: Told, piece: ContentPiece): Told {
    match piece
    case Thought(s, sig) =>
      (match g.thought
       case None => g.(thought := Some((s, sig)))
       case Some(t) => g.(thought := Some((t.0 + s, if sig != "" then sig else t.1))))
    case PlainText(s, _) => if s == "" then g else Settled(g).(base := Norm(Delta(Settled(g).base, OpenText, s)))
    case Call(name, args, _) =>
      Settled(g).(base := Take(Settled(g).base, ToolCallDone(ToolCall(CallID(g.calls), name, args))),
                  calls := g.calls + 1)
    case _ => g
  }

  lemma SettledBetween(g: Told)
    requires Between(g.base)
    ensures Between(Settled(g).base)
  {
  }

  lemma FedBetween(g: Told, piece: ContentPiece)
    requires Between(g.base)
    ensures Between(Fed(g, piece).base)
  {
    SettledBetween(g);
  }

  lemma CloseTells(st: PumpState, g: Told)
    requires Tells(st, g)
    ensures Tells(CloseThought(st), Settled(g))
  {
    SettledBetween(g);
    if st.inThought {
      var ev := ReasoningDone(st.thoughtSig);
      TakeAllSnoc(EMPTY_ACC, st.out, ev);
      TakeNorm(Heard(st), ev);
      if Norm(Heard(st)) == g.base && g.thought.value.0 == "" {
        StopAtOnce(g.base, st.thoughtSig);
      } else {
        TakeNorm(Delta(g.base, OpenReasoning, g.thought.value.0), ev);
      }
    }
  }

  /** What one wire part amounts to. */
  function Amounts(p: WirePart): ContentPiece {
    if p.call.Some? then Call(p.call.value.name, NonEmpty(p.call.value.args), p.signature)
    else if p.thought then Thought(p.text, p.signature)
    else PlainText(p.text, p.signature)
  }

  lemma PartTells(st: PumpState, g: Told, p: WirePart)
    requires Tells(st, g)
    ensures Tells(PartStep(st, p), Fed(g, Amounts(p)))
  {
    FedBetween(g, Amounts(p));
    if p.call.None? && p.thought {
      ThoughtTells(st, g, p);
    } else {
      CloseTells(st, g);
      var st', g' := CloseThought(st), Settled(g);
      if p.call.Some? {
        var call := ToolCall(CallID(st.callIdx), p.call.value.name, NonEmpty(p.call.value.args));
        var start := ToolCallStart(ToolCall(call.id, call.name, ""));
        TakeAllSnoc(EMPTY_ACC, st'.out, start);
        TakeAllSnoc(EMPTY_ACC, st'.out + [start], ToolCallDelta(call));
        TakeAllSnoc(EMPTY_ACC, st'.out + [start] + [ToolCallDelta(call)], ToolCallDone(call));
        TakeNorm(Heard(st'), ToolCallDone(call));
      } else if p.text != "" {
        TakeAllSnoc(EMPTY_ACC, st'.out, TextDelta(p.text));
        TakeNorm(Heard(st'), TextDelta(p.text));
      }
    }
  }

  lemma ThoughtTells(st: PumpState, g: Told, p: WirePart)
    requires Tells(st, g) && p.call.None? && p.thought
    ensures Tells(PartStep(st, p), Fed(g, Thought(p.text, p.signature)))
  {
    if p.text != "" {
      ThoughtHeard(st, g, p);
    } else {
      SilentThoughtTells(st, g, p);
    }
  }

  /** The text of the open thought so far. */
  function Thinking(g: Told): string {
    if g.thought.Some? then g.thought.value.0 else ""
  }

  lemma ThoughtHeard(st: PumpState, g: Told, p: WirePart)
    requires Tells(st, g) && p.call.None? && p.thought && p.text != ""
    ensures Norm(Heard(PartStep(st, p))) == Norm(Delta(g.base, OpenReasoning, Thinking(g) + p.text))
    ensures Fed(g, Thought(p.text, p.signature)).thought.value.0 == Thinking(g) + p.text
  {
    TakeAllSnoc(EMPTY_ACC, st.out, ReasoningDelta(p.text));
    DeltaNorm(g.base, Heard(st), OpenReasoning, Thinking(g), p.text);
    assert "" + p.text == p.text;
  }

  lemma SilentThoughtTells(st: PumpState, g: Told, p: WirePart)
    requires Tells(st, g) && p.call.None? && p.thought && p.text == ""
    ensures Tells(PartStep(st, p), Fed(g, Thought("", p.signature)))
  {
    if g.thought.Some? {
      assert g.thought.value.0 + "" == g.thought.value.0;
    }
  }

  function FedAll(g: Told, pieces: seq<ContentPiece>): Told
    decreases |pieces|
  {
    if pieces == [] then g else FedAll(Fed(g, pieces[0]), pieces[1..])
  }

  function AmountsAll(parts: seq<WirePart>): seq<ContentPiece> {
    seq(|parts|, k requires 0 <= k < |parts| => Amounts(parts[k]))
  }

  lemma {:induction false} PartsTell(st: PumpState, g: Told, parts: seq<WirePart>)
    requires Tells(st, g)
    ensures Tells(PartSteps(st, parts), FedAll(g, AmountsAll(parts)))
    decreases |parts|
  {
    if parts != [] {
      PartTells(st, g, parts[0]);
      PartsTell(PartStep(st, parts[0]), Fed(g, Amounts(parts[0])), parts[1..]);
      assert AmountsAll(parts)[1..] == AmountsAll(parts[1..]);
    }
  }

  lemma {:induction false} FedAllConcat(g: Told, a: seq<ContentPiece>, b: seq<ContentPiece>)
    ensures FedAll(g, a + b) == FedAll(FedAll(g, a), b)
    decreases |a|
  {
    if a == [] {
      assert a + b == b;
    } else {
      assert (a + b)[0] == a[0] && (a + b)[1..] == a[1..] + b;
      FedAllConcat(Fed(g, a[0]), a[1..], b);
    }
  }

  lemma {:induction false} ChunksTell(st: PumpState, g: Told, chunks: seq<Chunk>)
    requires Tells(st, g) && FirstError(chunks).None?
    ensures Tells(PumpAll(st, chunks), FedAll(g, AmountsAll(PartsIn(chunks))))
    decreases |chunks|
  {
    if chunks != [] {
      var c := chunks[0];
      var parts := if c.candidate then c.parts else [];
      ChunkTells(st, g, c);
      ChunksTell(ChunkStep(st, c), FedAll(g, AmountsAll(parts)), chunks[1..]);
      AmountsConcat(parts, PartsIn(chunks[1..]));
      FedAllConcat(g, AmountsAll(parts), AmountsAll(PartsIn(chunks[1..])));
    }
  }

  lemma ChunkTells(st: PumpState, g: Told, c: Chunk)
    requires Tells(st, g)
    ensures Tells(ChunkStep(st, c), FedAll(g, AmountsAll(if c.candidate then c.parts else [])))
  {
    var st' := Counted(st, c);
    PartsTell(st', g, if c.candidate then c.parts else []);
  }

  lemma AmountsConcat(a: seq<WirePart>, b: seq<WirePart>)
    ensures AmountsAll(a + b) == AmountsAll(a) + AmountsAll(b)
  {
  }

  lemma FedFirst(g: Told, wire: seq<WirePart>)
    requires wire != []
    ensures FedAll(g, AmountsAll(wire)) == FedAll(Fed(g, Amounts(wire[0])), AmountsAll(wire[1..]))
  {
    assert AmountsAll(wire)[0] == Amounts(wire[0]) && AmountsAll(wire)[1..] == AmountsAll(wire[1..]);
  }

  // ---- cuts do not show ----

  lemma {:induction false} ThoughtCutsFeed(g: Told, wire: seq<WirePart>, sofar: string, sig: string)
    requires g.thought == Some((sofar, sig))
    requires forall p :: p in wire ==> p.thought && p.call.None?
    ensures FedAll(g, AmountsAll(wire)) == g.(thought := Some((sofar + TextsOf(wire), LastSignature(sig, wire))))
    decreases |wire|
  {
    if wire == [] {
      assert sofar + "" == sofar;
    } else {
      var p := wire[0];
      assert p in wire;
      var sofar', sig' := sofar + p.text, if p.signature != "" then p.signature else sig;
      FedFirst(g, wire);
      ThoughtCutsFeed(Fed(g, Amounts(p)), wire[1..], sofar', sig');
      Strings.Assoc(sofar, p.text, TextsOf(wire[1..]));
    }
  }

  lemma {:induction false} LastSignatureFrom(sig: string, wire: seq<WirePart>)
    ensures LastSignature(sig, wire) == if LastSignature("", wire) != "" then LastSignature("", wire) else sig
    decreases |wire|
  {
    if wire != [] {
      var next := if wire[0].signature != "" then wire[0].signature else sig;
      LastSignatureFrom(next, wire[1..]);
      LastSignatureFrom(wire[0].signature, wire[1..]);
    }
  }

  lemma TextTwice(g: Told, a: string, b: string)
    requires Between(g.base)
    ensures Fed(Fed(g, PlainText(a, "")), PlainText(b, "")) == Fed(g, PlainText(a + b, ""))
  {
    if a == "" {
      assert a + b == b;
    } else if b == "" {
      assert a + b == a;
    } else {
      SettledBetween(g);
      var base := Settled(g).base;
      DeltaNorm(base, Delta(base, OpenText, a), OpenText, a, b);
      TakeNorm(Delta(base, OpenText, a), TextDelta(b));
    }
  }

  lemma {:induction false} TextCutsFeed(g: Told, wire: seq<WirePart>, sig: string)
    requires Between(g.base)
    requires forall p :: p in wire ==> !p.thought && p.call.None?
    ensures FedAll(g, AmountsAll(wire)) == Fed(g, PlainText(TextsOf(wire), sig))
    decreases |wire|
  {
    if wire != [] {
      var p := wire[0];
      assert p in wire;
      FedBetween(g, PlainText(p.text, ""));
      FedFirst(g, wire);
      TextCutsFeed(Fed(g, PlainText(p.text, "")), wire[1..], sig);
      TextTwice(g, p.text, TextsOf(wire[1..]));
    }
  }

  lemma ThoughtFeeds(g: Told, s: string, sig: string, wire: seq<WirePart>)
    requires Between(g.base) && Cuts(Thought(s, sig), wire)
    ensures FedAll(g, AmountsAll(wire)) == Fed(g, Thought(s, sig))
  {
    var p, rest := wire[0], wire[1..];
    assert p in wire && forall q :: q in rest ==> q in wire;
    FedFirst(g, wire);
    var first := Fed(g, Thought(p.text, p.signature));
    var sofar, signed := first.thought.value.0, first.thought.value.1;
    ThoughtCutsFeed(first, rest, sofar, signed);
    LastSignatureFrom(signed, rest);
    LastSignatureFrom(p.signature, rest);
    ThoughtGrows(g, s, sig, p.text, p.signature, TextsOf(rest), LastSignature(signed, rest));
  }

  /** A thought begun and then continued. */
  lemma ThoughtGrows(g: Told, s: string, sig: string, begun: string, signed: string, more: string, last: string)
    requires s == begun + more
    requires last == if sig != "" then sig else Fed(g, Thought(begun, signed)).thought.value.1
    requires sig == "" ==> signed == ""
    ensures var first := Fed(g, Thought(begun, signed));
            first.(thought := Some((first.thought.value.0 + more, last))) == Fed(g, Thought(s, sig))
  {
    if g.thought.Some? {
      Strings.Assoc(g.thought.value.0, begun, more);
    }
  }

  lemma PieceCutsFeed(g: Told, piece: ContentPiece, wire: seq<WirePart>)
    requires Between(g.base) && Cuts(piece, wire)
    ensures FedAll(g, AmountsAll(wire)) == Fed(g, piece)
  {
    match piece
    case Thought(s, sig) => ThoughtFeeds(g, s, sig, wire);
    case PlainText(_, sig) => TextCutsFeed(g, wire, sig);
    case Call(_, _, _) => assert AmountsAll(wire)[1..] == [];
    case _ =>
  }

  lemma {:induction false} CutsFeed(g: Told, pieces: seq<ContentPiece>, cuts: seq<seq<WirePart>>)
    requires Between(g.base) && AllCuts(pieces, cuts)
    ensures FedAll(g, AmountsAll(Flat(cuts))) == FedAll(g, pieces)
    decreases |pieces|
  {
    if pieces != [] {
      PieceCutsFeed(g, pieces[0], cuts[0]);
      FedBetween(g, pieces[0]);
      CutsFeed(Fed(g, pieces[0]), pieces[1..], cuts[1..]);
      FedAllConcat(g, AmountsAll(cuts[0]), AmountsAll(Flat(cuts[1..])));
      AmountsConcat(cuts[0], Flat(cuts[1..]));
    }
  }

  // ---- the rebuilt message ----

  /** The part an open thought becomes. */
  function Concluded(thought: Option<(string, string)>): seq<Part> {
    if thought.None? || thought.value == ("", "") then [] else [ReasoningPart(thought.value.0, thought.value.1)]
  }

  /** The parts of the rebuilt message: adjacent texts run together and so do adjacent
      thoughts, the last signature counting; what is empty vanishes. */
  function PartsOf(pieces: seq<ContentPiece>, open: string, thought: Option<(string, string)>, calls: nat): seq<Part>
    decreases |pieces|
  {
    if pieces == [] then
      if thought.None? then Flushed(open) else Flushed(open) + Concluded(thought)
    else
      var rest := pieces[1..];
      match pieces[0]
      case Thought(s, sig) =>
        (match thought
         case None => PartsOf(rest, open, Some((s, sig)), calls)
         case Some(t) => PartsOf(rest, open, Some((t.0 + s, if sig != "" then sig else t.1)), calls))
      case PlainText(s, _) =>
        if s == "" then PartsOf(rest, open, thought, calls)
        else if thought.None? then PartsOf(rest, open + s, None, calls)
        else Flushed(open) + Concluded(thought) + PartsOf(rest, s, None, calls)
      case Call(name, args, _) =>
        Flushed(open) + Concluded(thought) + [ToolUsePart(ToolCall(CallID(calls), name, args))]
        + PartsOf(rest, "", None, calls + 1)
      case _ => PartsOf(rest, open, thought, calls)
  }

  lemma SettledParts(g: Told)
    requires Between(g.base)
    ensures g.thought.Some? ==>
              Settled(g).base.parts == g.base.parts + Flushed(g.base.openText) + Concluded(g.thought)
                && Settled(g).base.openText == ""
  {
    if g.thought.Some? {
      var open := Delta(g.base, OpenReasoning, g.thought.value.0);
      assert "" + g.thought.value.0 == g.thought.value.0;
      assert open.parts == g.base.parts + Flushed(g.base.openText) && open.openText == g.thought.value.0;
    }
  }

  /** The whole message as it stands: what is settled and what the rest will add. */
  function Whole(g: Told, pieces: seq<ContentPiece>): seq<Part> {
    g.base.parts + PartsOf(pieces, g.base.openText, g.thought, g.calls)
  }

  lemma TextWhole(g: Told, s: string, pieces: seq<ContentPiece>)
    requires Between(g.base) && pieces != [] && pieces[0].PlainText? && pieces[0].text == s
    ensures Whole(Fed(g, pieces[0]), pieces[1..]) == Whole(g, pieces)
  {
    if s != "" && g.thought.Some? {
      TextAfterThought(g, s);
      Strings.Assoc(g.base.parts, Flushed(g.base.openText) + Concluded(g.thought),
                    PartsOf(pieces[1..], s, None, g.calls));
    }
  }

  /** A text that ends a thought. */
  lemma TextAfterThought(g: Told, s: string)
    requires Between(g.base) && g.thought.Some? && s != ""
    ensures var base := Fed(g, PlainText(s, "")).base;
            base.parts == g.base.parts + (Flushed(g.base.openText) + Concluded(g.thought)) && base.openText == s
  {
    SettledBetween(g);
    SettledParts(g);
    Strings.Assoc(g.base.parts, Flushed(g.base.openText), Concluded(g.thought));
    assert "" + s == s;
  }

  lemma CallWhole(g: Told, name: string, args: string, pieces: seq<ContentPiece>)
    requires Between(g.base) && pieces != [] && pieces[0].Call? && pieces[0].name == name && pieces[0].args == args
    ensures Whole(Fed(g, pieces[0]), pieces[1..]) == Whole(g, pieces)
  {
    SettledBetween(g);
    SettledParts(g);
    var before := Flushed(g.base.openText) + Concluded(g.thought);
    var call := [ToolUsePart(ToolCall(CallID(g.calls), name, args))];
    var more := PartsOf(pieces[1..], "", None, g.calls + 1);
    var fed := Fed(g, pieces[0]);
    assert fed.base.parts == g.base.parts + (before + call);
    Strings.Assoc(g.base.parts, before + call, more);
  }

  lemma {:induction false} FedAllParts(g: Told, pieces: seq<ContentPiece>)
    requires Between(g.base)
    ensures Accumulate.Content(Settled(FedAll(g, pieces)).base) == Whole(g, pieces)
    decreases |pieces|
  {
    if pieces == [] {
      SettledBetween(g);
      SettledParts(g);
    } else {
      FedBetween(g, pieces[0]);
      FedAllParts(Fed(g, pieces[0]), pieces[1..]);
      match pieces[0]
      case PlainText(s, _) => TextWhole(g, s, pieces);
      case Call(name, args, _) => CallWhole(g, name, args, pieces);
      case _ =>
    }
  }

  /** Pump, then accumulate: the rebuilt message depends on the turn's thoughts, texts
      and calls alone, not on how they were cut into parts and chunks. */
  lemma StreamRebuilds(pieces: seq<ContentPiece>, cuts: seq<seq<WirePart>>, chunks: seq<Chunk>)
    requires AllCuts(pieces, cuts) && PartsIn(chunks) == Flat(cuts) && FirstError(chunks).None?
    ensures Accumulate.Content(TakeAll(EMPTY_ACC, PumpOutput(chunks))) == PartsOf(pieces, "", None, 0)
  {
    var g := Told(EMPTY_ACC, None, 0);
    TakeAllSnoc(EMPTY_ACC, [], MessageStart);
    assert [] + [MessageStart] == [MessageStart];
    assert Tells(PUMP_START, g);
    ChunksTell(PUMP_START, g, chunks);
    CutsFeed(g, pieces, cuts);
    var st, g' := PumpAll(PUMP_START, chunks), FedAll(g, pieces);
    CloseTells(st, g');
    FedAllParts(g, pieces);
    var last := CloseThought(st);
    ClosingSilent(last);
    assert Accumulate.Content(Heard(last)) == Accumulate.Content(Norm(Heard(last)));
  }

  lemma ClosingSilent(st: PumpState)
    ensures Accumulate.Content(TakeAll(EMPTY_ACC, st.out + Closing(st))) == Accumulate.Content(Heard(st))
  {
    var done := MessageDone(MapStopReason(st.finish, st.sawTool));
    if st.haveUsage {
      var usage := UsageEvent(st.usage);
      TakeAllSnoc(EMPTY_ACC, st.out, usage);
      TakeAllSnoc(EMPTY_ACC, st.out + [usage], done);
      assert st.out + Closing(st) == st.out + [usage] + [done];
    } else {
      TakeAllSnoc(EMPTY_ACC, st.out, done);
      assert st.out + Closing(st) == st.out + [done];
    }
  }

  // ---- encoding it again ----

  /** The parts the encoder replays for what was rebuilt. */
  function Replayed(pieces: seq<ContentPiece>): seq<ContentPiece> {
    AssistantParts(PartsOf(pieces, "", None, 0))
  }

  /** The pieces of a model's turn. */
  predicate FromModel(pieces: seq<ContentPiece>) {
    forall k :: 0 <= k < |pieces| ==> pieces[k].Thought? || pieces[k].PlainText? || pieces[k].Call?
  }

  predicate Fine(piece: ContentPiece) {
    match piece
    case Thought(_, sig) => sig != ""
    case PlainText(s, sig) => s != "" && sig == ""
    case Call(_, args, sig) => args != "" && sig == ""
    case _ => false
  }

  predicate SameRun(a: ContentPiece, b: ContentPiece) {
    (a.Thought? && b.Thought?) || (a.PlainText? && b.PlainText?)
  }

  /** Thoughts signed, texts and calls unsigned, texts with content, and no two of a kind
      next to each other (nothing on the wire keeps them apart). */
  predicate Normal(pieces: seq<ContentPiece>) {
    && (forall k :: 0 <= k < |pieces| ==> Fine(pieces[k]))
    && (forall k :: 0 <= k < |pieces| - 1 ==> !SameRun(pieces[k], pieces[k + 1]))
  }

  lemma {:induction false} AssistantConcat(a: seq<Part>, b: seq<Part>)
    ensures AssistantParts(a + b) == AssistantParts(a) + AssistantParts(b)
  {
    if a == [] {
      assert a + b == b;
    } else {
      assert (a + b)[0] == a[0] && (a + b)[1..] == a[1..] + b;
      AssistantConcat(a[1..], b);
      assert (AssistantPiece(a[0]) + AssistantParts(a[1..])) + AssistantParts(b)
          == AssistantPiece(a[0]) + (AssistantParts(a[1..]) + AssistantParts(b));
    }
  }

  lemma AssistantConcat3(a: seq<Part>, b: seq<Part>, d: seq<Part>)
    ensures AssistantParts(a + b + d) == AssistantParts(a) + AssistantParts(b) + AssistantParts(d)
  {
    AssistantConcat(a + b, d);
    AssistantConcat(a, b);
  }

  lemma AssistantOne(p: Part)
    ensures AssistantParts([p]) == AssistantPiece(p)
  {
    assert [p][1..] == [];
  }

  /** What is pending, encoded. */
  function Pending(open: string, thought: Option<(string, string)>): seq<ContentPiece> {
    (if open == "" then [] else [PlainText(open, "")])
    + (if thought.None? || thought.value.1 == "" then [] else [Thought(thought.value.0, thought.value.1)])
  }

  lemma PendingEncodes(open: string, thought: Option<(string, string)>)
    ensures AssistantParts(Flushed(open) + Concluded(thought)) == Pending(open, thought)
    ensures AssistantParts(Flushed(open)) == Pending(open, None)
  {
    AssistantConcat(Flushed(open), Concluded(thought));
    AssistantOne(TextPart(open));
    if thought.Some? {
      AssistantOne(ReasoningPart(thought.value.0, thought.value.1));
    }
  }

  /** The encoding, front to back. */
  lemma EncodedStep(pieces: seq<ContentPiece>, open: string, thought: Option<(string, string)>, calls: nat)
    ensures var encoded := AssistantParts(PartsOf(pieces, open, thought, calls));
            if pieces == [] then encoded == Pending(open, thought)
            else
              match pieces[0]
              case PlainText(s, _) =>
                s != "" && thought.Some? ==>
                  encoded == Pending(open, thought) + AssistantParts(PartsOf(pieces[1..], s, None, calls))
              case Call(name, args, _) =>
                encoded == Pending(open, thought) + [Call(name, NonEmpty(args), "")]
                           + AssistantParts(PartsOf(pieces[1..], "", None, calls + 1))
              case _ => true
  {
    PendingEncodes(open, thought);
    if pieces != [] {
      var before := Flushed(open) + Concluded(thought);
      match pieces[0]
      case PlainText(s, _) => AssistantConcat(before, PartsOf(pieces[1..], s, None, calls));
      case Call(name, args, _) =>
        var tc := ToolUsePart(ToolCall(CallID(calls), name, args));
        AssistantOne(tc);
        AssistantConcat3(before, [tc], PartsOf(pieces[1..], "", None, calls + 1));
      case _ =>
    }
  }

  /** The encoding is never longer than what was streamed. */
  lemma {:induction false} NeverLonger(pieces: seq<ContentPiece>, open: string, thought: Option<(string, string)>,
                                       calls: nat)
    ensures |AssistantParts(PartsOf(pieces, open, thought, calls))| <= |pieces| + |Pending(open, thought)|
    decreases |pieces|
  {
    EncodedStep(pieces, open, thought, calls);
    if pieces != [] {
      var rest := pieces[1..];
      match pieces[0]
      case Thought(s, sig) =>
        NeverLonger(rest, open, Fed(Told(EMPTY_ACC, thought, 0), pieces[0]).thought, calls);
      case PlainText(s, _) =>
        if s == "" {
          NeverLonger(rest, open, thought, calls);
        } else {
          NeverLonger(rest, if thought.None? then open + s else s, None, calls);
        }
      case Call(_, _, _) => NeverLonger(rest, "", None, calls + 1);
      case _ => NeverLonger(rest, open, thought, calls);
    }
  }

  /** Nothing is dropped and nothing runs together, with `open` and `thought` pending. */
  predicate Tight(pieces: seq<ContentPiece>, open: string, thought: Option<(string, string)>)
    decreases |pieces|
  {
    if pieces == [] then true
    else
      match pieces[0]
      case Thought(s, sig) => thought.None? && sig != "" && Tight(pieces[1..], open, Some((s, sig)))
      case PlainText(s, _) => s != "" && (thought.None? ==> open == "") && Tight(pieces[1..], s, None)
      case Call(_, _, _) => Tight(pieces[1..], "", None)
      case _ => false
  }

  function Again(pieces: seq<ContentPiece>): seq<ContentPiece> {
    if pieces == [] then []
    else
      var back :=
        match pieces[0]
        case PlainText(s, _) => PlainText(s, "")
        case Call(name, args, _) => Call(name, NonEmpty(args), "")
        case _ => pieces[0];
      [back] + Again(pieces[1..])
  }

  lemma Shift(a: seq<ContentPiece>, x: ContentPiece, b: seq<ContentPiece>)
    ensures a + [x] + b == a + ([x] + b)
  {
  }

  /** As long as what was streamed only when tight. */
  lemma {:induction false} AsLongOnlyIfTight(pieces: seq<ContentPiece>, open: string,
                                             thought: Option<(string, string)>, calls: nat)
    requires thought.Some? ==> thought.value.1 != ""
    requires FromModel(pieces)
    requires |AssistantParts(PartsOf(pieces, open, thought, calls))| == |pieces| + |Pending(open, thought)|
    ensures Tight(pieces, open, thought)
    decreases |pieces|
  {
    EncodedStep(pieces, open, thought, calls);
    if pieces != [] {
      var rest := pieces[1..];
      assert forall k :: 0 <= k < |rest| ==> rest[k] == pieces[k + 1];
      match pieces[0]
      case Thought(s, sig) =>
        var next := Fed(Told(EMPTY_ACC, thought, 0), pieces[0]).thought;
        NeverLonger(rest, open, next, calls);
        AsLongOnlyIfTight(rest, open, next, calls);
      case PlainText(s, _) =>
        NeverLonger(rest, open, thought, calls);
        NeverLonger(rest, open + s, None, calls);
        NeverLonger(rest, s, None, calls);
        if thought.None? {
          assert open == "";
          assert open + s == s;
        }
        AsLongOnlyIfTight(rest, s, None, calls);
      case Call(_, _, _) =>
        NeverLonger(rest, "", None, calls + 1);
        AsLongOnlyIfTight(rest, "", None, calls + 1);
      case _ =>
    }
  }

  lemma PendingMore(open: string, s: string, sig: string)
    requires sig != ""
    ensures Pending(open, Some((s, sig))) == Pending(open, None) + [Thought(s, sig)]
  {
  }

  /** A tight turn comes back piece by piece. */
  lemma {:induction false} TightEncodes(pieces: seq<ContentPiece>, open: string, thought: Option<(string, string)>,
                                        calls: nat)
    requires thought.Some? ==> thought.value.1 != ""
    requires Tight(pieces, open, thought)
    ensures AssistantParts(PartsOf(pieces, open, thought, calls)) == Pending(open, thought) + Again(pieces)
    decreases |pieces|
  {
    EncodedStep(pieces, open, thought, calls);
    if pieces != [] {
      var rest := pieces[1..];
      match pieces[0]
      case Thought(s, sig) =>
        TightEncodes(rest, open, Some((s, sig)), calls);
        PendingMore(open, s, sig);
        Shift(Pending(open, None), pieces[0], Again(rest));
      case PlainText(s, _) =>
        TightEncodes(rest, s, None, calls);
        assert Pending(s, None) == [PlainText(s, "")];
        if thought.None? {
          assert open + s == s;
          assert Pending("", None) == [];
        }
      case Call(name, args, _) =>
        TightEncodes(rest, "", None, calls + 1);
        assert Pending("", None) == [];
        Shift(Pending(open, thought), Call(name, NonEmpty(args), ""), Again(rest));
      case _ =>
    }
  }

  lemma {:induction false} NormalIsTight(pieces: seq<ContentPiece>, open: string, thought: Option<(string, string)>)
    requires Normal(pieces)
    requires pieces != [] && pieces[0].PlainText? && thought.None? ==> open == ""
    requires pieces != [] && pieces[0].Thought? ==> thought.None?
    ensures Tight(pieces, open, thought) && Again(pieces) == pieces
    decreases |pieces|
  {
    if pieces != [] {
      var rest := pieces[1..];
      assert Fine(pieces[0]);
      assert forall k :: 0 <= k < |rest| ==> rest[k] == pieces[k + 1];
      if rest != [] {
        assert !SameRun(pieces[0], pieces[1]);
      }
      match pieces[0]
      case Thought(s, sig) => NormalIsTight(rest, open, Some((s, sig)));
      case PlainText(s, _) => NormalIsTight(rest, s, None);
      case Call(_, _, _) => NormalIsTight(rest, "", None);
    }
  }

  lemma {:induction false} TightIsNormal(pieces: seq<ContentPiece>, open: string, thought: Option<(string, string)>)
    requires Tight(pieces, open, thought) && Again(pieces) == pieces
    ensures Normal(pieces)
    ensures pieces != [] && pieces[0].PlainText? && thought.None? ==> open == ""
    ensures pieces != [] && pieces[0].Thought? ==> thought.None?
    decreases |pieces|
  {
    if pieces != [] {
      var rest := pieces[1..];
      assert Again(pieces)[0] == pieces[0] && Again(pieces)[1..] == Again(rest);
      match pieces[0]
      case Thought(s, sig) => TightIsNormal(rest, open, Some((s, sig)));
      case PlainText(s, _) => TightIsNormal(rest, s, None);
      case Call(_, _, _) => TightIsNormal(rest, "", None);
      assert forall k :: 0 < k < |pieces| ==> pieces[k] == rest[k - 1];
    }
  }

  /** Exactly which turns come back as they were streamed: those in normal form. */
  lemma ReplayIdentityIff(pieces: seq<ContentPiece>)
    requires FromModel(pieces)
    ensures Replayed(pieces) == pieces <==> Normal(pieces)
  {
    assert Pending("", None) == [];
    if Normal(pieces) {
      NormalIsTight(pieces, "", None);
      TightEncodes(pieces, "", None, 0);
    }
    if Replayed(pieces) == pieces {
      AsLongOnlyIfTight(pieces, "", None, 0);
      TightEncodes(pieces, "", None, 0);
      TightIsNormal(pieces, "", None);
    }
  }

  /** The three-stage round trip: however a turn is cut into parts and chunks, pumping,
      accumulating and encoding it gives the same thoughts, texts and calls back, the
      signatures included, if and only if the turn is in normal form. */
  lemma SignedThoughtsSurvive(pieces: seq<ContentPiece>, cuts: seq<seq<WirePart>>, chunks: seq<Chunk>)
    requires FromModel(pieces)
    requires AllCuts(pieces, cuts) && PartsIn(chunks) == Flat(cuts) && FirstError(chunks).None?
    ensures AssistantParts(Accumulate.Content(TakeAll(EMPTY_ACC, PumpOutput(chunks)))) == pieces <==> Normal(pieces)
  {
    StreamRebuilds(pieces, cuts, chunks);
    ReplayIdentityIff(pieces);
  }

  // ---- signatures of texts and calls ----

  function Unsigned(piece: ContentPiece): ContentPiece {
    match piece
    case PlainText(s, _) => PlainText(s, "")
    case Call(name, args, _) => Call(name, args, "")
    case _ => piece
  }

  /** The turn with the signatures of its texts and calls taken off. */
  function Bare(pieces: seq<ContentPiece>): seq<ContentPiece> {
    seq(|pieces|, k requires 0 <= k < |pieces| => Unsigned(pieces[k]))
  }

  lemma {:induction false} PartsBare(pieces: seq<ContentPiece>, open: string, thought: Option<(string, string)>,
                                     calls: nat)
    ensures PartsOf(Bare(pieces), open, thought, calls) == PartsOf(pieces, open, thought, calls)
    decreases |pieces|
  {
    if pieces != [] {
      var rest := pieces[1..];
      assert Bare(pieces)[1..] == Bare(rest);
      match pieces[0]
      case Thought(s, sig) =>
        PartsBare(rest, open, Fed(Told(EMPTY_ACC, thought, 0), pieces[0]).thought, calls);
      case PlainText(s, _) =>
        PartsBare(rest, open, thought, calls);
        PartsBare(rest, open + s, None, calls);
        PartsBare(rest, s, None, calls);
      case Call(_, _, _) => PartsBare(rest, "", None, calls + 1);
      case _ => PartsBare(rest, open, thought, calls);
    }
  }

  /** What else the wire says of a text or a call, the pump drops: a turn that is in
      normal form but for signatures of texts and calls comes back without them. */
  lemma OnlyThoughtsKeepTheirs(pieces: seq<ContentPiece>, cuts: seq<seq<WirePart>>, chunks: seq<Chunk>)
    requires FromModel(pieces) && Normal(Bare(pieces))
    requires AllCuts(pieces, cuts) && PartsIn(chunks) == Flat(cuts) && FirstError(chunks).None?
    ensures var back := AssistantParts(Accumulate.Content(TakeAll(EMPTY_ACC, PumpOutput(chunks))));
            back == Bare(pieces)
            && (back == pieces <==> forall k :: 0 <= k < |pieces| && !pieces[k].Thought? ==> pieces[k].signature == "")
  {
    StreamRebuilds(pieces, cuts, chunks);
    PartsBare(pieces, "", None, 0);
    ReplayIdentityIff(Bare(pieces));
    forall k | 0 <= k < |pieces|
      ensures Bare(pieces)[k] == pieces[k] <==> pieces[k].Thought? || pieces[k].signature == ""
    {
      assert pieces[k].Thought? || pieces[k].PlainText? || pieces[k].Call?;
    }
    if forall k :: 0 <= k < |pieces| && !pieces[k].Thought? ==> pieces[k].signature == "" {
      assert Bare(pieces) == pieces;
    }
  }

  lemma OneChunk(c: Chunk)
    requires c.candidate
    ensures PartsIn([c]) == Flat([c.parts]) == c.parts
  {
    assert [c][1..] == [] && [c.parts][1..] == [];
    assert c.parts + [] == c.parts;
  }

  /** The least such turn: one signed call, which comes back unsigned. */
  lemma SignedCallComesBackUnsigned(name: string, args: string, sig: string)
    requires sig != ""
    ensures var chunk := Chunk(None, None, true, [WirePart("", false, sig, Some(FunctionCall(name, args)))], "STOP");
            && AllCuts([Call(name, NonEmpty(args), sig)], [chunk.parts]) && PartsIn([chunk]) == Flat([chunk.parts])
            && AssistantParts(Accumulate.Content(TakeAll(EMPTY_ACC, PumpOutput([chunk]))))
              == [Call(name, NonEmpty(args), "")]
  {
    var parts := [WirePart("", false, sig, Some(FunctionCall(name, args)))];
    var chunk := Chunk(None, None, true, parts, "STOP");
    var pieces := [Call(name, NonEmpty(args), sig)];
    OneChunk(chunk);
    assert AllCuts(pieces, [parts]);
    assert Bare(pieces) == [Call(name, NonEmpty(args), "")];
    OnlyThoughtsKeepTheirs(pieces, [parts], [chunk]);
  }

  // ---- names of tool results ----

  lemma {:induction false} NamesKnow(names: map<string, string>, parts: seq<Part>, k: nat)
    requires k < |CallsOf(parts)| && PauseResume.DistinctIDs(CallsOf(parts))
    ensures var after := Names(names, parts);
            CallsOf(parts)[k].id in after && after[CallsOf(parts)[k].id] == CallsOf(parts)[k].name
  {
    var n := |parts| - 1;
    var front, last := parts[..n], parts[n];
    NamesSnoc(names, front, last);
    assert parts == front + [last];
    var calls := CallsOf(parts);
    if k < |CallsOf(front)| {
      assert CallsOf(front)[k] == calls[k];
      forall i, j | 0 <= i < j < |CallsOf(front)|
        ensures CallsOf(front)[i].id != CallsOf(front)[j].id
      {
        assert calls[i].id != calls[j].id;
      }
      NamesKnow(names, front, k);
      if last.ToolUsePart? {
        assert calls[|calls| - 1] == last.call;
      }
    }
  }

  lemma {:induction false} NamesSnoc(names: map<string, string>, parts: seq<Part>, last: Part)
    ensures Names(names, parts + [last])
         == if last.ToolUsePart? then Names(names, parts)[last.call.id := last.call.name] else Names(names, parts)
    decreases |parts|
  {
    if parts == [] {
      assert parts + [last] == [last] && [last][1..] == [];
    } else {
      assert (parts + [last])[0] == parts[0] && (parts + [last])[1..] == parts[1..] + [last];
      var names' := if parts[0].ToolUsePart? then names[parts[0].call.id := parts[0].call.name] else names;
      NamesSnoc(names', parts[1..], last);
    }
  }

  /** The names on record before message `j`. */
  function NamesBefore(msgs: seq<Message>, j: nat): map<string, string>
    requires j <= |msgs|
  {
    if j == 0 then map[] else NamesAfter(NamesBefore(msgs, j - 1), msgs[j - 1])
  }

  lemma {:induction false} ToolMessagesNameNothing(msgs: seq<Message>, i: nat, j: nat)
    requires i < j <= |msgs|
    requires forall k :: i < k < j ==> msgs[k].role.RoleTool?
    ensures NamesBefore(msgs, j) == NamesBefore(msgs, i + 1)
    decreases j
  {
    if j > i + 1 {
      ToolMessagesNameNothing(msgs, i, j - 1);
    }
  }

  /** Call ids repeat from turn to turn (the stream numbers them afresh), and still in
      a paired conversation every tool result is sent under the name of the very call
      it answers. */
  lemma ResultsFindTheirCall(msgs: seq<Message>, i: nat, k: nat)
    requires Pairing.Paired(msgs) && i < |msgs|
    requires k < |Pairing.Uses(msgs[i])| && PauseResume.DistinctIDs(Pairing.Uses(msgs[i]))
    requires Pairing.Uses(msgs[i])[k].name != ""
    ensures i + 1 + k < |msgs| && Pairing.IsAnswer(msgs[i + 1 + k], Pairing.Uses(msgs[i])[k].id)
    ensures MessageParts(NamesBefore(msgs, i + 1 + k), msgs[i + 1 + k])
         == [Response(Pairing.Uses(msgs[i])[k].name, msgs[i + 1 + k].content[0].result.content)]
  {
    var uses := Pairing.Uses(msgs[i]);
    AnswersFollow(msgs, i, k);
    NamesInTurn(msgs, i, k);
    OneResult(NamesBefore(msgs, i + 1 + k), msgs[i + 1 + k], uses[k]);
  }

  /** Among the answers of a turn its calls are on record by name. */
  lemma NamesInTurn(msgs: seq<Message>, i: nat, k: nat)
    requires i + 1 + k < |msgs| && (forall x :: i < x < i + 1 + k ==> msgs[x].role.RoleTool?)
    requires var uses := Pairing.Uses(msgs[i]); k < |uses| && PauseResume.DistinctIDs(uses)
    ensures var names, call := NamesBefore(msgs, i + 1 + k), Pairing.Uses(msgs[i])[k];
            call.id in names && names[call.id] == call.name
  {
    ToolMessagesNameNothing(msgs, i, i + 1 + k);
    NamesKnow(NamesBefore(msgs, i), msgs[i].content, k);
  }

  lemma OneResult(names: map<string, string>, answer: Message, call: ToolCall)
    requires Pairing.IsAnswer(answer, call.id)
    requires call.id in names && names[call.id] == call.name != ""
    ensures MessageParts(names, answer) == [Response(call.name, answer.content[0].result.content)]
  {
    var result := answer.content[0].result;
    assert answer.content == [ToolResultPart(result)];
    assert answer.content[1..] == [];
    assert NameFor(names, result.callID) == call.name;
    assert ResultParts(names, answer.content)
        == [Response(call.name, result.content)] + ResultParts(names, answer.content[1..]);
  }

  lemma AnswersFollow(msgs: seq<Message>, i: nat, k: nat)
    requires Pairing.Paired(msgs) && i < |msgs|
    requires k < |Pairing.Uses(msgs[i])|
    ensures i + 1 + k < |msgs| && Pairing.IsAnswer(msgs[i + 1 + k], Pairing.Uses(msgs[i])[k].id)
    ensures forall x :: i < x < i + 1 + k ==> msgs[x].role.RoleTool?
  {
    Pairing.PairedMeans(msgs);
    var uses := Pairing.Uses(msgs[i]);
    assert Pairing.AnswersAt(uses, msgs, i + 1);
    forall x | i < x < i + 1 + k
      ensures msgs[x].role.RoleTool?
    {
      assert Pairing.IsAnswer(msgs[i + 1 + (x - i - 1)], uses[x - i - 1].id);
    }
  }

  /** The contents sent are those of the messages one by one, each encoded with the
      names on record before it. */
  lemma {:induction false} ContentsByMessage(msgs: seq<Message>, j: nat)
    requires j <= |msgs|
    ensures Contents(map[], msgs) == Contents(map[], msgs[..j]) + Contents(NamesBefore(msgs, j), msgs[j..])
  {
    if j == 0 {
      assert msgs[0..] == msgs && msgs[..0] == [];
      assert [] + Contents(map[], msgs) == Contents(map[], msgs);
    } else {
      ContentsByMessage(msgs, j - 1);
      var names := NamesBefore(msgs, j - 1);
      ContentsHead(names, msgs, j - 1);
      PrefixSnoc(msgs, j - 1);
      Regrouped(Contents(map[], msgs), Contents(map[], msgs[..j - 1]), OwnContent(names, msgs[j - 1]),
                Contents(NamesBefore(msgs, j), msgs[j..]));
    }
  }

  lemma Regrouped(all: seq<Content>, a: seq<Content>, b: seq<Content>, c: seq<Content>)
    requires all == a + (b + c)
    ensures all == (a + b) + c
  {
  }

  lemma PrefixSnoc(msgs: seq<Message>, j: nat)
    requires j < |msgs|
    ensures Contents(map[], msgs[..j + 1]) == Contents(map[], msgs[..j]) + OwnContent(NamesBefore(msgs, j), msgs[j])
  {
    ContentsSnoc(map[], msgs[..j], msgs[j]);
    assert msgs[..j + 1] == msgs[..j] + [msgs[j]];
    NamesOfPrefix(msgs, j);
  }

  lemma ContentsHead(names: map<string, string>, msgs: seq<Message>, j: nat)
    requires j < |msgs|
    ensures Contents(names, msgs[j..])
         == OwnContent(names, msgs[j]) + Contents(NamesAfter(names, msgs[j]), msgs[j + 1..])
  {
    assert msgs[j..][0] == msgs[j] && msgs[j..][1..] == msgs[j + 1..];
  }

  function OwnContent(names: map<string, string>, m: Message): seq<Content> {
    var parts := MessageParts(names, m);
    if parts == [] then [] else [Content(m.role.RoleAssistant?, parts)]
  }

  function NamesFrom(names: map<string, string>, msgs: seq<Message>): map<string, string>
    decreases |msgs|
  {
    if msgs == [] then names else NamesFrom(NamesAfter(names, msgs[0]), msgs[1..])
  }

  lemma {:induction false} ContentsSnoc(names: map<string, string>, msgs: seq<Message>, m: Message)
    ensures Contents(names, msgs + [m]) == Contents(names, msgs) + OwnContent(NamesFrom(names, msgs), m)
    decreases |msgs|
  {
    if msgs == [] {
      assert msgs + [m] == [m] && [m][1..] == [];
    } else {
      assert (msgs + [m])[0] == msgs[0] && (msgs + [m])[1..] == msgs[1..] + [m];
      ContentsSnoc(NamesAfter(names, msgs[0]), msgs[1..], m);
      var own := OwnContent(names, msgs[0]);
      var rest, last := Contents(NamesAfter(names, msgs[0]), msgs[1..]), OwnContent(NamesFrom(names, msgs), m);
      Strings.Assoc(own, rest, last);
    }
  }

  lemma {:induction false} NamesOfPrefix(msgs: seq<Message>, j: nat)
    requires j <= |msgs|
    ensures NamesFrom(map[], msgs[..j]) == NamesBefore(msgs, j)
  {
    if j > 0 {
      NamesOfPrefix(msgs, j - 1);
      assert msgs[..j] == msgs[..j - 1] + [msgs[j - 1]];
      NamesFromSnoc(map[], msgs[..j - 1], msgs[j - 1]);
    }
  }

  lemma {:induction false} NamesFromSnoc(names: map<string, string>, msgs: seq<Message>, m: Message)
    ensures NamesFrom(names, msgs + [m]) == NamesAfter(NamesFrom(names, msgs), m)
    decreases |msgs|
  {
    if msgs == [] {
      assert msgs + [m] == [m] && [m][1..] == [];
    } else {
      assert (msgs + [m])[0] == msgs[0] && (msgs + [m])[1..] == msgs[1..] + [m];
      NamesFromSnoc(NamesAfter(names, msgs[0]), msgs[1..], m);
    }
  }
}

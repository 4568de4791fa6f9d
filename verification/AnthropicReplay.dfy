/** What survives a wire message's trip through pump, accumulator and encoder. */
module AnthropicReplay {
  import opened Gage
  import opened Accumulate
  import opened Anthropic
  import Strings

  // ---- streaming a message ----

  function TextPieces(pieces: seq<DeltaPiece>): string {
    if pieces == [] then ""
    else (if pieces[0].TextPiece? then pieces[0].s else "") + TextPieces(pieces[1..])
  }

  function ThinkingPieces(pieces: seq<DeltaPiece>): string {
    if pieces == [] then ""
    else (if pieces[0].ThinkingPiece? then pieces[0].s else "") + ThinkingPieces(pieces[1..])
  }

  function SignaturePieces(pieces: seq<DeltaPiece>): string {
    if pieces == [] then ""
    else (if pieces[0].SignaturePiece? then pieces[0].s else "") + SignaturePieces(pieces[1..])
  }

  function InputPieces(pieces: seq<DeltaPiece>): string {
    if pieces == [] then ""
    else (if pieces[0].InputPiece? then pieces[0].s else "") + InputPieces(pieces[1..])
  }

  /** The pieces of a block, cut and interleaved in any way. */
  ghost predicate Cuts(b: Block, pieces: seq<DeltaPiece>) {
    match b
    case Text(s) => TextPieces(pieces) == s && forall p :: p in pieces ==> p.TextPiece? || p.OtherPiece?
    case Thinking(s, sig) =>
      && ThinkingPieces(pieces) == s && SignaturePieces(pieces) == sig
      && forall p :: p in pieces ==> p.ThinkingPiece? || p.SignaturePiece? || p.OtherPiece?
    case Redacted(_) => forall p :: p in pieces ==> p.OtherPiece?
    case Use(_, _, input) =>
      NonEmpty(InputPieces(pieces)) == input && forall p :: p in pieces ==> p.InputPiece? || p.OtherPiece?
  }

  function StartOf(b: Block, index: int): WireEvent {
    match b
    case Text(_) => BlockStart(index, TextKind, "", "", "")
    case Thinking(_, _) => BlockStart(index, ThinkingKind, "", "", "")
    case Redacted(data) => BlockStart(index, RedactedKind, "", "", data)
    case Use(id, name, _) => BlockStart(index, ToolUseKind, id, name, "")
  }

  function Deltas(index: int, pieces: seq<DeltaPiece>): seq<WireEvent> {
    seq(|pieces|, k requires 0 <= k < |pieces| => BlockDelta(index, pieces[k]))
  }

  /** How one block goes over the wire: its index and the pieces of its content. */
  datatype Cut = Cut(index: int, pieces: seq<DeltaPiece>)

  function BlockEvents(b: Block, cut: Cut): seq<WireEvent> {
    [StartOf(b, cut.index)] + Deltas(cut.index, cut.pieces) + [BlockStop(cut.index)]
  }

  function MessageEvents(blocks: seq<Block>, cuts: seq<Cut>): seq<WireEvent>
    requires |blocks| == |cuts|
  {
    if blocks == [] then [] else BlockEvents(blocks[0], cuts[0]) + MessageEvents(blocks[1..], cuts[1..])
  }

  ghost predicate AllCuts(blocks: seq<Block>, cuts: seq<Cut>) {
    |blocks| == |cuts| && forall k :: 0 <= k < |blocks| ==> Cuts(blocks[k], cuts[k].pieces)
  }

  /** What the accumulator makes of the events of one block, seen from outside. */
  function Fed(acc: Acc, b: Block): Acc {
    match b
    case Text(s) => Norm(Delta(acc, OpenText, s))
    case Thinking(s, sig) => Flush(Delta(acc, OpenReasoning, s), sig)
    case Redacted(data) => Flush(Delta(acc, OpenReasoning, ""), REDACTED_PREFIX + data)
    case Use(id, name, input) => Take(acc, ToolCallDone(ToolCall(id, name, input)))
  }

  // ---- one block through the pump ----

  /** The pump, told apart from what it has already emitted. */
  lemma {:induction false} PumpAllConcat(st: PumpState, a: seq<WireEvent>, b: seq<WireEvent>)
    requires forall e :: e in a ==> !e.WireError?
    ensures PumpAll(st, a + b) == PumpAll(PumpAll(st, a), b)
    decreases |a|
  {
    if a == [] {
      assert a + b == b;
    } else {
      assert a[0] in a;
      assert (a + b)[0] == a[0] && (a + b)[1..] == a[1..] + b;
      PumpAllConcat(PumpStep(st, a[0]), a[1..], b);
    }
  }

  lemma {:induction false} FirstErrorConcat(a: seq<WireEvent>, b: seq<WireEvent>)
    requires forall e :: e in a ==> !e.WireError?
    ensures FirstError(a + b) == FirstError(b)
  {
    if a == [] {
      assert a + b == b;
    } else {
      assert a[0] in a;
      assert (a + b)[0] == a[0] && (a + b)[1..] == a[1..] + b;
      FirstErrorConcat(a[1..], b);
    }
  }

  /** What the accumulator has made of everything the pump has emitted. */
  function Heard(st: PumpState): Acc {
    TakeAll(EMPTY_ACC, st.out)
  }

  lemma HeardMore(st: PumpState, st': PumpState, ev: Event)
    requires st'.out == st.out + [ev]
    ensures Heard(st') == Take(Heard(st), ev)
  {
    TakeAllSnoc(EMPTY_ACC, st.out, ev);
  }

  /** A block in the middle of its deltas: what the pump holds for it and what the
      accumulator has been given are the pieces so far. */
  ghost predicate Midway(b: Block, index: int, start: Acc, st: PumpState, sofar: string, signature: string,
                         input: string) {
    && index in st.blocks
    && var o := st.blocks[index];
       match b
       case Text(_) => o.kind.TextKind? && Norm(Heard(st)) == Norm(Delta(start, OpenText, sofar))
       case Thinking(_, _) =>
         && o.kind.ThinkingKind? && o.signature == signature
         && (Norm(Heard(st)) == Norm(Delta(start, OpenReasoning, sofar)) || (sofar == "" && Norm(Heard(st)) == start))
       case Redacted(data) =>
         o.kind.RedactedKind? && o.signature == REDACTED_PREFIX + data && Norm(Heard(st)) == start
       case Use(id, name, _) =>
         o.kind.ToolUseKind? && o.id == id && o.name == name && o.input == input && Norm(Heard(st)) == start
  }

  /** The pieces still to come make up the rest of the block. */
  ghost predicate Completes(b: Block, pieces: seq<DeltaPiece>, sofar: string, signature: string, input: string) {
    match b
    case Text(s) => s == sofar + TextPieces(pieces) && forall p :: p in pieces ==> p.TextPiece? || p.OtherPiece?
    case Thinking(s, sig) =>
      && s == sofar + ThinkingPieces(pieces) && sig == signature + SignaturePieces(pieces)
      && forall p :: p in pieces ==> p.ThinkingPiece? || p.SignaturePiece? || p.OtherPiece?
    case Redacted(_) => forall p :: p in pieces ==> p.OtherPiece?
    case Use(_, _, i) =>
      i == NonEmpty(input + InputPieces(pieces)) && forall p :: p in pieces ==> p.InputPiece? || p.OtherPiece?
  }

  predicate Allowed(b: Block, p: DeltaPiece) {
    p.OtherPiece? ||
    match b
    case Text(_) => p.TextPiece?
    case Thinking(_, _) => p.ThinkingPiece? || p.SignaturePiece?
    case Redacted(_) => false
    case Use(_, _, _) => p.InputPiece?
  }

  /** What has been seen of the content, the signature and the input after one more piece. */
  function Sofar(sofar: string, p: DeltaPiece): string {
    if p.TextPiece? || p.ThinkingPiece? then sofar + p.s else sofar
  }

  function Signed(signature: string, p: DeltaPiece): string {
    if p.SignaturePiece? then signature + p.s else signature
  }

  function Read(input: string, p: DeltaPiece): string {
    if p.InputPiece? then input + p.s else input
  }

  lemma DeltaPumped(b: Block, index: int, start: Acc, p: DeltaPiece, st: PumpState, sofar: string, signature: string,
                    input: string)
    requires Between(start) && Allowed(b, p)
    requires Midway(b, index, start, st, sofar, signature, input)
    ensures Midway(b, index, start, OnDelta(st, index, p), Sofar(sofar, p), Signed(signature, p), Read(input, p))
  {
    var st1 := OnDelta(st, index, p);
    match p
    case TextPiece(s) =>
      HeardMore(st, st1, TextDelta(s));
      DeltaNorm(start, Heard(st), OpenText, sofar, s);
    case ThinkingPiece(s) =>
      HeardMore(st, st1, ReasoningDelta(s));
      DeltaNorm(start, Heard(st), OpenReasoning, sofar, s);
    case InputPiece(s) => HeardMore(st, st1, st1.out[|st.out|]);
    case _ =>
  }

  lemma PieceCompletes(b: Block, pieces: seq<DeltaPiece>, sofar: string, signature: string, input: string)
    requires pieces != [] && Completes(b, pieces, sofar, signature, input)
    ensures Allowed(b, pieces[0])
    ensures Completes(b, pieces[1..], Sofar(sofar, pieces[0]), Signed(signature, pieces[0]), Read(input, pieces[0]))
  {
    var p, rest := pieces[0], pieces[1..];
    assert p in pieces && forall q :: q in rest ==> q in pieces;
    match b
    case Text(_) => TextCompletes(sofar, pieces);
    case Thinking(_, _) =>
      ThinkingCompletes(sofar, pieces);
      SignatureCompletes(signature, pieces);
    case Redacted(_) =>
    case Use(_, _, _) => InputCompletes(input, pieces);
  }

  lemma FirstFolded(sofar: string, s: string, rest: string)
    ensures (sofar + s) + rest == sofar + (s + rest)
    ensures sofar + "" == sofar
  {
  }

  lemma TextCompletes(sofar: string, pieces: seq<DeltaPiece>)
    requires pieces != [] && (pieces[0].TextPiece? || pieces[0].OtherPiece?)
    ensures Sofar(sofar, pieces[0]) + TextPieces(pieces[1..]) == sofar + TextPieces(pieces)
  {
    FirstFolded(sofar, if pieces[0].TextPiece? then pieces[0].s else "", TextPieces(pieces[1..]));
  }

  lemma ThinkingCompletes(sofar: string, pieces: seq<DeltaPiece>)
    requires pieces != [] && !pieces[0].TextPiece?
    ensures Sofar(sofar, pieces[0]) + ThinkingPieces(pieces[1..]) == sofar + ThinkingPieces(pieces)
  {
    FirstFolded(sofar, if pieces[0].ThinkingPiece? then pieces[0].s else "", ThinkingPieces(pieces[1..]));
  }

  lemma SignatureCompletes(signature: string, pieces: seq<DeltaPiece>)
    requires pieces != []
    ensures Signed(signature, pieces[0]) + SignaturePieces(pieces[1..]) == signature + SignaturePieces(pieces)
  {
    FirstFolded(signature, if pieces[0].SignaturePiece? then pieces[0].s else "", SignaturePieces(pieces[1..]));
  }

  lemma InputCompletes(input: string, pieces: seq<DeltaPiece>)
    requires pieces != []
    ensures Read(input, pieces[0]) + InputPieces(pieces[1..]) == input + InputPieces(pieces)
  {
    FirstFolded(input, if pieces[0].InputPiece? then pieces[0].s else "", InputPieces(pieces[1..]));
  }

  lemma {:induction false} DeltasPumped(b: Block, index: int, start: Acc, pieces: seq<DeltaPiece>, st: PumpState,
                                       sofar: string, signature: string, input: string)
      returns (sofar': string, signature': string, input': string)
    requires Between(start)
    requires Midway(b, index, start, st, sofar, signature, input)
    requires Completes(b, pieces, sofar, signature, input)
    ensures Midway(b, index, start, PumpAll(st, Deltas(index, pieces)), sofar', signature', input')
    ensures Completes(b, [], sofar', signature', input')
    decreases |pieces|
  {
    if pieces == [] {
      assert Deltas(index, pieces) == [];
      sofar', signature', input' := sofar, signature, input;
    } else {
      var p, rest := pieces[0], pieces[1..];
      assert Deltas(index, pieces)[0] == BlockDelta(index, p) && Deltas(index, pieces)[1..] == Deltas(index, rest);
      PieceCompletes(b, pieces, sofar, signature, input);
      DeltaPumped(b, index, start, p, st, sofar, signature, input);
      sofar', signature', input' := DeltasPumped(b, index, start, rest, PumpStep(st, BlockDelta(index, p)),
                                                Sofar(sofar, p), Signed(signature, p), Read(input, p));
    }
  }

  lemma BlockStarts(b: Block, index: int, st: PumpState)
    requires Between(Norm(Heard(st)))
    ensures Midway(b, index, Norm(Heard(st)), PumpStep(st, StartOf(b, index)), "", "", "")
  {
    var st' := PumpStep(st, StartOf(b, index));
    if b.Use? {
      HeardMore(st, st', ToolCallStart(ToolCall(b.id, b.name, "")));
    }
  }

  lemma BlockStops(b: Block, index: int, start: Acc, st: PumpState, sofar: string, signature: string, input: string)
    requires Between(start)
    requires Midway(b, index, start, st, sofar, signature, input) && Completes(b, [], sofar, signature, input)
    ensures Norm(Heard(PumpStep(st, BlockStop(index)))) == Fed(start, b)
    ensures Between(Fed(start, b))
  {
    var st' := PumpStep(st, BlockStop(index));
    assert sofar + "" == sofar && signature + "" == signature && input + "" == input;
    if !b.Text? {
      var ev := st'.out[|st.out|];
      HeardMore(st, st', ev);
      TakeNorm(Heard(st), ev);
      match b
      case Thinking(s, sig) => ThoughtStops(start, Heard(st), s, sig);
      case Redacted(data) => StopAtOnce(start, REDACTED_PREFIX + data);
      case Use(_, _, _) =>
    }
  }

  lemma ThoughtStops(start: Acc, heard: Acc, s: string, sig: string)
    requires Between(start)
    requires Norm(heard) == Norm(Delta(start, OpenReasoning, s)) || (s == "" && Norm(heard) == start)
    ensures Take(Norm(heard), ReasoningDone(sig)) == Flush(Delta(start, OpenReasoning, s), sig)
  {
    if Norm(heard) == start && s == "" {
      StopAtOnce(start, sig);
    } else {
      TakeNorm(Delta(start, OpenReasoning, s), ReasoningDone(sig));
    }
  }

  lemma BlockHasNoErrors(b: Block, cut: Cut)
    ensures forall e :: e in BlockEvents(b, cut) ==> !e.WireError?
  {
  }

  /** A whole block, however it is cut, feeds the accumulator the block. */
  lemma BlockPumped(b: Block, cut: Cut, st: PumpState)
    requires Cuts(b, cut.pieces) && Between(Norm(Heard(st)))
    ensures var st' := PumpAll(st, BlockEvents(b, cut));
            Norm(Heard(st')) == Fed(Norm(Heard(st)), b) && Between(Norm(Heard(st')))
  {
    var start, index := Norm(Heard(st)), cut.index;
    var first, middle, last := [StartOf(b, index)], Deltas(index, cut.pieces), [BlockStop(index)];
    BlockHasNoErrors(b, cut);
    PumpAllConcat(st, first + middle, last);
    PumpAllConcat(st, first, middle);
    var st1 := PumpStep(st, StartOf(b, index));
    assert PumpAll(st, first) == PumpAll(st1, []);
    BlockStarts(b, index, st);
    assert Completes(b, cut.pieces, "", "", "");
    var sofar, signature, input := DeltasPumped(b, index, start, cut.pieces, st1, "", "", "");
    var st2 := PumpAll(st1, middle);
    BlockStops(b, index, start, st2, sofar, signature, input);
    assert PumpAll(st2, last) == PumpAll(PumpStep(st2, BlockStop(index)), []);
  }

  // ---- the whole message ----

  function FedAll(acc: Acc, blocks: seq<Block>): Acc
    decreases |blocks|
  {
    if blocks == [] then acc else FedAll(Fed(acc, blocks[0]), blocks[1..])
  }

  lemma {:induction false} MessagePumped(blocks: seq<Block>, cuts: seq<Cut>, st: PumpState)
    requires AllCuts(blocks, cuts) && Between(Norm(Heard(st)))
    ensures Norm(Heard(PumpAll(st, MessageEvents(blocks, cuts)))) == FedAll(Norm(Heard(st)), blocks)
    ensures FirstError(MessageEvents(blocks, cuts)).None?
    ensures forall e :: e in MessageEvents(blocks, cuts) ==> !e.WireError?
    decreases |blocks|
  {
    if blocks != [] {
      var head := BlockEvents(blocks[0], cuts[0]);
      var tail := MessageEvents(blocks[1..], cuts[1..]);
      BlockHasNoErrors(blocks[0], cuts[0]);
      PumpAllConcat(st, head, tail);
      FirstErrorConcat(head, tail);
      BlockPumped(blocks[0], cuts[0], st);
      MessagePumped(blocks[1..], cuts[1..], PumpAll(st, head));
    }
  }

  /** Events that belong to no block: the message's start and deltas, pings, and what the
      pump does not know. They may come anywhere, in the middle of a block too. */
  predicate IsFrame(e: WireEvent) {
    e.WireStart? || e.WireDelta? || e.Ignored?
  }

  /** What is left of a stream without them. */
  function Unframed(es: seq<WireEvent>): seq<WireEvent> {
    if es == [] then [] else (if IsFrame(es[0]) then [] else [es[0]]) + Unframed(es[1..])
  }

  /** The pump in a state, and the same with another account of usage and stop reason. */
  ghost predicate TellsTheSame(st: PumpState, bare: PumpState) {
    st.blocks == bare.blocks && st.out == bare.out
  }

  lemma StepTellsTheSame(st: PumpState, bare: PumpState, e: WireEvent)
    requires TellsTheSame(st, bare) && !e.WireError?
    ensures TellsTheSame(PumpStep(st, e), if IsFrame(e) then bare else PumpStep(bare, e))
  {
  }

  /** Wherever they come, the pump's blocks and events are those of the stream without
      them. */
  lemma {:induction false} FramesAreSilent(st: PumpState, bare: PumpState, es: seq<WireEvent>)
    requires TellsTheSame(st, bare)
    ensures TellsTheSame(PumpAll(st, es), PumpAll(bare, Unframed(es)))
    ensures FirstError(es) == FirstError(Unframed(es))
    decreases |es|
  {
    if es != [] {
      var e, rest := es[0], es[1..];
      assert Unframed(es) == (if IsFrame(e) then [] else [e]) + Unframed(rest);
      if IsFrame(e) {
        assert [] + Unframed(rest) == Unframed(rest);
      } else {
        assert ([e] + Unframed(rest))[1..] == Unframed(rest);
      }
      if !e.WireError? {
        StepTellsTheSame(st, bare, e);
        FramesAreSilent(PumpStep(st, e), if IsFrame(e) then bare else PumpStep(bare, e), rest);
      }
    }
  }

  /** What a block other than text becomes. */
  function PartOf(b: Block): seq<Part> {
    match b
    case Text(_) => []
    case Thinking(s, sig) => if s == "" && sig == "" then [] else [ReasoningPart(s, sig)]
    case Redacted(data) => [ReasoningPart("", REDACTED_PREFIX + data)]
    case Use(id, name, input) => [ToolUsePart(ToolCall(id, name, input))]
  }

  /** The parts of the message the accumulator rebuilds: adjacent texts run together,
      empty ones vanish, and so does thinking with neither text nor signature. */
  function PartsOf(blocks: seq<Block>, open: string): seq<Part>
    decreases |blocks|
  {
    if blocks == [] then Flushed(open)
    else if blocks[0].Text? then PartsOf(blocks[1..], open + blocks[0].text)
    else Flushed(open) + PartOf(blocks[0]) + PartsOf(blocks[1..], "")
  }

  lemma FedParts(acc: Acc, b: Block)
    requires Between(acc)
    ensures var fed := Fed(acc, b);
            && Between(fed)
            && (b.Text? ==> fed.parts == acc.parts && fed.openText == acc.openText + b.text)
            && (!b.Text? ==> fed.parts == acc.parts + Flushed(acc.openText) + PartOf(b) && fed.openText == "")
  {
    if b.Redacted? {
      assert (REDACTED_PREFIX + b.data)[0] == 'r';
    }
    if b.Thinking? || b.Redacted? {
      var s := if b.Thinking? then b.thinking else "";
      var open := Delta(acc, OpenReasoning, s);
      assert "" + s == s;
      assert open.parts == acc.parts + Flushed(acc.openText) && open.openText == s;
    }
  }

  lemma {:induction false} FedAllParts(acc: Acc, blocks: seq<Block>)
    requires Between(acc)
    ensures Content(FedAll(acc, blocks)) == acc.parts + PartsOf(blocks, acc.openText)
    decreases |blocks|
  {
    if blocks != [] {
      var b, rest := blocks[0], blocks[1..];
      FedParts(acc, b);
      FedAllParts(Fed(acc, b), rest);
      if !b.Text? {
        Strings.Assoc(acc.parts, Flushed(acc.openText), PartOf(b));
        Strings.Assoc(acc.parts, Flushed(acc.openText) + PartOf(b), PartsOf(rest, ""));
      }
    }
  }

  /** Pump, then accumulate: the rebuilt message depends on the wire blocks alone, not
      on how their content was cut into deltas, how blocks were indexed, or what came
      before, between, within and after them. */
  lemma StreamRebuilds(blocks: seq<Block>, cuts: seq<Cut>, es: seq<WireEvent>)
    requires AllCuts(blocks, cuts) && Unframed(es) == MessageEvents(blocks, cuts)
    ensures FirstError(es).None?
    ensures Content(TakeAll(EMPTY_ACC, PumpOutput(es))) == PartsOf(blocks, "")
  {
    HeardMore(PUMP_START.(out := []), PUMP_START, MessageStart);
    assert Heard(PUMP_START) == EMPTY_ACC;
    MessagePumped(blocks, cuts, PUMP_START);
    FramesAreSilent(PUMP_START, PUMP_START, es);
    FedAllParts(EMPTY_ACC, blocks);
    var st := PumpAll(PUMP_START, es);
    assert Content(Heard(st)) == Content(Norm(Heard(st)));
    TakeAllConcat(EMPTY_ACC, st.out, Closing(st, None));
    ClosingSilent(Heard(st), st);
  }

  lemma ClosingSilent(acc: Acc, st: PumpState)
    ensures Content(TakeAll(acc, Closing(st, None))) == Content(acc)
  {
    var done := [MessageDone(st.stopReason)];
    assert forall a :: TakeAll(a, done) == TakeAll(Take(a, done[0]), []);
    if st.haveUsage {
      var usage := UsageEvent(st.usage);
      TakeAllConcat(acc, [usage], done);
      assert TakeAll(acc, [usage]) == TakeAll(Take(acc, usage), []);
    } else {
      assert [] + done == done;
    }
  }

  // ---- encoding it again ----

  /** The blocks the encoder replays for what was rebuilt. */
  function Replayed(blocks: seq<Block>): seq<Block> {
    ReasoningBlocks(PartsOf(blocks, "")) + OtherBlocks(PartsOf(blocks, ""))
  }

  predicate IsReasoning(b: Block) {
    b.Thinking? || b.Redacted?
  }

  /** The reasoning blocks, or the others, in their order. */
  function Only(blocks: seq<Block>, reasoning: bool): seq<Block> {
    if blocks == [] then []
    else (if IsReasoning(blocks[0]) == reasoning then [blocks[0]] else []) + Only(blocks[1..], reasoning)
  }

  /** A block with content of its own that the encoder can tell for what it is: a
      signature that looks like the marker of redacted thinking is taken for one. */
  predicate Fine(b: Block) {
    match b
    case Text(s) => s != ""
    case Thinking(s, sig) => (s != "" || sig != "") && !HasPrefix(sig, REDACTED_PREFIX)
    case Redacted(_) => true
    case Use(_, _, input) => input != ""
  }

  /** Fine blocks, no two texts next to each other (nothing on the wire keeps them apart). */
  predicate Clean(blocks: seq<Block>) {
    && (forall k :: 0 <= k < |blocks| ==> Fine(blocks[k]))
    && (forall k :: 0 <= k < |blocks| - 1 ==> !(blocks[k].Text? && blocks[k + 1].Text?))
  }

  predicate ReasoningFirst(blocks: seq<Block>) {
    forall k :: 0 < k < |blocks| && IsReasoning(blocks[k]) ==> IsReasoning(blocks[k - 1])
  }

  lemma {:induction false} ReasoningConcat(a: seq<Part>, b: seq<Part>)
    ensures ReasoningBlocks(a + b) == ReasoningBlocks(a) + ReasoningBlocks(b)
  {
    if a == [] {
      assert a + b == b;
    } else {
      assert (a + b)[0] == a[0] && (a + b)[1..] == a[1..] + b;
      ReasoningConcat(a[1..], b);
    }
  }

  lemma {:induction false} OtherConcat(a: seq<Part>, b: seq<Part>)
    ensures OtherBlocks(a + b) == OtherBlocks(a) + OtherBlocks(b)
  {
    if a == [] {
      assert a + b == b;
    } else {
      assert (a + b)[0] == a[0] && (a + b)[1..] == a[1..] + b;
      OtherConcat(a[1..], b);
      assert (OtherBlock(a[0]) + OtherBlocks(a[1..])) + OtherBlocks(b)
          == OtherBlock(a[0]) + (OtherBlocks(a[1..]) + OtherBlocks(b));
    }
  }

  /** What a block comes back as when it comes back by itself. */
  function Again(b: Block): Block {
    match b
    case Thinking(s, sig) => EncodeReasoning(s, sig)
    case Use(id, name, input) => Use(id, name, NonEmpty(input))
    case _ => b
  }

  function AgainOnly(blocks: seq<Block>, reasoning: bool): seq<Block> {
    if blocks == [] then []
    else (if IsReasoning(blocks[0]) == reasoning then [Again(blocks[0])] else []) + AgainOnly(blocks[1..], reasoning)
  }

  /** Nothing is dropped and nothing runs together, with `open` text before. */
  predicate Tight(blocks: seq<Block>, open: string)
    decreases |blocks|
  {
    if blocks == [] then true
    else if blocks[0].Text? then open == "" && blocks[0].text != "" && Tight(blocks[1..], blocks[0].text)
    else PartOf(blocks[0]) != [] && Tight(blocks[1..], "")
  }

  lemma {:induction false} TightByLength(blocks: seq<Block>, open: string)
    ensures |PartsOf(blocks, open)| <= |blocks| + |Flushed(open)|
    ensures Tight(blocks, open) <==> |PartsOf(blocks, open)| == |blocks| + |Flushed(open)|
    decreases |blocks|
  {
    if blocks != [] {
      if blocks[0].Text? {
        TightByLength(blocks[1..], open + blocks[0].text);
        if open == "" {
          assert open + blocks[0].text == blocks[0].text;
        }
      } else {
        TightByLength(blocks[1..], "");
      }
    }
  }

  lemma {:induction false} TightEncodes(blocks: seq<Block>, open: string)
    requires Tight(blocks, open)
    ensures ReasoningBlocks(PartsOf(blocks, open)) == AgainOnly(blocks, true)
    ensures OtherBlocks(PartsOf(blocks, open)) == OtherBlocks(Flushed(open)) + AgainOnly(blocks, false)
    decreases |blocks|
  {
    if blocks != [] {
      var b, rest := blocks[0], blocks[1..];
      if b.Text? {
        assert open + b.text == b.text;
        TightEncodes(rest, b.text);
        assert OtherBlocks(Flushed(b.text)) == [b] by {
          assert [TextPart(b.text)][1..] == [];
        }
      } else {
        TightEncodes(rest, "");
        ThreeEncode(open, b, PartsOf(rest, ""));
      }
    }
  }

  lemma ThreeEncode(open: string, b: Block, rest: seq<Part>)
    requires !b.Text? && PartOf(b) != []
    ensures ReasoningBlocks(Flushed(open) + PartOf(b) + rest)
         == (if IsReasoning(b) then [Again(b)] else []) + ReasoningBlocks(rest)
    ensures OtherBlocks(Flushed(open) + PartOf(b) + rest)
         == OtherBlocks(Flushed(open)) + (if IsReasoning(b) then [] else [Again(b)]) + OtherBlocks(rest)
  {
    PartEncodes(b);
    TextHoldsNoReasoning(open);
    ThreeReasoning(Flushed(open), PartOf(b), rest);
    ThreeOther(Flushed(open), PartOf(b), rest);
    var own := if IsReasoning(b) then [Again(b)] else [];
    assert [] + own == own;
  }

  lemma TextHoldsNoReasoning(open: string)
    ensures ReasoningBlocks(Flushed(open)) == []
  {
  }

  lemma ThreeReasoning(a: seq<Part>, b: seq<Part>, c: seq<Part>)
    ensures ReasoningBlocks(a + b + c) == ReasoningBlocks(a) + ReasoningBlocks(b) + ReasoningBlocks(c)
  {
    ReasoningConcat(a + b, c);
    ReasoningConcat(a, b);
  }

  lemma ThreeOther(a: seq<Part>, b: seq<Part>, c: seq<Part>)
    ensures OtherBlocks(a + b + c) == OtherBlocks(a) + OtherBlocks(b) + OtherBlocks(c)
  {
    OtherConcat(a + b, c);
    OtherConcat(a, b);
  }

  lemma PartEncodes(b: Block)
    requires !b.Text? && PartOf(b) != []
    ensures ReasoningBlocks(PartOf(b)) == if IsReasoning(b) then [Again(b)] else []
    ensures OtherBlocks(PartOf(b)) == if IsReasoning(b) then [] else [Again(b)]
  {
    assert PartOf(b)[1..] == [];
    if b.Redacted? {
      assert HasPrefix(REDACTED_PREFIX + b.data, REDACTED_PREFIX);
      assert (REDACTED_PREFIX + b.data)[|REDACTED_PREFIX|..] == b.data;
    }
  }

  lemma {:induction false} CleanIsTight(blocks: seq<Block>, open: string)
    requires Clean(blocks) && (open != "" && blocks != [] ==> !blocks[0].Text?)
    ensures Tight(blocks, open)
    ensures AgainOnly(blocks, true) == Only(blocks, true) && AgainOnly(blocks, false) == Only(blocks, false)
    decreases |blocks|
  {
    if blocks != [] {
      var b, rest := blocks[0], blocks[1..];
      assert Fine(b);
      assert forall k :: 0 <= k < |rest| ==> rest[k] == blocks[k + 1];
      CleanIsTight(rest, if b.Text? then b.text else "");
    }
  }

  /** Interleaved thinking: a clean message is replayed as the stable partition of its
      blocks, the reasoning ahead of the rest, every block intact. */
  lemma ReplayPartitions(blocks: seq<Block>)
    requires Clean(blocks)
    ensures Replayed(blocks) == Only(blocks, true) + Only(blocks, false)
  {
    CleanIsTight(blocks, "");
    TightEncodes(blocks, "");
  }

  lemma OneMoreSorted(b: Block, rest: seq<Block>, first: seq<Block>, second: seq<Block>, isFirst: bool)
    requires first + second == rest && (!isFirst ==> first == [])
    ensures ((if isFirst then [b] else []) + first) + ((if isFirst then [] else [b]) + second) == [b] + rest
  {
    Strings.Assoc([b], first, second);
    assert [] + first == first && [] + second == second && [] + ([b] + second) == [b] + second;
  }

  lemma {:induction false} OnlySorted(blocks: seq<Block>)
    requires ReasoningFirst(blocks)
    ensures Only(blocks, true) + Only(blocks, false) == blocks
    ensures blocks != [] && !IsReasoning(blocks[0]) ==> Only(blocks, true) == []
  {
    if blocks != [] {
      var b, rest := blocks[0], blocks[1..];
      assert forall k :: 0 <= k < |rest| ==> rest[k] == blocks[k + 1];
      OnlySorted(rest);
      assert !IsReasoning(b) && rest != [] ==> !IsReasoning(rest[0]);
      OneMoreSorted(b, rest, Only(rest, true), Only(rest, false), IsReasoning(b));
    }
  }

  lemma {:induction false} AgainOnlyKind(blocks: seq<Block>, reasoning: bool)
    ensures forall k :: 0 <= k < |AgainOnly(blocks, reasoning)| ==>
            IsReasoning(AgainOnly(blocks, reasoning)[k]) == reasoning
  {
    if blocks != [] {
      AgainOnlyKind(blocks[1..], reasoning);
    }
  }

  lemma {:induction false} OnlyOfConcat(a: seq<Block>, b: seq<Block>)
    requires forall k :: 0 <= k < |a| ==> IsReasoning(a[k])
    requires forall k :: 0 <= k < |b| ==> !IsReasoning(b[k])
    ensures Only(a + b, true) == a && Only(a + b, false) == b
    ensures ReasoningFirst(a + b)
    decreases |a| + |b|
  {
    if a != [] {
      assert (a + b)[0] == a[0] && (a + b)[1..] == a[1..] + b;
      OnlyOfConcat(a[1..], b);
    } else if b != [] {
      assert a + b == b && [] + b[1..] == b[1..];
      OnlyOfConcat([], b[1..]);
    }
  }

  lemma {:induction false} SameAgain(blocks: seq<Block>, reasoning: bool)
    requires Only(blocks, reasoning) == AgainOnly(blocks, reasoning)
    ensures forall k :: 0 <= k < |blocks| && IsReasoning(blocks[k]) == reasoning ==> Again(blocks[k]) == blocks[k]
  {
    if blocks != [] {
      var rest := blocks[1..];
      var o, a := Only(blocks, reasoning), AgainOnly(blocks, reasoning);
      if IsReasoning(blocks[0]) == reasoning {
        assert o[0] == a[0] && o[1..] == Only(rest, reasoning) && a[1..] == AgainOnly(rest, reasoning);
      } else {
        assert o == Only(rest, reasoning) && a == AgainOnly(rest, reasoning);
      }
      SameAgain(rest, reasoning);
      assert forall k :: 1 <= k < |blocks| ==> blocks[k] == rest[k - 1];
    }
  }

  lemma {:induction false} TightIsClean(blocks: seq<Block>, open: string)
    requires Tight(blocks, open)
    requires forall k :: 0 <= k < |blocks| ==> Again(blocks[k]) == blocks[k]
    ensures Clean(blocks) && (open != "" && blocks != [] ==> !blocks[0].Text?)
    decreases |blocks|
  {
    if blocks != [] {
      var b, rest := blocks[0], blocks[1..];
      assert Again(b) == b;
      TightIsClean(rest, if b.Text? then b.text else "");
      assert forall k :: 0 < k < |blocks| ==> blocks[k] == rest[k - 1];
    }
  }

  lemma {:induction false} EncodedLength(parts: seq<Part>)
    ensures |ReasoningBlocks(parts)| + |OtherBlocks(parts)| <= |parts|
  {
    if parts != [] {
      EncodedLength(parts[1..]);
    }
  }

  /** Exactly which messages come back as they were sent: clean ones with their
      reasoning first. */
  lemma ReplayIdentityIff(blocks: seq<Block>)
    ensures Replayed(blocks) == blocks <==> Clean(blocks) && ReasoningFirst(blocks)
  {
    if Clean(blocks) && ReasoningFirst(blocks) {
      ReplayPartitions(blocks);
      OnlySorted(blocks);
    }
    if Replayed(blocks) == blocks {
      EncodedLength(PartsOf(blocks, ""));
      TightByLength(blocks, "");
      TightEncodes(blocks, "");
      var r, o := AgainOnly(blocks, true), AgainOnly(blocks, false);
      AgainOnlyKind(blocks, true);
      AgainOnlyKind(blocks, false);
      OnlyOfConcat(r, o);
      assert OtherBlocks(Flushed("")) == [] && [] + o == o;
      assert blocks == r + o;
      SameAgain(blocks, true);
      SameAgain(blocks, false);
      TightIsClean(blocks, "");
    }
  }

  /** The three-stage round trip: whatever the cutting into deltas, and wherever pings and
      the like come in between, a wire message pumped, accumulated and encoded again is
      the same blocks, signatures and redacted payloads included, if and only if it is
      clean with reasoning first. */
  lemma SignedReasoningSurvives(blocks: seq<Block>, cuts: seq<Cut>, es: seq<WireEvent>)
    requires AllCuts(blocks, cuts) && Unframed(es) == MessageEvents(blocks, cuts)
    ensures var parts := Content(TakeAll(EMPTY_ACC, PumpOutput(es)));
            && (ReasoningBlocks(parts) + OtherBlocks(parts) == blocks <==> Clean(blocks) && ReasoningFirst(blocks))
            && (Clean(blocks) ==>
                  ReasoningBlocks(parts) + OtherBlocks(parts) == Only(blocks, true) + Only(blocks, false))
  {
    StreamRebuilds(blocks, cuts, es);
    ReplayIdentityIff(blocks);
    if Clean(blocks) {
      ReplayPartitions(blocks);
    }
  }
}

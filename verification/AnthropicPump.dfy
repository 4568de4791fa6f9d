/** What the Messages pump emits, read off the wire's history instead of the pump's state:
    every event by what came before it, and the closing figures. */
module AnthropicPump {
  import opened Gage
  import opened Anthropic
  import AnthropicReplay
  import Strings

  // ---- the history of a block ----

  /** The latest start of a block at this index. */
  function StartFor(es: seq<WireEvent>, index: int): Option<WireEvent> {
    if es == [] then None
    else
      var last := es[|es| - 1];
      if last.BlockStart? && last.index == index then Some(last) else StartFor(es[..|es| - 1], index)
  }

  /** The input that came for it since. */
  function InputFor(es: seq<WireEvent>, index: int): string {
    if es == [] then ""
    else
      var before, last := es[..|es| - 1], es[|es| - 1];
      if last.BlockStart? && last.index == index then ""
      else if last.BlockDelta? && last.index == index && last.piece.InputPiece? then
        InputFor(before, index) + last.piece.s
      else InputFor(before, index)
  }

  /** The signature that came for it since. */
  function SignatureFor(es: seq<WireEvent>, index: int): string {
    if es == [] then ""
    else
      var before, last := es[..|es| - 1], es[|es| - 1];
      if last.BlockStart? && last.index == index then ""
      else if last.BlockDelta? && last.index == index && last.piece.SignaturePiece? then
        SignatureFor(before, index) + last.piece.s
      else SignatureFor(before, index)
  }

  // ---- what each wire event makes known ----

  /** What event `e` makes known after `before`. */
  function Says(before: seq<WireEvent>, e: WireEvent): seq<Event> {
    match e
    case BlockStart(_, kind, id, name, _) => if kind.ToolUseKind? then [ToolCallStart(ToolCall(id, name, ""))] else []
    case BlockDelta(index, piece) => SaysDelta(before, index, piece)
    case BlockStop(index) =>
      (match StartFor(before, index)
       case None => []
       case Some(start) => SaysStop(before, index, start))
    case _ => []
  }

  function SaysDelta(before: seq<WireEvent>, index: int, piece: DeltaPiece): seq<Event> {
    match piece
    case TextPiece(s) => [TextDelta(s)]
    case ThinkingPiece(s) => [ReasoningDelta(s)]
    case InputPiece(s) =>
      (match StartFor(before, index)
       case Some(BlockStart(_, ToolUseKind, id, name, _)) =>
         [ToolCallDelta(ToolCall(id, name, InputFor(before, index) + s))]
       case _ => [])
    case _ => []
  }

  function SaysStop(before: seq<WireEvent>, index: int, start: WireEvent): seq<Event> {
    match start
    case BlockStart(_, ToolUseKind, id, name, _) =>
      var input := InputFor(before, index);
      [ToolCallDone(ToolCall(id, name, if input == "" then "{}" else input))]
    case BlockStart(_, ThinkingKind, _, _, _) => [ReasoningDone(SignatureFor(before, index))]
    case BlockStart(_, RedactedKind, _, _, data) => [ReasoningDone("redacted:" + data + SignatureFor(before, index))]
    case _ => []
  }

  function SaysAll(es: seq<WireEvent>): seq<Event> {
    if es == [] then [] else SaysAll(es[..|es| - 1]) + Says(es[..|es| - 1], es[|es| - 1])
  }

  // ---- the closing figures ----

  /** A figure of the message's usage: as the message's start gave it, and since then the
      last positive one. */
  function Figure(es: seq<WireEvent>, field: Usage -> int): int {
    if es == [] then 0
    else
      var before, last := es[..|es| - 1], es[|es| - 1];
      match last
      case WireStart(Some(u)) => field(u)
      case WireDelta(_, Some(u)) => if field(u) > 0 then field(u) else Figure(before, field)
      case _ => Figure(before, field)
  }

  /** Reasoning is not reported apart after the start. */
  function ReasoningFigure(es: seq<WireEvent>): int {
    if es == [] then 0
    else if es[|es| - 1].WireStart? && es[|es| - 1].startUsage.Some? then es[|es| - 1].startUsage.value.reasoning
    else ReasoningFigure(es[..|es| - 1])
  }

  function Figures(es: seq<WireEvent>): Usage {
    Usage(Figure(es, InputOf), Figure(es, OutputOf), ReasoningFigure(es),
          Figure(es, CacheReadOf), Figure(es, CacheWriteOf))
  }

  /** Some event reports usage. */
  predicate Reports(es: seq<WireEvent>) {
    exists k :: 0 <= k < |es| &&
      ((es[k].WireStart? && es[k].startUsage.Some?) || (es[k].WireDelta? && es[k].deltaUsage.Some?))
  }

  /** The stop reason: the one given last, where a tool call counts as one. */
  function Stop(es: seq<WireEvent>): StopReason {
    if es == [] then "end_turn"
    else
      match es[|es| - 1]
      case WireDelta(stop, _) => if stop != "" then stop else Stop(es[..|es| - 1])
      case BlockStart(_, ToolUseKind, _, _, _) => "tool_use"
      case _ => Stop(es[..|es| - 1])
  }

  // ---- the pump agrees ----

  /** The pump's record of a block is its history. */
  ghost predicate Recalls(st: PumpState, es: seq<WireEvent>, index: int) {
    match StartFor(es, index)
    case None => index !in st.blocks
    case Some(start) =>
      && index in st.blocks && start.BlockStart?
      && var b := st.blocks[index];
         && b.kind == start.kind
         && b.signature == (if b.kind.RedactedKind? then "redacted:" + start.data else "") + SignatureFor(es, index)
         && (b.kind.ToolUseKind? ==> b.id == start.id && b.name == start.name && b.input == InputFor(es, index))
  }

  ghost predicate Agrees(st: PumpState, es: seq<WireEvent>) {
    && (forall index :: Recalls(st, es, index))
    && st.out == [MessageStart] + SaysAll(es)
    && st.usage == Figures(es) && st.haveUsage == Reports(es) && st.stopReason == Stop(es)
  }

  lemma HistoryMore(es: seq<WireEvent>, e: WireEvent, index: int)
    ensures var more, starts := es + [e], e.BlockStart? && e.index == index;
            && StartFor(more, index) == (if starts then Some(e) else StartFor(es, index))
            && InputFor(more, index)
               == (if starts then "" else
                   InputFor(es, index)
                   + if e.BlockDelta? && e.index == index && e.piece.InputPiece? then e.piece.s else "")
            && SignatureFor(more, index)
               == (if starts then "" else
                   SignatureFor(es, index)
                   + if e.BlockDelta? && e.index == index && e.piece.SignaturePiece? then e.piece.s else "")
  {
    var more := es + [e];
    assert more[..|more| - 1] == es && more[|more| - 1] == e;
  }

  lemma StepElsewhere(st: PumpState, e: WireEvent, index: int)
    requires !((e.BlockStart? || e.BlockDelta?) && e.index == index)
    ensures var st' := PumpStep(st, e);
            && (index in st'.blocks <==> index in st.blocks)
            && (index in st.blocks ==> st'.blocks[index] == st.blocks[index])
  {
  }

  lemma StepDelta(st: PumpState, es: seq<WireEvent>, e: WireEvent, index: int)
    requires Recalls(st, es, index) && e.BlockDelta? && e.index == index
    ensures Recalls(PumpStep(st, e), es + [e], index)
  {
    HistoryMore(es, e, index);
    if StartFor(es, index).Some? {
      var start := StartFor(es, index).value;
      if e.piece.SignaturePiece? && start.BlockStart? {
        Strings.Assoc(if start.kind.RedactedKind? then "redacted:" + start.data else "",
                      SignatureFor(es, index), e.piece.s);
      }
    }
  }

  lemma StepStart(st: PumpState, es: seq<WireEvent>, e: WireEvent)
    requires e.BlockStart?
    ensures Recalls(PumpStep(st, e), es + [e], e.index)
  {
    HistoryMore(es, e, e.index);
    assert "redacted:" + e.data + "" == "redacted:" + e.data;
  }

  lemma StepRecalls(st: PumpState, es: seq<WireEvent>, e: WireEvent, index: int)
    requires Recalls(st, es, index)
    ensures Recalls(PumpStep(st, e), es + [e], index)
  {
    if e.BlockStart? && e.index == index {
      StepStart(st, es, e);
    } else if e.BlockDelta? && e.index == index {
      StepDelta(st, es, e, index);
    } else {
      HistoryMore(es, e, index);
      StepElsewhere(st, e, index);
    }
  }

  lemma StepSays(st: PumpState, es: seq<WireEvent>, e: WireEvent)
    requires Agrees(st, es) && !e.WireError?
    ensures PumpStep(st, e).out == st.out + Says(es, e)
  {
    assert st.out + [] == st.out;
    match e
    case BlockDelta(index, piece) => assert Recalls(st, es, index);
    case BlockStop(index) =>
      assert Recalls(st, es, index);
      assert "" + SignatureFor(es, index) == SignatureFor(es, index);
    case _ =>
  }

  lemma FigureMore(es: seq<WireEvent>, e: WireEvent, field: Usage -> int)
    ensures Figure(es + [e], field) ==
            match e
            case WireStart(Some(u)) => field(u)
            case WireDelta(_, Some(u)) => (if field(u) > 0 then field(u) else Figure(es, field))
            case _ => Figure(es, field)
  {
    var more := es + [e];
    assert more[..|more| - 1] == es && more[|more| - 1] == e;
  }

  lemma ReasoningMore(es: seq<WireEvent>, e: WireEvent)
    ensures ReasoningFigure(es + [e])
         == if e.WireStart? && e.startUsage.Some? then e.startUsage.value.reasoning else ReasoningFigure(es)
  {
    var more := es + [e];
    assert more[..|more| - 1] == es && more[|more| - 1] == e;
  }

  lemma StopMore(st: PumpState, es: seq<WireEvent>, e: WireEvent)
    requires st.stopReason == Stop(es)
    ensures PumpStep(st, e).stopReason == Stop(es + [e])
  {
    var more := es + [e];
    assert more[..|more| - 1] == es && more[|more| - 1] == e;
  }

  lemma FiguresMore(st: PumpState, es: seq<WireEvent>, e: WireEvent)
    requires st.usage == Figures(es)
    ensures PumpStep(st, e).usage == Figures(es + [e])
  {
    FigureMore(es, e, InputOf);
    FigureMore(es, e, OutputOf);
    FigureMore(es, e, CacheReadOf);
    FigureMore(es, e, CacheWriteOf);
    ReasoningMore(es, e);
  }

  lemma StepFigures(st: PumpState, es: seq<WireEvent>, e: WireEvent)
    requires st.usage == Figures(es) && st.haveUsage == Reports(es) && st.stopReason == Stop(es)
    ensures var st', more := PumpStep(st, e), es + [e];
            st'.usage == Figures(more) && st'.haveUsage == Reports(more) && st'.stopReason == Stop(more)
  {
    FiguresMore(st, es, e);
    StopMore(st, es, e);
    ReportsMore(es, e);
  }

  lemma ReportsMore(es: seq<WireEvent>, e: WireEvent)
    ensures Reports(es + [e]) <==>
              || Reports(es)
              || (e.WireStart? && e.startUsage.Some?) || (e.WireDelta? && e.deltaUsage.Some?)
  {
    var more := es + [e];
    if Reports(es) {
      var k :| 0 <= k < |es| &&
        ((es[k].WireStart? && es[k].startUsage.Some?) || (es[k].WireDelta? && es[k].deltaUsage.Some?));
      assert more[k] == es[k];
    }
    assert more[|es|] == e;
    if Reports(more) {
      var k :| 0 <= k < |more| &&
        ((more[k].WireStart? && more[k].startUsage.Some?) || (more[k].WireDelta? && more[k].deltaUsage.Some?));
      assert k < |es| ==> more[k] == es[k];
    }
  }

  lemma StepAgrees(st: PumpState, es: seq<WireEvent>, e: WireEvent)
    requires Agrees(st, es) && !e.WireError?
    ensures Agrees(PumpStep(st, e), es + [e])
  {
    forall index
      ensures Recalls(PumpStep(st, e), es + [e], index)
    {
      StepRecalls(st, es, e, index);
    }
    StepSays(st, es, e);
    StepFigures(st, es, e);
    var more := es + [e];
    assert more[..|more| - 1] == es && more[|more| - 1] == e;
    Strings.Assoc([MessageStart], SaysAll(es), Says(es, e));
  }

  /** The wire events before the first error. */
  function BeforeError(es: seq<WireEvent>): seq<WireEvent> {
    if es == [] || es[0].WireError? then [] else [es[0]] + BeforeError(es[1..])
  }

  lemma {:induction false} AllAgrees(st: PumpState, before: seq<WireEvent>, es: seq<WireEvent>)
    requires Agrees(st, before)
    ensures Agrees(PumpAll(st, es), before + BeforeError(es))
    decreases |es|
  {
    if es == [] || es[0].WireError? {
      assert before + [] == before;
    } else {
      StepAgrees(st, before, es[0]);
      AllAgrees(PumpStep(st, es[0]), before + [es[0]], es[1..]);
      Strings.Assoc(before, [es[0]], BeforeError(es[1..]));
    }
  }

  /** For every stream, well-formed or not: the pump emits the start, what each wire event
      before the first error makes known, in order, and then either that error or the
      figures and the stop reason. */
  lemma PumpTells(es: seq<WireEvent>)
    ensures var read := BeforeError(es);
            PumpOutput(es) == [MessageStart] + SaysAll(read) +
              match FirstError(es)
              case Some(msg) => [ErrorEvent(Some(Wrapped("anthropic", OtherError(msg))), "")]
              case None => (if Reports(read) then [UsageEvent(Figures(read))] else []) + [MessageDone(Stop(read))]
  {
    var read := BeforeError(es);
    assert Figures([]) == ZERO_USAGE;
    assert [MessageStart] + SaysAll([]) == [MessageStart];
    assert Agrees(PUMP_START, []);
    AllAgrees(PUMP_START, [], es);
    assert [] + read == read;
  }
}

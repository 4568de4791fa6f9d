/** What a run over the generateContent wire format sends back: the thoughts, texts and
    calls of earlier streams, and every result under the name of its call. */
module GeminiRuns {
  import opened Gage
  import opened Numerals
  import opened Accumulate
  import opened ToolCalls
  import opened RunLog
  import opened AgentLoop
  import opened LogFacts
  import opened Transcripts
  import opened Gemini
  import opened GeminiReplay
  import Pairing
  import PauseResume
  import Reports

  /** The pump's events for chunks that carry the pieces, cut up in any way. */
  ghost predicate Pumped(events: seq<Event>, chunks: seq<Chunk>, pieces: seq<ContentPiece>, cuts: seq<seq<WirePart>>) {
    && events == PumpOutput(chunks) && FirstError(chunks).None?
    && FromModel(pieces) && AllCuts(pieces, cuts) && PartsIn(chunks) == Flat(cuts)
  }

  ghost predicate Carries(events: seq<Event>, pieces: seq<ContentPiece>) {
    exists chunks, cuts :: Pumped(events, chunks, pieces, cuts)
  }

  /** Every stream the provider opens is the pump's, and carries some pieces unless it fails. */
  ghost predicate Served(w: World) {
    forall n: nat, turn: nat, attempt: nat, request: seq<Message> ::
      var r := w.stream(n, turn, attempt, request);
      r.Streaming? ==>
        && (exists chunks :: r.events == PumpOutput(chunks))
        && (NoErrors(r.events) ==> exists pieces :: Carries(r.events, pieces))
  }

  /** The message goes back as the pieces exactly if they are in normal form, and without
      the signatures of texts and calls if they are but for those. */
  ghost predicate GoesBackAs(m: Message, pieces: seq<ContentPiece>) {
    && (AssistantParts(m.content) == pieces <==> Normal(pieces))
    && (Normal(Bare(pieces)) ==> AssistantParts(m.content) == Bare(pieces))
  }

  /** The message goes back as what the stream opened at moment `q` carried, read as any
      pieces the stream can be read as. */
  ghost predicate GoesBack(w: World, log: Log, q: nat, m: Message) {
    && q < |log| && log[q].Ask?
    && exists events ::
         && Opened(w, log[q], q, events)
         && (exists pieces :: Carries(events, pieces))
         && forall pieces :: Carries(events, pieces) ==> GoesBackAs(m, pieces)
  }

  lemma SaidGoesBack(w: World, log: Log, q: nat, m: Message)
    requires Served(w) && SaidBy(w, log, q, m)
    ensures GoesBack(w, log, q, m)
    ensures PauseResume.DistinctIDs(CallsOf(m.content))
  {
    var events :| Opened(w, log[q], q, events) && NoErrors(events)
               && m == Message(RoleAssistant, Accumulate.Content(TakeAll(EMPTY_ACC, events)));
    assert exists pieces :: Carries(events, pieces);
    forall pieces | Carries(events, pieces)
      ensures GoesBackAs(m, pieces)
    {
      var chunks, cuts :| Pumped(events, chunks, pieces, cuts);
      SignedThoughtsSurvive(pieces, cuts, chunks);
      if Normal(Bare(pieces)) {
        OnlyThoughtsKeepTheirs(pieces, cuts, chunks);
      }
    }
    StreamCallsDistinct(events);
    TakenCalls(events);
    TakeAllSound(EMPTY_ACC, events);
  }

  lemma TakenCalls(events: seq<Event>)
    ensures TakeAll(EMPTY_ACC, events).toolCalls == PauseResume.CallsDone(events)
  {
    Reports.TakenIsSaid(events);
  }

  lemma StreamCallsDistinct(events: seq<Event>)
    requires exists pieces :: Carries(events, pieces)
    ensures PauseResume.DistinctIDs(PauseResume.CallsDone(events))
  {
    var pieces :| Carries(events, pieces);
    var chunks, cuts :| Pumped(events, chunks, pieces, cuts);
    StreamIDsDistinct(chunks);
  }

  // ---- the ids of one stream's calls ----

  /** The calls so far are numbered in order. */
  ghost predicate Numbered(st: PumpState) {
    var calls := PauseResume.CallsDone(st.out);
    |calls| == st.callIdx && forall k :: 0 <= k < |calls| ==> calls[k].id == CallID(k)
  }

  lemma PartNumbered(st: PumpState, p: WirePart)
    requires Numbered(st)
    ensures Numbered(PartStep(st, p))
  {
    PauseResume.CallsDoneMore(st.out, ReasoningDone(st.thoughtSig));
    if p.call.Some? {
      var out := CloseThought(st).out;
      var call := ToolCall(CallID(st.callIdx), p.call.value.name, NonEmpty(p.call.value.args));
      var start := ToolCallStart(ToolCall(call.id, call.name, ""));
      PauseResume.CallsDoneMore(out, start);
      PauseResume.CallsDoneMore(out + [start], ToolCallDelta(call));
      PauseResume.CallsDoneMore(out + [start] + [ToolCallDelta(call)], ToolCallDone(call));
    } else if p.thought {
      PauseResume.CallsDoneMore(st.out, ReasoningDelta(p.text));
    } else {
      PauseResume.CallsDoneMore(CloseThought(st).out, TextDelta(p.text));
    }
  }

  lemma {:induction false} PartsNumbered(st: PumpState, parts: seq<WirePart>)
    requires Numbered(st)
    ensures Numbered(PartSteps(st, parts))
    decreases |parts|
  {
    if parts != [] {
      PartNumbered(st, parts[0]);
      PartsNumbered(PartStep(st, parts[0]), parts[1..]);
    }
  }

  lemma {:induction false} ChunksNumbered(st: PumpState, chunks: seq<Chunk>)
    requires Numbered(st)
    ensures Numbered(PumpAll(st, chunks))
    decreases |chunks|
  {
    if chunks != [] && chunks[0].error.None? {
      PartsNumbered(Counted(st, chunks[0]), chunks[0].parts);
      ChunksNumbered(ChunkStep(st, chunks[0]), chunks[1..]);
    }
  }

  /** Whatever arrives and however it ends, no two calls of one stream have the same id. */
  lemma StreamIDsDistinct(chunks: seq<Chunk>)
    ensures PauseResume.DistinctIDs(PauseResume.CallsDone(PumpOutput(chunks)))
  {
    assert [MessageStart][1..] == [];
    assert Numbered(PUMP_START);
    ChunksNumbered(PUMP_START, chunks);
    var st := PumpAll(PUMP_START, chunks);
    var calls := PauseResume.CallsDone(PumpOutput(chunks));
    NoneAtTheEnd(chunks);
    forall i, j | 0 <= i < j < |calls|
      ensures calls[i].id != calls[j].id
    {
      NumbersDiffer(i, j);
    }
  }

  lemma NumbersDiffer(i: nat, j: nat)
    requires i != j
    ensures CallID(i) != CallID(j)
  {
    assert CallID(i)[5..] == Decimal(i) && CallID(j)[5..] == Decimal(j);
    if Decimal(i) == Decimal(j) {
      DecimalInjective(i, j);
    }
  }

  lemma NoneAtTheEnd(chunks: seq<Chunk>)
    ensures PauseResume.CallsDone(PumpOutput(chunks)) == PauseResume.CallsDone(PumpAll(PUMP_START, chunks).out)
  {
    var st, error := PumpAll(PUMP_START, chunks), FirstError(chunks);
    if error.Some? {
      PauseResume.CallsDoneMore(st.out, Failure(OtherError(error.value)));
    } else {
      PauseResume.CallsDoneMore(st.out, ReasoningDone(st.thoughtSig));
      NoneInClosing(CloseThought(st).out, st);
    }
  }

  lemma NoneInClosing(out: seq<Event>, st: PumpState)
    ensures PauseResume.CallsDone(out + Closing(st)) == PauseResume.CallsDone(out)
  {
    var usage, done := UsageEvent(st.usage), MessageDone(MapStopReason(st.finish, st.sawTool));
    if st.haveUsage {
      PauseResume.CallsDoneMore(out, usage);
      PauseResume.CallsDoneMore(out + [usage], done);
      assert out + Closing(st) == out + [usage] + [done];
    } else {
      PauseResume.CallsDoneMore(out, done);
      assert out + Closing(st) == out + [done];
    }
  }

  /** So a run over this wire meets what pausing asks of the ids of calls. */
  lemma ServedIDsDistinct(w: World)
    requires Served(w)
    ensures PauseResume.DistinctCallIDs(w)
  {
    forall n: nat, turn: nat, attempt: nat, request: seq<Message> | w.stream(n, turn, attempt, request).Streaming?
      ensures PauseResume.DistinctIDs(PauseResume.CallsDone(w.stream(n, turn, attempt, request).events))
    {
      var chunks :| w.stream(n, turn, attempt, request).events == PumpOutput(chunks);
      StreamIDsDistinct(chunks);
    }
  }

  // ---- runs ----

  /** The assistant messages of a conversation behind `input`, each with the moment
      its stream was opened. */
  ghost predicate AllGoBack(w: World, log: Log, input: seq<Message>, conversation: seq<Message>, qs: seq<nat>) {
    && Transcript(w, log, input, conversation, qs)
    && forall j :: 0 <= j < |qs| ==> GoesBack(w, log, qs[j], Assistants(conversation[|input|..])[j])
  }

  lemma TranscribedGoBack(w: World, log: Log, input: seq<Message>, conversation: seq<Message>) returns (qs: seq<nat>)
    requires Served(w) && Transcribed(w, log, input, conversation)
    ensures AllGoBack(w, log, input, conversation, qs)
    ensures forall j :: 0 <= j < |qs| ==>
            PauseResume.DistinctIDs(CallsOf(Assistants(conversation[|input|..])[j].content))
  {
    qs :| Transcript(w, log, input, conversation, qs);
    forall j | 0 <= j < |qs|
      ensures GoesBack(w, log, qs[j], Assistants(conversation[|input|..])[j])
      ensures PauseResume.DistinctIDs(CallsOf(Assistants(conversation[|input|..])[j].content))
    {
      SaidGoesBack(w, log, qs[j], Assistants(conversation[|input|..])[j]);
    }
  }

  /** Without compaction, in every conversation a run asks about (what it sends, unless a
      request hook rewrites it) each assistant message behind the input goes back as the
      pieces of the stream it came from, its signed thoughts included, exactly if those
      are in normal form. */
  lemma RunSendsBack(c: Config, w: World, input: seq<Message>, k: nat) returns (qs: seq<nat>)
    requires w.compactor.None? && Served(w)
    requires k < |Run(c, w, input).log| && Run(c, w, input).log[k].Ask?
    ensures var log := Run(c, w, input).log; AllGoBack(w, log[..k], input, log[k].conversation, qs)
  {
    RunTranscribed(c, w, input);
    var log := Run(c, w, input).log;
    qs := TranscribedGoBack(w, log[..k], input, log[k].conversation);
  }

  /** The same of a resumed run. */
  lemma ResumeSendsBack(c: Config, w: World, cp: Checkpoint, decisions: map<string, Approval>, k: nat)
      returns (qs: seq<nat>)
    requires w.compactor.None? && Served(w)
    requires k < |Resume(c, w, cp, decisions).log| && Resume(c, w, cp, decisions).log[k].Ask?
    ensures var log := Resume(c, w, cp, decisions).log; AllGoBack(w, log[..k], cp.messages, log[k].conversation, qs)
  {
    ResumeTranscribed(c, w, cp, decisions);
    var log := Resume(c, w, cp, decisions).log;
    qs := TranscribedGoBack(w, log[..k], cp.messages, log[k].conversation);
  }

  lemma {:induction false} AmongAssistants(msgs: seq<Message>, i: nat)
    requires i < |msgs| && msgs[i].role.RoleAssistant?
    ensures msgs[i] in Assistants(msgs)
    decreases |msgs|
  {
    if i < |msgs| - 1 {
      AmongAssistants(msgs[..|msgs| - 1], i);
    }
  }

  /** The `call`-th call of message `i` is answered in its place, and the answer is sent
      under that call's name. */
  ghost predicate NamedRight(msgs: seq<Message>, i: nat, call: nat)
    requires i < |msgs| && call < |Pairing.Uses(msgs[i])|
  {
    var use, at := Pairing.Uses(msgs[i])[call], i + 1 + call;
    && at < |msgs| && Pairing.IsAnswer(msgs[at], use.id)
    && (use.name != "" ==>
          MessageParts(NamesBefore(msgs, at), msgs[at]) == [Response(use.name, msgs[at].content[0].result.content)])
  }

  lemma NamesOfServed(w: World, log: Log, input: seq<Message>, msgs: seq<Message>, i: nat, call: nat)
    requires Served(w) && Transcribed(w, log, input, msgs) && Pairing.Paired(msgs)
    requires |input| <= i < |msgs| && call < |Pairing.Uses(msgs[i])|
    ensures NamedRight(msgs, i, call)
  {
    var qs := TranscribedGoBack(w, log, input, msgs);
    var behind := msgs[|input|..];
    assert behind[i - |input|] == msgs[i];
    AmongAssistants(behind, i - |input|);
    var j :| 0 <= j < |Assistants(behind)| && Assistants(behind)[j] == msgs[i];
    NamesOfDistinct(msgs, i, call);
  }

  lemma NamesOfDistinct(msgs: seq<Message>, i: nat, call: nat)
    requires Pairing.Paired(msgs) && i < |msgs| && call < |Pairing.Uses(msgs[i])|
    requires PauseResume.DistinctIDs(Pairing.Uses(msgs[i]))
    ensures NamedRight(msgs, i, call)
  {
    AnswersFollow(msgs, i, call);
    if Pairing.Uses(msgs[i])[call].name != "" {
      ResultsFindTheirCall(msgs, i, call);
    }
  }

  /** And every tool result behind the input is sent under the name of the very call it
      answers, though the streams of a run number their calls alike. */
  lemma RunNamesResults(c: Config, w: World, input: seq<Message>, k: nat, i: nat, call: nat)
    requires w.compactor.None? && Served(w) && KeepsCallIDs(w.toolbox) && Pairing.WellKept(input)
    requires k < |Run(c, w, input).log| && Run(c, w, input).log[k].Ask?
    requires var msgs := Run(c, w, input).log[k].conversation;
             |input| <= i < |msgs| && call < |Pairing.Uses(msgs[i])|
    ensures NamedRight(Run(c, w, input).log[k].conversation, i, call)
  {
    Pairing.RunKeepsPairing(c, w, input);
    RunTranscribed(c, w, input);
    var log := Run(c, w, input).log;
    NamesOfServed(w, log[..k], input, log[k].conversation, i, call);
  }

  /** The same of a resumed run, the answers to the checkpoint's own calls included if
      their ids differ, as those of one stream do. */
  lemma ResumeNamesResults(c: Config, w: World, cp: Checkpoint, decisions: map<string, Approval>, k: nat, i: nat,
                           call: nat)
    requires w.compactor.None? && Served(w) && KeepsCallIDs(w.toolbox)
    requires Pairing.Resumable(cp) && PauseResume.DistinctIDs(cp.calls)
    requires k < |Resume(c, w, cp, decisions).log| && Resume(c, w, cp, decisions).log[k].Ask?
    requires var msgs := Resume(c, w, cp, decisions).log[k].conversation;
             |cp.messages| - 1 <= i < |msgs| && call < |Pairing.Uses(msgs[i])|
    ensures NamedRight(Resume(c, w, cp, decisions).log[k].conversation, i, call)
  {
    Pairing.ResumeKeepsPairing(c, w, cp, decisions);
    ResumeTranscribed(c, w, cp, decisions);
    var log := Resume(c, w, cp, decisions).log;
    NamesOfResumed(w, log[..k], cp, log[k].conversation, i, call);
  }

  lemma NamesOfResumed(w: World, log: Log, cp: Checkpoint, msgs: seq<Message>, i: nat, call: nat)
    requires Served(w) && Transcribed(w, log, cp.messages, msgs) && Pairing.Paired(msgs)
    requires Pairing.Resumable(cp) && PauseResume.DistinctIDs(cp.calls)
    requires |cp.messages| - 1 <= i < |msgs| && call < |Pairing.Uses(msgs[i])|
    ensures NamedRight(msgs, i, call)
  {
    if i >= |cp.messages| {
      NamesOfServed(w, log, cp.messages, msgs, i, call);
    } else {
      assert cp.messages <= msgs && msgs[i] == cp.messages[i];
      assert Pairing.Uses(msgs[i]) == cp.calls;
      NamesOfDistinct(msgs, i, call);
    }
  }
}

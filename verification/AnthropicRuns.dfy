/** What a run over the Messages wire format sends back: the blocks of earlier streams. */
module AnthropicRuns {
  import opened Gage
  import opened Accumulate
  import opened RunLog
  import opened AgentLoop
  import opened LogFacts
  import opened Transcripts
  import opened Anthropic
  import opened AnthropicReplay

  /** The pump's events for a wire stream that carries the blocks, cut up and framed in
      any way. */
  ghost predicate Pumped(events: seq<Event>, es: seq<WireEvent>, blocks: seq<Block>, cuts: seq<Cut>) {
    events == PumpOutput(es) && AllCuts(blocks, cuts) && Unframed(es) == MessageEvents(blocks, cuts)
  }

  ghost predicate Carries(events: seq<Event>, blocks: seq<Block>) {
    exists es, cuts :: Pumped(events, es, blocks, cuts)
  }

  /** Every stream the provider opens, unless it fails, carries some blocks. */
  ghost predicate Served(w: World) {
    forall n: nat, turn: nat, attempt: nat, request: seq<Message> ::
      var r := w.stream(n, turn, attempt, request);
      r.Streaming? && NoErrors(r.events) ==> exists blocks :: Carries(r.events, blocks)
  }

  /** The blocks an assistant message is sent as. */
  function Encoded(m: Message): seq<Block> {
    ReasoningBlocks(m.content) + OtherBlocks(m.content)
  }

  /** The message goes back as the blocks, exactly if they are clean with reasoning first,
      and as their stable partition if they are clean. */
  ghost predicate GoesBackAs(m: Message, blocks: seq<Block>) {
    && (Encoded(m) == blocks <==> Clean(blocks) && ReasoningFirst(blocks))
    && (Clean(blocks) ==> Encoded(m) == Only(blocks, true) + Only(blocks, false))
  }

  /** The message goes back as what the stream opened at moment `q` carried, read as any
      blocks the stream can be read as. */
  ghost predicate GoesBack(w: World, log: Log, q: nat, m: Message) {
    && q < |log| && log[q].Ask?
    && exists events ::
         && Opened(w, log[q], q, events)
         && (exists blocks :: Carries(events, blocks))
         && forall blocks :: Carries(events, blocks) ==> GoesBackAs(m, blocks)
  }

  lemma SaidGoesBack(w: World, log: Log, q: nat, m: Message)
    requires Served(w) && SaidBy(w, log, q, m)
    ensures GoesBack(w, log, q, m)
  {
    var events :| Opened(w, log[q], q, events) && NoErrors(events)
               && m == Message(RoleAssistant, Accumulate.Content(TakeAll(EMPTY_ACC, events)));
    assert exists blocks :: Carries(events, blocks);
    forall blocks | Carries(events, blocks)
      ensures GoesBackAs(m, blocks)
    {
      var es, cuts :| Pumped(events, es, blocks, cuts);
      SignedReasoningSurvives(blocks, cuts, es);
    }
  }

  /** The assistant messages of a conversation behind `input`, each with the moment
      its stream was opened. */
  ghost predicate AllGoBack(w: World, log: Log, input: seq<Message>, conversation: seq<Message>, qs: seq<nat>) {
    && Transcript(w, log, input, conversation, qs)
    && forall j :: 0 <= j < |qs| ==> GoesBack(w, log, qs[j], Assistants(conversation[|input|..])[j])
  }

  lemma TranscribedGoBack(w: World, log: Log, input: seq<Message>, conversation: seq<Message>) returns (qs: seq<nat>)
    requires Served(w) && Transcribed(w, log, input, conversation)
    ensures AllGoBack(w, log, input, conversation, qs)
  {
    qs :| Transcript(w, log, input, conversation, qs);
    forall j | 0 <= j < |qs|
      ensures GoesBack(w, log, qs[j], Assistants(conversation[|input|..])[j])
    {
      SaidGoesBack(w, log, qs[j], Assistants(conversation[|input|..])[j]);
    }
  }

  /** Without compaction, in every conversation a run asks about (what it sends, unless a
      request hook rewrites it) each assistant message behind the input goes back as the
      blocks of the stream it came from, signatures and redacted payloads included,
      exactly if those are clean with reasoning first. */
  lemma RunSendsBack(c: Config, w: World, input: seq<Message>, k: nat) returns (qs: seq<nat>)
    requires w.compactor.None? && Served(w)
    requires k < |Run(c, w, input).log| && Run(c, w, input).log[k].Ask?
    ensures var log := Run(c, w, input).log; AllGoBack(w, log[..k], input, log[k].conversation, qs)
  {
    RunTranscribed(c, w, input);
    var log := Run(c, w, input).log;
    qs := TranscribedGoBack(w, log[..k], input, log[k].conversation);
  }

  /** The same of a resumed run. */
  lemma ResumeSendsBack(c: Config, w: World, cp: Checkpoint, decisions: map<string, Approval>, k: nat)
      returns (qs: seq<nat>)
    requires w.compactor.None? && Served(w)
    requires k < |Resume(c, w, cp, decisions).log| && Resume(c, w, cp, decisions).log[k].Ask?
    ensures var log := Resume(c, w, cp, decisions).log; AllGoBack(w, log[..k], cp.messages, log[k].conversation, qs)
  {
    ResumeTranscribed(c, w, cp, decisions);
    var log := Resume(c, w, cp, decisions).log;
    qs := TranscribedGoBack(w, log[..k], cp.messages, log[k].conversation);
  }
}

/** Where the assistant messages of a run come from: each is what the accumulator makes of
    one whole stream, asked for earlier, and they stand in the order of the asking. */
module Transcripts {
  import opened Gage
  import opened Accumulate
  import opened ToolCalls
  import opened RunLog
  import opened AgentLoop
  import opened LogFacts

  function Assistants(msgs: seq<Message>): seq<Message> {
    if msgs == [] then []
    else
      var last := msgs[|msgs| - 1];
      Assistants(msgs[..|msgs| - 1]) + if last.role.RoleAssistant? then [last] else []
  }

  predicate NoErrors(events: seq<Event>) {
    forall k :: 0 <= k < |events| ==> !events[k].ErrorEvent?
  }

  /** A stream that is taken was taken whole. */
  lemma {:induction false} ConsumeTakesAll(w: World, turn: nat, events: seq<Event>, acc: Acc, log: Log)
    ensures var r := Consume(w, turn, events, acc, log);
            r.Complete? ==> r.acc == TakeAll(acc, events) && NoErrors(events)
    decreases |events|
  {
    if events != [] && !events[0].ErrorEvent? && w.delivers(|log|) {
      ConsumeTakesAll(w, turn, events[1..], Take(acc, events[0]), Send(w, turn, events[0], log));
      var r := Consume(w, turn, events, acc, log);
      if r.Complete? {
        forall k | 0 <= k < |events|
          ensures !events[k].ErrorEvent?
        {
          assert k > 0 ==> events[k] == events[1..][k - 1];
        }
      }
    }
  }

  /** The message is what the stream opened at moment `q` says. */
  ghost predicate SaidBy(w: World, log: Log, q: nat, m: Message) {
    && q < |log| && log[q].Ask?
    && exists events :: Opened(w, log[q], q, events) && NoErrors(events)
                     && m == Message(RoleAssistant, Content(TakeAll(EMPTY_ACC, events)))
  }

  /** The assistant messages of a conversation behind `input` are what the streams
      opened at the moments `qs` say. */
  ghost predicate Transcript(w: World, log: Log, input: seq<Message>, conversation: seq<Message>, qs: seq<nat>) {
    && input <= conversation
    && |Assistants(conversation[|input|..])| == |qs|
    && (forall i, j :: 0 <= i < j < |qs| ==> qs[i] < qs[j])
    && (forall j :: 0 <= j < |qs| ==> SaidBy(w, log, qs[j], Assistants(conversation[|input|..])[j]))
  }

  ghost predicate Transcribed(w: World, log: Log, input: seq<Message>, conversation: seq<Message>) {
    exists qs :: Transcript(w, log, input, conversation, qs)
  }

  /** So it is of every conversation the provider was asked about. */
  ghost predicate AsksTranscribed(w: World, log: Log, input: seq<Message>) {
    forall k: nat :: k < |log| && log[k].Ask? ==> Transcribed(w, log[..k], input, log[k].conversation)
  }

  ghost predicate StateTranscribed(w: World, st: State, input: seq<Message>) {
    Transcribed(w, st.log, input, st.conversation) && AsksTranscribed(w, st.log, input)
  }

  ghost predicate PhaseTranscribed(w: World, p: Phase, input: seq<Message>) {
    match p
    case Ready(st) => StateTranscribed(w, st, input)
    case Over(out) => OutTranscribed(w, out, input)
  }

  /** Of a run that is over: of its asks, and of what it hands out. */
  ghost predicate OutTranscribed(w: World, out: RunOut, input: seq<Message>) {
    && AsksTranscribed(w, out.log, input)
    && match out.end
       case Finished(result) => Transcribed(w, out.log, input, result.messages)
       case Suspended(cp) => Transcribed(w, out.log, input, cp.messages)
       case _ => true
  }

  // ---- growing logs and conversations ----

  lemma StillTranscribed(w: World, log: Log, later: Log, input: seq<Message>, conversation: seq<Message>)
    requires Transcribed(w, log, input, conversation) && log <= later
    ensures Transcribed(w, later, input, conversation)
  {
    var qs :| Transcript(w, log, input, conversation, qs);
    forall j | 0 <= j < |qs|
      ensures SaidBy(w, later, qs[j], Assistants(conversation[|input|..])[j])
    {
      assert SaidBy(w, log, qs[j], Assistants(conversation[|input|..])[j]);
      assert later[qs[j]] == log[qs[j]];
    }
    assert Transcript(w, later, input, conversation, qs);
  }

  /** More asks, all about a conversation that is transcribed. */
  lemma AsksMore(w: World, log: Log, later: Log, input: seq<Message>, conversation: seq<Message>)
    requires AsksTranscribed(w, log, input) && log <= later
    requires Transcribed(w, log, input, conversation)
    requires forall k: nat :: |log| <= k < |later| && later[k].Ask? ==> later[k].conversation == conversation
    ensures AsksTranscribed(w, later, input)
  {
    forall k: nat | k < |later| && later[k].Ask?
      ensures Transcribed(w, later[..k], input, later[k].conversation)
    {
      if k < |log| {
        assert later[k] == log[k] && later[..k] == log[..k];
      } else {
        StillTranscribed(w, log, later[..k], input, conversation);
      }
    }
  }

  lemma AssistantsMore(conversation: seq<Message>, input: seq<Message>, m: Message)
    requires input <= conversation
    ensures Assistants((conversation + [m])[|input|..])
            == Assistants(conversation[|input|..]) + if m.role.RoleAssistant? then [m] else []
  {
    var more := (conversation + [m])[|input|..];
    assert more == conversation[|input|..] + [m] && more[..|more| - 1] == conversation[|input|..];
  }

  /** One more assistant message. */
  lemma OneMoreSaid(w: World, log: Log, later: Log, input: seq<Message>, conversation: seq<Message>, q: nat, m: Message)
    requires Transcribed(w, log, input, conversation) && log <= later
    requires |log| <= q && SaidBy(w, later, q, m)
    ensures Transcribed(w, later, input, conversation + [m])
  {
    StillTranscribed(w, log, later, input, conversation);
    var qs :| Transcript(w, log, input, conversation, qs);
    var before := Assistants(conversation[|input|..]);
    AssistantsMore(conversation, input, m);
    forall j | 0 <= j < |qs|
      ensures qs[j] < q && SaidBy(w, later, qs[j], before[j])
    {
      assert SaidBy(w, log, qs[j], before[j]);
      assert later[qs[j]] == log[qs[j]];
    }
    assert Transcript(w, later, input, conversation + [m], qs + [q]);
  }

  lemma {:induction false} ResultsSayNothing(w: World, log: Log, input: seq<Message>, conversation: seq<Message>,
                                             results: seq<ToolResult>)
    requires Transcribed(w, log, input, conversation)
    ensures Transcribed(w, log, input, conversation + ToolResultMessages(results))
    decreases |results|
  {
    if results == [] {
      assert conversation + ToolResultMessages(results) == conversation;
    } else {
      var front, last := results[..|results| - 1], results[|results| - 1];
      ResultsSayNothing(w, log, input, conversation, front);
      var before := conversation + ToolResultMessages(front);
      assert conversation + ToolResultMessages(results) == before + [ToolResultMessage(last)];
      AssistantsMore(before, input, ToolResultMessage(last));
      var qs :| Transcript(w, log, input, before, qs);
      assert Transcript(w, log, input, before + [ToolResultMessage(last)], qs);
    }
  }

  // ---- turns ----

  /** A stream that is taken was opened by one of the turn's asks. */
  lemma {:induction false} StreamTurnSays(c: Config, w: World, turn: nat, attempt: nat, conversation: seq<Message>,
                                         request: seq<Message>, log: Log) returns (q: nat)
    requires IsRequest(w, turn, conversation, request)
    ensures var r := StreamTurn(c, w, turn, attempt, conversation, request, log);
            r.Took? ==> |log| <= q && SaidBy(w, r.log, q, Message(RoleAssistant, Content(r.acc)))
    decreases c.Retries() - attempt, 1
  {
    q := |log|;
    var asked := log + [Ask(turn, attempt, conversation, request)];
    match w.stream(|log|, turn, attempt, request)
    case Refused(err) =>
      q := RetrySays(c, w, turn, attempt, conversation, request, err, ErrorEvent(Some(err), ""), asked);
    case Streaming(events) =>
      ConsumeRelays(w, turn, events, EMPTY_ACC, asked);
      ConsumeTakesAll(w, turn, events, EMPTY_ACC, asked);
      match Consume(w, turn, events, EMPTY_ACC, asked)
      case Complete(acc, log') =>
        assert log'[|log|] == asked[|log|];
        assert Opened(w, log'[|log|], |log|, events);
      case Broken(_) =>
      case StreamError(ev, log') =>
        q := RetrySays(c, w, turn, attempt, conversation, request, ErrorOf(ev), ev, log');
  }

  lemma {:induction false} RetrySays(c: Config, w: World, turn: nat, attempt: nat, conversation: seq<Message>,
                                    request: seq<Message>, err: Err, last: Event, log: Log) returns (q: nat)
    requires IsRequest(w, turn, conversation, request)
    ensures var r := Retry(c, w, turn, attempt, conversation, request, err, last, log);
            r.Took? ==> |log| <= q && SaidBy(w, r.log, q, Message(RoleAssistant, Content(r.acc)))
    decreases c.Retries() - attempt, 0
  {
    q := |log|;
    if attempt < c.Retries() && Retryable(err) && w.ctxErr(|log|).None? {
      q := StreamTurnSays(c, w, turn, attempt + 1, conversation, request, log);
    }
  }

  lemma CallsTranscribed(c: Config, w: World, turn: nat, calls: seq<ToolCall>, forced: seq<Option<ToolResult>>,
                         log: Log, input: seq<Message>, conversation: seq<Message>)
    requires |forced| == |calls|
    requires Transcribed(w, log, input, conversation) && AsksTranscribed(w, log, input)
    ensures var log' := RunBatch(c, w, turn, calls, forced, log).log;
            Transcribed(w, log', input, conversation) && AsksTranscribed(w, log', input)
  {
    BatchWorks(c, w, turn, calls, forced, log);
    var log' := RunBatch(c, w, turn, calls, forced, log).log;
    StillTranscribed(w, log, log', input, conversation);
    AsksMore(w, log, log', input, conversation);
  }

  /** Steps that ask nothing. */
  lemma QuietlyTranscribed(w: World, log: Log, later: Log, input: seq<Message>, conversation: seq<Message>)
    requires Transcribed(w, log, input, conversation) && AsksTranscribed(w, log, input) && log <= later
    requires forall k: nat :: |log| <= k < |later| ==> !later[k].Ask?
    ensures Transcribed(w, later, input, conversation) && AsksTranscribed(w, later, input)
  {
    StillTranscribed(w, log, later, input, conversation);
    AsksMore(w, log, later, input, conversation);
  }

  lemma RunToolsTranscribed(c: Config, w: World, st: State, turn: nat, acc: Acc, input: seq<Message>)
    requires w.compactor.None? && StateTranscribed(w, st, input)
    ensures PhaseTranscribed(w, RunTools(c, w, st, turn, acc), input)
  {
    var p := RunTools(c, w, st, turn, acc);
    var calls, issued := acc.toolCalls, st.log + [Issued(turn, acc.toolCalls)];
    QuietlyTranscribed(w, st.log, issued, input, st.conversation);
    var g := RunGuard(c, st, calls);
    if OverBudget(c, st.usage) {
      QuietlyTranscribed(w, st.log, p.out.log, input, st.conversation);
    } else if g.Tripped? {
      QuietlyTranscribed(w, issued, p.out.log, input, st.conversation);
    } else {
      CallsTranscribed(c, w, turn, calls, g.forced, issued, input, st.conversation);
      var r := RunBatch(c, w, turn, calls, g.forced, issued);
      if r.BatchDone? && r.pending == [] {
        ResultsSayNothing(w, r.log, input, st.conversation, r.results);
      } else {
        QuietlyTranscribed(w, r.log, p.out.log, input, st.conversation);
      }
    }
  }

  /** Absorbing a stream. */
  lemma AbsorbTranscribed(w: World, st: State, turn: nat, acc: Acc, log: Log, input: seq<Message>, q: nat)
    requires StateTranscribed(w, st, input) && st.log <= log
    requires AsksTranscribed(w, log, input)
    requires |st.log| <= q && SaidBy(w, log, q, Message(RoleAssistant, Content(acc)))
    ensures StateTranscribed(w, Absorb(st, turn, acc, log), input)
  {
    var st' := Absorb(st, turn, acc, log);
    if Content(acc) == [] {
      StillTranscribed(w, st.log, log, input, st.conversation);
    } else {
      OneMoreSaid(w, st.log, log, input, st.conversation, q, Message(RoleAssistant, Content(acc)));
    }
    QuietlyTranscribed(w, log, st'.log, input, st'.conversation);
  }

  lemma AskAndActTranscribed(c: Config, w: World, st: State, turn: nat, request: seq<Message>, input: seq<Message>)
    requires w.compactor.None? && StateTranscribed(w, st, input) && IsRequest(w, turn, st.conversation, request)
    ensures PhaseTranscribed(w, AskAndAct(c, w, st, turn, request), input)
  {
    StreamTurnAsks(c, w, turn, 0, st.conversation, request, st.log);
    var q := StreamTurnSays(c, w, turn, 0, st.conversation, request, st.log);
    var r := StreamTurn(c, w, turn, 0, st.conversation, request, st.log);
    AsksMore(w, st.log, TurnReplyLog(r), input, st.conversation);
    if r.NotTaken? {
      StreamTurnHandsOutNothing(c, w, turn, 0, st.conversation, request, st.log);
    } else {
      AbsorbTranscribed(w, st, turn, r.acc, r.log, input, q);
      var st' := Absorb(st, turn, r.acc, r.log);
      if r.acc.toolCalls == [] {
        QuietlyTranscribed(w, st'.log, AskAndAct(c, w, st, turn, request).out.log, input, st'.conversation);
      } else {
        RunToolsTranscribed(c, w, st', turn, r.acc, input);
      }
    }
  }

  lemma {:induction false} StreamTurnHandsOutNothing(c: Config, w: World, turn: nat, attempt: nat,
                                                     conversation: seq<Message>, request: seq<Message>, log: Log)
    ensures var r := StreamTurn(c, w, turn, attempt, conversation, request, log);
            r.NotTaken? ==> r.out.end.Failed? || r.out.end.Abandoned?
    decreases c.Retries() - attempt
  {
    if attempt < c.Retries() {
      var asked := log + [Ask(turn, attempt, conversation, request)];
      match w.stream(|log|, turn, attempt, request)
      case Refused(_) => StreamTurnHandsOutNothing(c, w, turn, attempt + 1, conversation, request, asked);
      case Streaming(events) =>
        StreamTurnHandsOutNothing(c, w, turn, attempt + 1, conversation, request,
                                  Consume(w, turn, events, EMPTY_ACC, asked).log);
    }
  }

  lemma TurnTranscribed(c: Config, w: World, st: State, turn: nat, input: seq<Message>)
    requires w.compactor.None? && StateTranscribed(w, st, input)
    ensures PhaseTranscribed(w, Turn(c, w, st, turn), input)
  {
    match Prepare(w, st, turn)
    case Fail(err) => QuietlyTranscribed(w, st.log, Turn(c, w, st, turn).out.log, input, st.conversation);
    case Ok(request) => AskAndActTranscribed(c, w, st, turn, request, input);
  }

  lemma {:induction false} TurnsTranscribed(c: Config, w: World, st: State, turn: nat, input: seq<Message>)
    requires w.compactor.None? && StateTranscribed(w, st, input)
    ensures OutTranscribed(w, Turns(c, w, st, turn), input)
    decreases c.MaxTurns() - turn
  {
    if turn >= c.MaxTurns() {
      QuietlyTranscribed(w, st.log, Turns(c, w, st, turn).log, input, st.conversation);
    } else {
      TurnTranscribed(c, w, st, turn, input);
      match Turn(c, w, st, turn)
      case Over(_) =>
      case Ready(st') => TurnsTranscribed(c, w, st', turn + 1, input);
    }
  }

  /** Without compaction, in every conversation a run asks about, hands out or ends with,
      each assistant message behind the input is what one earlier stream said, all of
      it, in the order the streams were opened. */
  lemma RunTranscribed(c: Config, w: World, input: seq<Message>)
    requires w.compactor.None?
    ensures OutTranscribed(w, Run(c, w, input), input)
  {
    var st := State(input, ZERO_USAGE, "", "", "", 0, []);
    assert input[|input|..] == [];
    assert Transcript(w, [], input, input, []);
    TurnsTranscribed(c, w, st, 0, input);
  }

  /** The same of a resumed run, behind the checkpoint's messages. */
  lemma ResumeTranscribed(c: Config, w: World, cp: Checkpoint, decisions: map<string, Approval>)
    requires w.compactor.None?
    ensures OutTranscribed(w, Resume(c, w, cp, decisions), cp.messages)
  {
    var input := cp.messages;
    assert cp.messages[|input|..] == [];
    assert Transcript(w, [], input, cp.messages, []);
    DecideCallsWorks(w, cp.turn, cp.calls, decisions, 0, ByID(cp.results), false, []);
    var r := DecideCalls(w, cp.turn, cp.calls, decisions, 0, ByID(cp.results), false, []);
    QuietlyTranscribed(w, [], r.log, input, cp.messages);
    ProceedTranscribed(c, w, cp, r, input);
  }

  lemma ProceedTranscribed(c: Config, w: World, cp: Checkpoint, r: ResumeReply, input: seq<Message>)
    requires w.compactor.None?
    requires Transcribed(w, r.log, input, cp.messages) && AsksTranscribed(w, r.log, input)
    ensures OutTranscribed(w, Proceed(c, w, cp, r), input)
  {
    if r.Resumed? && !r.stillPending {
      var results := InCallOrder(cp.calls, r.byID);
      ResultsSayNothing(w, r.log, input, cp.messages, results);
      TurnsTranscribed(c, w, ResumedState(cp, results, r.log), cp.turn + 1, input);
    } else {
      QuietlyTranscribed(w, r.log, Proceed(c, w, cp, r).log, input, cp.messages);
    }
  }
}

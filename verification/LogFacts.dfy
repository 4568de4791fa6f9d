/** What each part of a run may add to its log. */
module LogFacts {
  import opened Gage
  import opened Accumulate
  import opened ToolCalls
  import opened RunLog
  import opened AgentLoop
  import opened Batches

  /** `after` is `before` with more deliveries. */
  ghost predicate Relayed(before: Log, after: Log) {
    before <= after && forall k :: |before| <= k < |after| ==> IsDelivery(after[k])
  }

  /** `after` is `before` with more deliveries and asks of this turn, all about the
      same conversation. */
  ghost predicate Asked(before: Log, after: Log, turn: nat, conversation: seq<Message>) {
    before <= after && forall k :: |before| <= k < |after| ==>
      IsDelivery(after[k]) || (after[k].Ask? && after[k].turn == turn && after[k].conversation == conversation)
  }

  /** `after` is `before` with more deliveries and tool steps on calls of the batch. */
  ghost predicate Worked(before: Log, after: Log, turn: nat, calls: seq<ToolCall>) {
    before <= after && forall k :: |before| <= k < |after| ==>
      IsDelivery(after[k]) ||
      (after[k].ToolStep? && after[k].turn == turn && after[k].index < |calls|
       && after[k].call == calls[after[k].index])
  }

  // ---- what was asked ----

  /** What is sent for a conversation: the conversation, as the request hook leaves it. */
  ghost predicate IsRequest(w: World, turn: nat, conversation: seq<Message>, request: seq<Message>) {
    if w.prepareRequest.None? then request == conversation
    else exists n: nat :: w.prepareRequest.value(n, turn, conversation) == Ok(request)
  }

  /** `events` is the stream that was opened at moment `q`. */
  ghost predicate Opened(w: World, ask: Step, q: nat, events: seq<Event>)
    requires ask.Ask?
  {
    && IsRequest(w, ask.turn, ask.conversation, ask.request)
    && w.stream(q, ask.turn, ask.attempt, ask.request) == Streaming(events)
  }

  // ---- what is added ----

  lemma {:induction false} ConsumeRelays(w: World, turn: nat, events: seq<Event>, acc: Acc, log: Log)
    ensures Relayed(log, Consume(w, turn, events, acc, log).log)
    decreases |events|
  {
    if events != [] && !events[0].ErrorEvent? && w.delivers(|log|) {
      ConsumeRelays(w, turn, events[1..], Take(acc, events[0]), Send(w, turn, events[0], log));
    }
  }

  function TurnReplyLog(r: TurnReply): Log {
    if r.Took? then r.log else r.out.log
  }

  lemma {:induction false} StreamTurnAsks(c: Config, w: World, turn: nat, attempt: nat, conversation: seq<Message>,
                                         request: seq<Message>, log: Log)
    ensures Asked(log, TurnReplyLog(StreamTurn(c, w, turn, attempt, conversation, request, log)), turn, conversation)
    decreases c.Retries() - attempt, 1
  {
    var asked := log + [Ask(turn, attempt, conversation, request)];
    match w.stream(|log|, turn, attempt, request)
    case Refused(err) =>
      RetryAsks(c, w, turn, attempt, conversation, request, err, ErrorEvent(Some(err), ""), asked);
    case Streaming(events) =>
      ConsumeRelays(w, turn, events, EMPTY_ACC, asked);
      match Consume(w, turn, events, EMPTY_ACC, asked)
      case StreamError(ev, log') =>
        RetryAsks(c, w, turn, attempt, conversation, request, ErrorOf(ev), ev, log');
      case _ =>
  }

  lemma {:induction false} RetryAsks(c: Config, w: World, turn: nat, attempt: nat, conversation: seq<Message>,
                                    request: seq<Message>, err: Err, last: Event, log: Log)
    ensures Asked(log, TurnReplyLog(Retry(c, w, turn, attempt, conversation, request, err, last, log)), turn,
                  conversation)
    decreases c.Retries() - attempt, 0
  {
    if attempt < c.Retries() && Retryable(err) && w.ctxErr(|log|).None? {
      StreamTurnAsks(c, w, turn, attempt + 1, conversation, request, log);
    }
  }

  lemma BatchWorks(c: Config, w: World, turn: nat, calls: seq<ToolCall>, forced: seq<Option<ToolResult>>, log: Log)
    requires |forced| == |calls|
    ensures Worked(log, RunBatch(c, w, turn, calls, forced, log).log, turn, calls)
  {
    var _ := BatchFacts(c, w, turn, calls, forced, log);
    var after := RunBatch(c, w, turn, calls, forced, log).log;
    forall k: nat | |log| <= k < |after|
      ensures IsDelivery(after[k]) ||
              (after[k].ToolStep? && after[k].turn == turn && after[k].index < |calls|
               && after[k].call == calls[after[k].index])
    {
      assert BatchStep(BatchOf(c, w, turn, calls, forced), after[k], k);
    }
  }

  lemma {:induction false} DecideCallsWorks(w: World, turn: nat, calls: seq<ToolCall>,
                                            decisions: map<string, Approval>, i: nat, byID: map<string, ToolResult>,
                                            stillPending: bool, log: Log)
    requires i <= |calls|
    ensures Worked(log, DecideCalls(w, turn, calls, decisions, i, byID, stillPending, log).log, turn, calls)
    decreases |calls| - i
  {
    if i < |calls| {
      var tc := calls[i];
      if tc.id in byID {
        DecideCallsWorks(w, turn, calls, decisions, i + 1, byID, stillPending, log);
      } else if tc.id !in decisions {
        DecideCallsWorks(w, turn, calls, decisions, i + 1, byID, true, log);
      } else if w.ctxErr(|log|).None? {
        var reply := ExecTool(w.toolbox, |log|, turn, tc, Some(decisions[tc.id]));
        var log1 := log + [ToolStep(turn, i, tc, HowOf(reply))];
        var log2 := Send(w, turn, ToolResultEvent(reply.result), log1);
        if w.delivers(|log1|) {
          DecideCallsWorks(w, turn, calls, decisions, i + 1, byID[tc.id := reply.result], stillPending, log2);
        }
      }
    }
  }

  /** What one turn leaves to those after it. */
  lemma NextPhase(c: Config, w: World, st: State, turn: nat) returns (next: Phase)
    requires turn < c.MaxTurns()
    ensures next == Turn(c, w, st, turn)
    ensures Turns(c, w, st, turn) == match next case Ready(st') => Turns(c, w, st', turn + 1) case Over(out) => out
  {
    next := Turn(c, w, st, turn);
  }

  /** The log only grows. */
  lemma {:induction false} TurnsExtend(c: Config, w: World, st: State, turn: nat)
    ensures st.log <= Turns(c, w, st, turn).log
    decreases c.MaxTurns() - turn
  {
    if turn < c.MaxTurns() {
      TurnExtends(c, w, st, turn);
      match Turn(c, w, st, turn)
      case Over(_) =>
      case Ready(st') => TurnsExtend(c, w, st', turn + 1);
    }
  }

  lemma TurnExtends(c: Config, w: World, st: State, turn: nat)
    ensures st.log <= match Turn(c, w, st, turn) case Over(out) => out.log case Ready(st') => st'.log
  {
    match Proactive(c, w, st, turn)
    case Over(_) =>
    case Ready(st1) =>
      match Prepare(w, st1, turn)
      case Fail(_) =>
      case Ok(request) =>
        StreamTurnAsks(c, w, turn, 0, st1.conversation, request, st1.log);
        match StreamTurn(c, w, turn, 0, st1.conversation, request, st1.log)
        case NotTaken(_) =>
        case Took(acc, log) => RunToolsExtends(c, w, Absorb(st1, turn, acc, log), turn, acc);
  }

  lemma RunToolsExtends(c: Config, w: World, st: State, turn: nat, acc: Acc)
    ensures st.log <= match RunTools(c, w, st, turn, acc) case Over(out) => out.log case Ready(st') => st'.log
  {
    var issued := st.log + [Issued(turn, acc.toolCalls)];
    var guarded := RunGuard(c, st, acc.toolCalls);
    if guarded.Passed? {
      BatchWorks(c, w, turn, acc.toolCalls, guarded.forced, issued);
    }
  }
}

/** The agent run (runLoop, streamTurn, consume, execTools and resumeToolBatch in
    agent/loop.go) as a function of the outside world.

    A run is recorded as a log of its interactions. Every reply of the world is a
    function of the moment (the length of the log) and of the arguments of the
    call, so the world may depend on the whole past in any way at all. */
module AgentLoop {
  import opened Gage
  import opened Accumulate
  import opened ToolCalls
  import opened RunLog
  import opened Goroutines

  datatype StreamReply = Refused(err: Err) | Streaming(events: seq<Event>)

  datatype CompactReply = Shrunk(messages: seq<Message>, used: Usage) | CompactFailed(err: Err)

  datatype World = World(
    stream: (nat, nat, nat, seq<Message>) -> StreamReply,
    prepareRequest: Option<(nat, nat, seq<Message>) -> Outcome<seq<Message>, Err>>,
    compactor: Option<(nat, seq<Message>, Usage) -> CompactReply>,
    estimate: (nat, seq<Message>) -> int,
    toolbox: Toolbox,
    scheduler: Pool -> nat,
    delivers: nat -> bool,
    ctxErr: nat -> Option<Err>)

  datatype Config = Config(
    maxTurnsSetting: int,
    tokenBudget: int,
    maxToolRepeats: int,
    maxStreamRetries: int,
    maxParallelTools: int,
    compactAfter: int)
  {
    function MaxTurns(): nat {
      if maxTurnsSetting > 0 then maxTurnsSetting else 16
    }

    /** Retries a turn may take. */
    function Retries(): nat {
      if maxStreamRetries > 0 then maxStreamRetries else 0
    }
  }

  datatype End =
    | Finished(result: RunResult)
    | Suspended(checkpoint: Checkpoint)
    | Failed(err: Err)
    | Abandoned  // the consumer is gone; nothing more is said

  datatype RunOut = RunOut(end: End, log: Log)

  /** The variables of the turn loop. */
  datatype State = State(
    conversation: seq<Message>,
    usage: Usage,
    lastText: string,
    lastStop: StopReason,
    repeatSig: string,
    repeatCount: nat,
    log: Log)

  // ---- delivery ----

  function Send(w: World, turn: nat, ev: Event, log: Log): Log {
    log + [if w.delivers(|log|) then Sent(turn, ev) else Lost(turn, ev)]
  }

  function FailWith(w: World, turn: nat, err: Err, log: Log): RunOut {
    RunOut(Failed(err), Send(w, turn, ErrorEvent(Some(err), ""), log))
  }

  function Pause(w: World, cp: Checkpoint, log: Log): RunOut {
    RunOut(Suspended(cp), Send(w, cp.turn, PausedEvent(cp), log))
  }

  /** A batch was cut short: report cancellation, if that is what happened. */
  function CutShort(w: World, turn: nat, log: Log): RunOut {
    var err := w.ctxErr(|log|);
    if err.Some? then FailWith(w, turn, err.value, log) else RunOut(Abandoned, log)
  }

  // ---- one provider stream ----

  datatype ConsumeReply =
    | Complete(acc: Acc, log: Log)
    | StreamError(event: Event, log: Log)
    | Broken(log: Log)

  function Consume(w: World, turn: nat, events: seq<Event>, acc: Acc, log: Log): (r: ConsumeReply)
    ensures r.StreamError? ==> r.event.ErrorEvent?
    decreases |events|
  {
    if events == [] then
      if w.ctxErr(|log|).Some? then Broken(log) else Complete(acc, log)
    else if events[0].ErrorEvent? then StreamError(events[0], log)
    else
      var sent := Send(w, turn, events[0], log);
      if w.delivers(|log|) then Consume(w, turn, events[1..], Take(acc, events[0]), sent)
      else Broken(sent)
  }

  predicate Retryable(err: Err) {
    !err.Is(CanceledError) && !err.Is(DeadlineError) && !err.Is(AuthError) && !err.Is(UnsupportedError)
  }

  function ErrorOf(ev: Event): Err
    requires ev.ErrorEvent?
  {
    if ev.err.Some? then ev.err.value else OtherError(ev.msg)
  }

  datatype TurnReply = Took(acc: Acc, log: Log) | NotTaken(out: RunOut)

  function StreamTurn(c: Config, w: World, turn: nat, attempt: nat, conversation: seq<Message>,
                      request: seq<Message>, log: Log): TurnReply
    decreases c.Retries() - attempt, 1
  {
    var asked := log + [Ask(turn, attempt, conversation, request)];
    match w.stream(|log|, turn, attempt, request)
    case Refused(err) =>
      Retry(c, w, turn, attempt, conversation, request, err, ErrorEvent(Some(err), ""), asked)
    case Streaming(events) =>
      match Consume(w, turn, events, EMPTY_ACC, asked)
      case Complete(acc, log') => Took(acc, log')
      case Broken(log') => NotTaken(CutShort(w, turn, log'))
      case StreamError(ev, log') => Retry(c, w, turn, attempt, conversation, request, ErrorOf(ev), ev, log')
  }

  /** Try again after `err`, or end the run on `last`. */
  function Retry(c: Config, w: World, turn: nat, attempt: nat, conversation: seq<Message>,
                 request: seq<Message>, err: Err, last: Event, log: Log): TurnReply
    decreases c.Retries() - attempt, 0
  {
    if attempt < c.Retries() && Retryable(err) then
      var interrupted := w.ctxErr(|log|);
      if interrupted.Some? then NotTaken(FailWith(w, turn, interrupted.value, log))
      else StreamTurn(c, w, turn, attempt + 1, conversation, request, log)
    else NotTaken(RunOut(Failed(err), Send(w, turn, last, log)))
  }

  // ---- compaction and budget ----

  predicate OverBudget(c: Config, u: Usage) {
    c.tokenBudget > 0 && u.Total() >= c.tokenBudget
  }

  function BudgetError(c: Config, u: Usage): Err {
    BudgetExceeded(u.Total(), c.tokenBudget)
  }

  datatype Phase = Ready(st: State) | Over(out: RunOut)

  function Compact(c: Config, w: World, st: State, turn: nat, reported: Usage): Phase
    requires w.compactor.Some?
  {
    match w.compactor.value(|st.log|, st.conversation, reported)
    case CompactFailed(err) => Over(FailWith(w, turn, Wrapped("compaction", err), st.log))
    case Shrunk(messages, used) =>
      var st' := st.(conversation := messages, usage := st.usage.Add(used), log := st.log + [Compacted(used)]);
      if OverBudget(c, st'.usage) then Over(FailWith(w, turn, BudgetError(c, st'.usage), st'.log))
      else Ready(st')
  }

  function Proactive(c: Config, w: World, st: State, turn: nat): Phase {
    if w.compactor.Some? && c.compactAfter > 0 && w.estimate(|st.log|, st.conversation) >= c.compactAfter then
      Compact(c, w, st, turn, Usage(w.estimate(|st.log|, st.conversation), 0, 0, 0, 0))
    else Ready(st)
  }

  function Reactive(c: Config, w: World, st: State, turn: nat, reported: Usage): Phase {
    if w.compactor.Some? && c.compactAfter > 0 && reported.input >= c.compactAfter then
      Compact(c, w, st, turn, reported)
    else Ready(st)
  }

  // ---- the repeat guard ----

  function Signature(tc: ToolCall): string {
    tc.name + "\0" + tc.input
  }

  datatype GuardReply =
    | Passed(forced: seq<Option<ToolResult>>, sig: string, count: nat)
    | Tripped(name: string, count: nat)

  function Guard(limit: nat, calls: seq<ToolCall>, sig: string, count: nat): (r: GuardReply)
    ensures r.Passed? ==> |r.forced| == |calls|
    decreases |calls|
  {
    if calls == [] then Passed([], sig, count)
    else
      var tc := calls[0];
      var n := if Signature(tc) == sig then count + 1 else 1;
      if n > limit + 1 then Tripped(tc.name, n)
      else
        var forced := if n == limit + 1 then Some(ErrorResult(tc.id, LoopWarning(tc.name, n))) else None;
        Prefixed([forced], Guard(limit, calls[1..], Signature(tc), n))
  }

  /** The entries already decided, in front of those still to come. */
  function Prefixed(before: seq<Option<ToolResult>>, r: GuardReply): GuardReply {
    if r.Passed? then r.(forced := before + r.forced) else r
  }

  function RunGuard(c: Config, st: State, calls: seq<ToolCall>): (r: GuardReply)
    ensures r.Passed? ==> |r.forced| == |calls|
  {
    if c.maxToolRepeats > 0 then Guard(c.maxToolRepeats, calls, st.repeatSig, st.repeatCount)
    else Passed(seq(|calls|, _ => None), st.repeatSig, st.repeatCount)
  }

  // ---- the tool batch ----

  datatype BatchReply =
    | BatchDone(results: seq<ToolResult>, pending: seq<ToolCall>, log: Log)
    | BatchCut(log: Log)

  /** The calls from position `i` on, one after the other. */
  function ExecTools(w: World, turn: nat, calls: seq<ToolCall>, forced: seq<Option<ToolResult>>, i: nat,
                     results: seq<ToolResult>, pending: seq<ToolCall>, log: Log): BatchReply
    requires |forced| == |calls| && i <= |calls|
    decreases |calls| - i
  {
    if i == |calls| then BatchDone(results, pending, log)
    else if w.ctxErr(|log|).Some? then BatchCut(log)
    else if forced[i].Some? then
      Answer(w, turn, calls, forced, i, results, pending, forced[i].value, log)
    else
      var reply := ExecTool(w.toolbox, |log|, turn, calls[i], None);
      var log' := log + [ToolStep(turn, i, calls[i], HowOf(reply))];
      match reply
      case Deferred => ExecTools(w, turn, calls, forced, i + 1, results, pending + [calls[i]], log')
      case Answered(result, _) => Answer(w, turn, calls, forced, i, results, pending, result, log')
  }

  /** Deliver the result of call `i` and go on with the next. */
  function Answer(w: World, turn: nat, calls: seq<ToolCall>, forced: seq<Option<ToolResult>>, i: nat,
                  results: seq<ToolResult>, pending: seq<ToolCall>, result: ToolResult, log: Log): BatchReply
    requires |forced| == |calls| && i < |calls|
    decreases |calls| - i, 0
  {
    var log' := Send(w, turn, ToolResultEvent(result), log);
    if !w.delivers(|log|) then BatchCut(log')
    else ExecTools(w, turn, calls, forced, i + 1, results + [result], pending, log')
  }

  /** The calls all at once, a goroutine each, in the order the scheduler lets them go. */
  function ExecParallel(c: Config, w: World, turn: nat, calls: seq<ToolCall>, forced: seq<Option<ToolResult>>,
                        log: Log): BatchReply
    requires |forced| == |calls| && c.maxParallelTools > 1
  {
    var b := Batch(w.toolbox, w.delivers, turn, calls, forced, c.maxParallelTools);
    var s := Concurrently(b, Initial(b, log), w.scheduler);
    if s.cancelled || w.ctxErr(|s.log|).Some? then BatchCut(s.log)
    else BatchDone(SlotResults(s.slots, s.pendingIdx), MarkedCalls(calls, s.pendingIdx), s.log)
  }

  function RunBatch(c: Config, w: World, turn: nat, calls: seq<ToolCall>, forced: seq<Option<ToolResult>>,
                    log: Log): BatchReply
    requires |forced| == |calls|
  {
    if c.maxParallelTools <= 1 || |calls| == 1 then ExecTools(w, turn, calls, forced, 0, [], [], log)
    else ExecParallel(c, w, turn, calls, forced, log)
  }

  // ---- one turn ----

  function AfterTools(c: Config, w: World, st: State, turn: nat, results: seq<ToolResult>, reported: Usage): Phase {
    Reactive(c, w, st.(conversation := st.conversation + ToolResultMessages(results)), turn, reported)
  }

  function RunTools(c: Config, w: World, st: State, turn: nat, acc: Acc): Phase {
    if OverBudget(c, st.usage) then Over(FailWith(w, turn, BudgetError(c, st.usage), st.log))
    else
      var calls := acc.toolCalls;
      var issued := st.log + [Issued(turn, calls)];
      match RunGuard(c, st, calls)
      case Tripped(name, count) => Over(FailWith(w, turn, LoopDetected(name, count), issued))
      case Passed(forced, sig, count) =>
        AfterBatch(c, w, st.(repeatSig := sig, repeatCount := count), turn, acc,
                   RunBatch(c, w, turn, calls, forced, issued))
  }

  /** What follows the batch: a pause, if calls are pending, or the rest of the turn. */
  function AfterBatch(c: Config, w: World, st: State, turn: nat, acc: Acc, batch: BatchReply): Phase {
    match batch
    case BatchCut(log) => Over(CutShort(w, turn, log))
    case BatchDone(results, pending, log) =>
      if pending != [] then
        Over(Pause(w, Checkpoint(st.conversation, turn, st.usage, acc.stopReason, acc.toolCalls, results), log))
      else AfterTools(c, w, st.(log := log), turn, results, acc.usage)
  }

  /** The state once a stream has been accepted. */
  function Absorb(st: State, turn: nat, acc: Acc, log: Log): State {
    var content := Content(acc);
    st.(conversation := if content == [] then st.conversation else st.conversation + [Message(RoleAssistant, content)],
        usage := st.usage.Add(acc.usage),
        lastText := if AccText(acc) != "" then AccText(acc) else st.lastText,
        lastStop := acc.stopReason,
        log := log + [Accepted(turn, acc.usage)])
  }

  function Conclude(st: State, turn: nat): RunResult {
    RunResult(st.conversation, st.lastText, st.lastStop, st.usage, turn + 1)
  }

  /** What to send the provider: the conversation, as the request hook leaves it. */
  function Prepare(w: World, st: State, turn: nat): Outcome<seq<Message>, Err> {
    if w.prepareRequest.None? then Ok(st.conversation)
    else w.prepareRequest.value(|st.log|, turn, st.conversation)
  }

  /** Ask the provider and act on its answer. */
  function AskAndAct(c: Config, w: World, st: State, turn: nat, request: seq<Message>): Phase {
    match StreamTurn(c, w, turn, 0, st.conversation, request, st.log)
    case NotTaken(out) => Over(out)
    case Took(acc, log) =>
      var st' := Absorb(st, turn, acc, log);
      if acc.toolCalls == [] then
        var result := Conclude(st', turn);
        Over(RunOut(Finished(result), Send(w, turn, DoneEvent(result), st'.log)))
      else RunTools(c, w, st', turn, acc)
  }

  function Turn(c: Config, w: World, st: State, turn: nat): Phase {
    match Proactive(c, w, st, turn)
    case Over(out) => Over(out)
    case Ready(st1) =>
      match Prepare(w, st1, turn)
      case Fail(err) => Over(FailWith(w, turn, Wrapped("prepare request hook", err), st1.log))
      case Ok(request) => AskAndAct(c, w, st1, turn, request)
  }

  // ---- whole runs ----

  function Turns(c: Config, w: World, st: State, turn: nat): RunOut
    decreases c.MaxTurns() - turn
  {
    if turn >= c.MaxTurns() then FailWith(w, c.MaxTurns(), MaxTurnsReached, st.log)
    else
      match Turn(c, w, st, turn)
      case Over(out) => out
      case Ready(st') => Turns(c, w, st', turn + 1)
  }

  function Run(c: Config, w: World, input: seq<Message>): RunOut {
    Turns(c, w, State(input, ZERO_USAGE, "", "", "", 0, []), 0)
  }

  datatype ResumeReply =
    | Resumed(byID: map<string, ToolResult>, stillPending: bool, log: Log)
    | ResumeCut(log: Log)

  function ByID(results: seq<ToolResult>): map<string, ToolResult> {
    if results == [] then map[]
    else
      var last := results[|results| - 1];
      ByID(results[..|results| - 1])[last.callID := last]
  }

  /** Run the pending calls from position `i` on that have a decision. */
  function DecideCalls(w: World, turn: nat, calls: seq<ToolCall>, decisions: map<string, Approval>, i: nat,
                       byID: map<string, ToolResult>, stillPending: bool, log: Log): ResumeReply
    requires i <= |calls|
    decreases |calls| - i
  {
    if i == |calls| then Resumed(byID, stillPending, log)
    else
      var tc := calls[i];
      if tc.id in byID then DecideCalls(w, turn, calls, decisions, i + 1, byID, stillPending, log)
      else if tc.id !in decisions then DecideCalls(w, turn, calls, decisions, i + 1, byID, true, log)
      else if w.ctxErr(|log|).Some? then ResumeCut(log)
      else
        var reply := ExecTool(w.toolbox, |log|, turn, tc, Some(decisions[tc.id]));
        var log1 := log + [ToolStep(turn, i, tc, HowOf(reply))];
        var log2 := Send(w, turn, ToolResultEvent(reply.result), log1);
        if !w.delivers(|log1|) then ResumeCut(log2)
        else DecideCalls(w, turn, calls, decisions, i + 1, byID[tc.id := reply.result], stillPending, log2)
  }

  /** The known results, in the order of the calls. */
  function InCallOrder(calls: seq<ToolCall>, byID: map<string, ToolResult>): seq<ToolResult> {
    if calls == [] then []
    else
      var last := calls[|calls| - 1];
      InCallOrder(calls[..|calls| - 1], byID) + if last.id in byID then [byID[last.id]] else []
  }

  function ResumedState(cp: Checkpoint, results: seq<ToolResult>, log: Log): State {
    State(cp.messages + ToolResultMessages(results), cp.usage, LastAssistantText(cp.messages), cp.stopReason, "", 0,
          log)
  }

  function Resume(c: Config, w: World, cp: Checkpoint, decisions: map<string, Approval>): RunOut {
    Proceed(c, w, cp, DecideCalls(w, cp.turn, cp.calls, decisions, 0, ByID(cp.results), false, []))
  }

  /** Go on once the decided calls are done. */
  function Proceed(c: Config, w: World, cp: Checkpoint, decided: ResumeReply): RunOut {
    match decided
    case ResumeCut(log) => CutShort(w, cp.turn, log)
    case Resumed(byID, stillPending, log) =>
      var results := InCallOrder(cp.calls, byID);
      if stillPending then Pause(w, cp.(results := results), log)
      else Turns(c, w, ResumedState(cp, results, log), cp.turn + 1)
  }
}

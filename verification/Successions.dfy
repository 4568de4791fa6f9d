/** How one turn leads to the next: what every turn of a run starts from, and what ends a
    run between two of them, over the log. */
module Successions {
  import opened Gage
  import opened Accumulate
  import opened ToolCalls
  import opened RunLog
  import opened Goroutines
  import opened AgentLoop
  import opened Batches
  import opened LogFacts
  import opened Reports
  import Retries
  import RunFacts
  import Transcripts
  import PauseResume

  // ---- between two turns ----

  /** A conversation of this size is to be compacted. */
  predicate Due(c: Config, w: World, size: int) {
    w.compactor.Some? && 0 < c.compactAfter <= size
  }

  /** From moment `m` to `n` the conversation is compacted if that is due, and left as it is
      if not. */
  ghost predicate Shortens(c: Config, w: World, log: Log, m: nat, before: seq<Message>, reported: Usage, n: nat,
                           after: seq<Message>) {
    if Due(c, w, reported.input) then
      && n == m + 1 <= |log| && log[m].Compacted?
      && w.compactor.value(m, before, reported) == Shrunk(after, log[m].usage)
    else n == m <= |log| && after == before
  }

  /** A compaction due at moment `m` ends the run. */
  ghost predicate Stalls(c: Config, w: World, base: Usage, out: RunOut, m: nat, before: seq<Message>, reported: Usage) {
    && Due(c, w, reported.input)
    && match w.compactor.value(m, before, reported)
       case CompactFailed(err) => EndsWith(out, m, Wrapped("compaction", err))
       case Shrunk(_, used) =>
         && m < |out.log| && out.log[m] == Compacted(used) && Exhausted(c, base, out.log, m)
         && var spent := base.Add(RunFacts.Spent(out.log[..m + 1]));
            EndsWith(out, m + 1, BudgetExceeded(spent.input + spent.output, c.tokenBudget))
  }

  /** The run fails at moment `m`, and says so. */
  ghost predicate EndsWith(out: RunOut, m: nat, err: Err) {
    && |out.log| == m + 1 && IsDelivery(out.log[m]) && out.log[m].event == ErrorEvent(Some(err), "")
    && out.end == Failed(err)
  }

  /** A conversation by the agent's own estimate. */
  function Estimated(w: World, m: nat, conversation: seq<Message>): Usage {
    Usage(w.estimate(m, conversation), 0, 0, 0, 0)
  }

  /** The most turns a run takes: sixteen unless set. */
  function TurnLimit(c: Config): nat {
    if c.maxTurnsSetting <= 0 then 16 else c.maxTurnsSetting
  }

  /** Turn `turn`, started at moment `m` with this conversation, first asks at moment `q`. */
  ghost predicate LeadsTo(c: Config, w: World, log: Log, m: nat, conversation: seq<Message>, turn: nat, q: nat)
    requires q < |log| && log[q].Ask?
  {
    && turn < TurnLimit(c) && log[q].turn == turn && log[q].attempt == 0
    && Shortens(c, w, log, m, conversation, Estimated(w, m, conversation), q, log[q].conversation)
    && match w.prepareRequest
       case None => log[q].request == log[q].conversation
       case Some(hook) => hook(q, turn, log[q].conversation) == Ok(log[q].request)
  }

  /** It ends the run before it asks. */
  ghost predicate StopsBefore(c: Config, w: World, base: Usage, out: RunOut, m: nat, conversation: seq<Message>,
                              turn: nat) {
    if turn >= TurnLimit(c) then EndsWith(out, m, MaxTurnsReached)
    else
      var size := Estimated(w, m, conversation);
      || Stalls(c, w, base, out, m, conversation, size)
      || exists n: nat, shorter, err ::
           && Shortens(c, w, out.log, m, conversation, size, n, shorter)
           && RefusedByHook(w, n, turn, shorter, err) && EndsWith(out, n, Wrapped("prepare request hook", err))
  }

  ghost predicate RefusedByHook(w: World, n: nat, turn: nat, conversation: seq<Message>, err: Err) {
    w.prepareRequest.Some? && w.prepareRequest.value(n, turn, conversation) == Fail(err)
  }

  // ---- a batch of tool calls ----

  /** Call `k` of those issued at `p` came to `r` by moment `m`: the warning that it repeats
      itself, or what executing it gave at the moment its tool step is logged. */
  ghost predicate ComesTo(c: Config, w: World, log: Log, p: nat, m: nat, k: nat, r: Reply)
    requires p < |log| && log[p].Issued? && k < |log[p].calls| && m <= |log|
  {
    var tc := log[p].calls[k];
    || (c.maxToolRepeats > 0
        && r == Answered(ToolResult(tc.id, LoopWarning(tc.name, c.maxToolRepeats + 1), true), None))
    || exists n: nat :: p < n < m && log[n] == ToolStep(log[p].turn, k, tc, HowOf(r))
                        && r == ExecTool(w.toolbox, n, log[p].turn, tc, None)
  }

  /** All of them, in call order. Calls that ran all at once stand only if the context is
      not cancelled by the end. */
  ghost predicate ComeTo(c: Config, w: World, log: Log, p: nat, m: nat, outcomes: seq<Reply>)
    requires p < |log| && log[p].Issued?
  {
    && m <= |log| && |outcomes| == |log[p].calls|
    && (c.maxParallelTools > 1 && |log[p].calls| != 1 ==> w.ctxErr(m).None?)
    && forall k: nat :: k < |outcomes| ==> ComesTo(c, w, log, p, m, k, outcomes[k])
  }

  /** The results, when no call was postponed. */
  ghost predicate Answers(outcomes: seq<Reply>, results: seq<ToolResult>) {
    && |results| == |outcomes|
    && forall k :: 0 <= k < |outcomes| ==> outcomes[k].Answered? && outcomes[k].result == results[k]
  }

  /** The conversation after the calls issued at `p`: what the provider was asked about, the
      message it answered with, and the results. */
  ghost function Grown(w: World, log: Log, p: nat, results: seq<ToolResult>): seq<Message>
    requires p <= |log|
  {
    var before := log[..p];
    var q := LastAsk(before);
    (if q < 0 then [] else before[q].conversation) + MessageSaid(Heard(w, before)) + ToolResultMessages(results)
  }

  ghost function Reported(w: World, log: Log, p: nat): Usage
    requires p <= |log|
  {
    UsageReported(Heard(w, log[..p]))
  }

  /** The calls issued at `p` were answered by moment `m`, and by moment `n` the conversation
      is this. */
  ghost predicate CarriesOn(c: Config, w: World, log: Log, p: nat, n: nat, conversation: seq<Message>)
    requires p < |log| && log[p].Issued?
  {
    exists m: nat, outcomes: seq<Reply>, results: seq<ToolResult> ::
      CarriesOnBy(c, w, log, p, m, outcomes, results, n, conversation)
  }

  ghost predicate CarriesOnBy(c: Config, w: World, log: Log, p: nat, m: nat, outcomes: seq<Reply>,
                              results: seq<ToolResult>, n: nat, conversation: seq<Message>)
    requires p < |log| && log[p].Issued?
  {
    && ComeTo(c, w, log, p, m, outcomes) && Answers(outcomes, results)
    && Shortens(c, w, log, m, Grown(w, log, p, results), Reported(w, log, p), n, conversation)
  }

  /** The calls issued at `p` lead to the turn that first asks at `q`. */
  ghost predicate Follows(c: Config, w: World, log: Log, p: nat, q: nat)
    requires p < q < |log| && log[p].Issued? && log[q].Ask?
  {
    exists n: nat, conversation ::
      CarriesOn(c, w, log, p, n, conversation) && LeadsTo(c, w, log, n, conversation, log[p].turn + 1, q)
  }

  // ---- what the calls of a turn come to when no turn follows ----

  ghost predicate Trips(c: Config, out: RunOut, p: nat) {
    c.maxToolRepeats > 0 && exists name, count: nat :: EndsWith(out, p + 1, LoopDetected(name, count))
  }

  ghost predicate CutOff(w: World, out: RunOut) {
    || out.end.Abandoned?
    || (out.end.Failed? && out.log != [] && EndsWith(out, |out.log| - 1, out.end.err)
        && w.ctxErr(|out.log| - 1) == Some(out.end.err))
  }

  ghost predicate Postpones(c: Config, w: World, out: RunOut, p: nat)
    requires p < |out.log| && out.log[p].Issued?
  {
    && out.end.Suspended?
    && exists m: nat, outcomes: seq<Reply>, k: nat ::
         && ComeTo(c, w, out.log, p, m, outcomes) && k < |outcomes| && outcomes[k].Deferred?
         && out.end.checkpoint.results == ResultsOf(outcomes)
  }

  ghost predicate StallsAfter(c: Config, w: World, base: Usage, out: RunOut, p: nat)
    requires p < |out.log| && out.log[p].Issued?
  {
    exists m: nat, outcomes: seq<Reply>, results: seq<ToolResult> ::
      && ComeTo(c, w, out.log, p, m, outcomes) && Answers(outcomes, results)
      && Stalls(c, w, base, out, m, Grown(w, out.log, p, results), Reported(w, out.log, p))
  }

  /** The run ends on the calls issued at `p`: a loop is detected, the batch is cut short, a
      call is postponed, the compaction after the batch ends it, or the next turn does
      before it asks. */
  ghost predicate StopsAfter(c: Config, w: World, base: Usage, out: RunOut, p: nat)
    requires p < |out.log| && out.log[p].Issued?
  {
    || Trips(c, out, p) || CutOff(w, out) || Postpones(c, w, out, p) || StallsAfter(c, w, base, out, p)
    || StopsNext(c, w, base, out, p)
  }

  ghost predicate StopsNext(c: Config, w: World, base: Usage, out: RunOut, p: nat)
    requires p < |out.log| && out.log[p].Issued?
  {
    exists n: nat, conversation ::
      && CarriesOn(c, w, out.log, p, n, conversation)
      && StopsBefore(c, w, base, out, n, conversation, out.log[p].turn + 1)
  }

  // ---- whole runs ----

  /** What a run starts from: the moment, the conversation and the turn. */
  datatype Origin = Origin(moment: nat, conversation: seq<Message>, turn: nat)

  /** A turn's first ask follows from the calls of the turn before, or from the start. */
  ghost predicate Begins(c: Config, w: World, o: Origin, log: Log, q: nat)
    requires q < |log| && log[q].Ask?
  {
    var before := LastAsk(log[..q]);
    if before < 0 then LeadsTo(c, w, log, o.moment, o.conversation, o.turn, q)
    else exists p: nat :: before < p < q && log[p].Issued? && Follows(c, w, log, p, q)
  }

  ghost predicate AllBegin(c: Config, w: World, o: Origin, log: Log) {
    forall q: nat {:trigger Begins(c, w, o, log, q)} ::
      q < |log| && log[q].Ask? && log[q].attempt == 0 ==> Begins(c, w, o, log, q)
  }

  /** Every turn of a run follows from the one before, the first from the start of the run;
      and calls no turn follows, or a start no turn follows, are what the run ends on. */
  ghost predicate Succeeds(c: Config, w: World, base: Usage, o: Origin, out: RunOut) {
    && AllBegin(c, w, o, out.log)
    && (LastAsk(out.log) < 0 ==> StopsBefore(c, w, base, out, o.moment, o.conversation, o.turn))
    && forall p: nat {:trigger StopsAfter(c, w, base, out, p)} ::
         LastAsk(out.log) < p < |out.log| && out.log[p].Issued? ==> StopsAfter(c, w, base, out, p)
  }

  /** What the next turn starts from. */
  ghost predicate Prepared(c: Config, w: World, o: Origin, st: State, turn: nat) {
    var last := LastAsk(st.log);
    && AllBegin(c, w, o, st.log)
    && (last < 0 ==> |st.log| == o.moment && st.conversation == o.conversation && turn == o.turn)
    && (forall p: nat {:trigger CarriesOn(c, w, st.log, p, |st.log|, st.conversation)} ::
          last < p < |st.log| && st.log[p].Issued? ==>
          turn == st.log[p].turn + 1 && CarriesOn(c, w, st.log, p, |st.log|, st.conversation))
    && (last >= 0 ==> exists p: nat :: last < p < |st.log| && st.log[p].Issued?)
  }

  // ---- growing logs ----

  lemma StillShortens(c: Config, w: World, log: Log, later: Log, m: nat, before: seq<Message>, reported: Usage, n: nat,
                      after: seq<Message>)
    requires Shortens(c, w, log, m, before, reported, n, after) && log <= later
    ensures Shortens(c, w, later, m, before, reported, n, after)
  {
  }

  lemma StillComeTo(c: Config, w: World, log: Log, later: Log, p: nat, m: nat, outcomes: seq<Reply>)
    requires p < |log| && log[p].Issued? && ComeTo(c, w, log, p, m, outcomes) && log <= later
    ensures ComeTo(c, w, later, p, m, outcomes)
  {
    forall k: nat | k < |outcomes|
      ensures ComesTo(c, w, later, p, m, k, outcomes[k])
    {
      assert ComesTo(c, w, log, p, m, k, outcomes[k]);
      var tc := log[p].calls[k];
      if n: nat :| p < n < m && log[n] == ToolStep(log[p].turn, k, tc, HowOf(outcomes[k]))
                   && outcomes[k] == ExecTool(w.toolbox, n, log[p].turn, tc, None) {
        assert later[n] == log[n];
      }
    }
  }

  lemma StillCarriesOn(c: Config, w: World, log: Log, later: Log, p: nat, n: nat, conversation: seq<Message>)
    requires p < |log| && log[p].Issued? && CarriesOn(c, w, log, p, n, conversation) && log <= later
    ensures CarriesOn(c, w, later, p, n, conversation)
  {
    var m: nat, outcomes, results :| CarriesOnBy(c, w, log, p, m, outcomes, results, n, conversation);
    StillComeTo(c, w, log, later, p, m, outcomes);
    assert log[..p] == later[..p];
    StillShortens(c, w, log, later, m, Grown(w, log, p, results), Reported(w, log, p), n, conversation);
    assert CarriesOnBy(c, w, later, p, m, outcomes, results, n, conversation);
  }

  lemma StillLeadsTo(c: Config, w: World, log: Log, later: Log, m: nat, conversation: seq<Message>, turn: nat, q: nat)
    requires q < |log| && log[q].Ask? && LeadsTo(c, w, log, m, conversation, turn, q) && log <= later
    ensures LeadsTo(c, w, later, m, conversation, turn, q)
  {
    StillShortens(c, w, log, later, m, conversation, Estimated(w, m, conversation), q, log[q].conversation);
  }

  lemma StillFollows(c: Config, w: World, log: Log, later: Log, p: nat, q: nat)
    requires p < q < |log| && log[p].Issued? && log[q].Ask? && Follows(c, w, log, p, q) && log <= later
    ensures later[p] == log[p] && later[q] == log[q] && Follows(c, w, later, p, q)
  {
    var n: nat, conversation :|
      CarriesOn(c, w, log, p, n, conversation) && LeadsTo(c, w, log, n, conversation, log[p].turn + 1, q);
    StillFollowsBy(c, w, log, later, p, q, n, conversation);
  }

  lemma StillFollowsBy(c: Config, w: World, log: Log, later: Log, p: nat, q: nat, n: nat, conversation: seq<Message>)
    requires p < q < |log| && log[p].Issued? && log[q].Ask? && log <= later
    requires CarriesOn(c, w, log, p, n, conversation) && LeadsTo(c, w, log, n, conversation, log[p].turn + 1, q)
    ensures later[p] == log[p] && later[q] == log[q] && Follows(c, w, later, p, q)
  {
    StillCarriesOn(c, w, log, later, p, n, conversation);
    StillLeadsTo(c, w, log, later, n, conversation, log[p].turn + 1, q);
    FollowsBy(c, w, later, p, q, n, conversation);
  }

  lemma FollowsBy(c: Config, w: World, log: Log, p: nat, q: nat, n: nat, conversation: seq<Message>)
    requires p < q < |log| && log[p].Issued? && log[q].Ask?
    requires CarriesOn(c, w, log, p, n, conversation) && LeadsTo(c, w, log, n, conversation, log[p].turn + 1, q)
    ensures Follows(c, w, log, p, q)
  {
  }

  lemma StillBegins(c: Config, w: World, o: Origin, log: Log, later: Log, q: nat)
    requires q < |log| && log[q].Ask? && Begins(c, w, o, log, q) && log <= later
    ensures Begins(c, w, o, later, q)
  {
    assert log[..q] == later[..q];
    var before := LastAsk(log[..q]);
    if before < 0 {
      StillLeadsTo(c, w, log, later, o.moment, o.conversation, o.turn, q);
    } else {
      var p: nat :| before < p < q && log[p].Issued? && Follows(c, w, log, p, q);
      StillFollows(c, w, log, later, p, q);
    }
  }

  /** Steps that ask nothing, but perhaps again. */
  ghost predicate NoNewTurn(log: Log, later: Log) {
    log <= later && forall k: nat :: |log| <= k < |later| && later[k].Ask? ==> later[k].attempt > 0
  }

  lemma StillAllBegin(c: Config, w: World, o: Origin, log: Log, later: Log)
    requires AllBegin(c, w, o, log) && NoNewTurn(log, later)
    ensures AllBegin(c, w, o, later)
  {
    forall q: nat | q < |later| && later[q].Ask? && later[q].attempt == 0
      ensures Begins(c, w, o, later, q)
    {
      assert later[q] == log[q];
      StillBegins(c, w, o, log, later, q);
    }
  }

  // ---- compactions ----

  /** A compaction that is due, done. */
  lemma CompactShortens(c: Config, w: World, base: Usage, st: State, turn: nat, reported: Usage)
    requires Due(c, w, reported.input) && st.usage == base.Add(RunFacts.Spent(st.log))
    ensures match Compact(c, w, st, turn, reported)
            case Ready(st') =>
              Shortens(c, w, st'.log, |st.log|, st.conversation, reported, |st'.log|, st'.conversation)
            case Over(out) => Stalls(c, w, base, out, |st.log|, st.conversation, reported)
  {
    match w.compactor.value(|st.log|, st.conversation, reported)
    case CompactFailed(_) =>
    case Shrunk(_, used) =>
      var log := st.log + [Compacted(used)];
      assert log[..|st.log|] == st.log;
      RunFacts.AddAssociates(base, RunFacts.Spent(st.log), used);
      var out := FailWith(w, turn, BudgetError(c, st.usage.Add(used)), log);
      assert out.log[..|st.log| + 1] == log;
  }

  lemma ProactiveShortens(c: Config, w: World, base: Usage, st: State, turn: nat)
    requires st.usage == base.Add(RunFacts.Spent(st.log))
    ensures var size := Estimated(w, |st.log|, st.conversation);
            match Proactive(c, w, st, turn)
            case Ready(st') => Shortens(c, w, st'.log, |st.log|, st.conversation, size, |st'.log|, st'.conversation)
            case Over(out) => Stalls(c, w, base, out, |st.log|, st.conversation, size)
  {
    var size := Estimated(w, |st.log|, st.conversation);
    if Due(c, w, size.input) {
      CompactShortens(c, w, base, st, turn, size);
    }
  }

  lemma ReactiveShortens(c: Config, w: World, base: Usage, st: State, turn: nat, reported: Usage)
    requires st.usage == base.Add(RunFacts.Spent(st.log))
    ensures match Reactive(c, w, st, turn, reported)
            case Ready(st') => Shortens(c, w, st'.log, |st.log|, st.conversation, reported, |st'.log|, st'.conversation)
            case Over(out) => Stalls(c, w, base, out, |st.log|, st.conversation, reported)
  {
    if Due(c, w, reported.input) {
      CompactShortens(c, w, base, st, turn, reported);
    }
  }

  /** Nothing but compactions and deliveries. */
  ghost predicate Between(log: Log, later: Log) {
    log <= later && forall k: nat :: |log| <= k < |later| ==> !later[k].Ask? && !later[k].Issued?
  }

  lemma CompactBetween(c: Config, w: World, st: State, turn: nat, reported: Usage)
    requires w.compactor.Some?
    ensures Between(st.log, PhaseLog(Compact(c, w, st, turn, reported)))
  {
  }

  function PhaseLog(p: Phase): Log {
    match p
    case Ready(st) => st.log
    case Over(out) => out.log
  }

  lemma AsksLast(log: Log, later: Log)
    requires log <= later && forall k: nat :: |log| <= k < |later| ==> !later[k].Ask?
    ensures LastAsk(later) == LastAsk(log)
  {
    assert later[..|log|] == log;
    if |log| < |later| {
      LastAskStays(later, |log|);
    } else {
      assert later == log;
    }
  }

  // ---- asking ----

  /** The first ask of a turn, at the end of the log. */
  lemma LeadsNow(c: Config, w: World, log: Log, m: nat, before: seq<Message>, turn: nat, conversation: seq<Message>,
                 request: seq<Message>)
    requires turn < TurnLimit(c)
    requires Shortens(c, w, log, m, before, Estimated(w, m, before), |log|, conversation)
    requires match w.prepareRequest
             case None => request == conversation
             case Some(hook) => hook(|log|, turn, conversation) == Ok(request)
    ensures LeadsTo(c, w, log + [Ask(turn, 0, conversation, request)], m, before, turn, |log|)
  {
    StillShortens(c, w, log, log + [Ask(turn, 0, conversation, request)], m, before, Estimated(w, m, before), |log|,
                  conversation);
  }

  lemma FollowsNow(c: Config, w: World, o: Origin, log: Log, p: nat, n: nat, conversation: seq<Message>, asked: Log,
                   q: nat)
    requires p < |log| && log[p].Issued? && CarriesOn(c, w, log, p, n, conversation)
    requires log <= asked && |log| <= q < |asked| && asked[q].Ask?
    requires 0 <= LastAsk(asked[..q]) < p
    requires LeadsTo(c, w, asked, n, conversation, log[p].turn + 1, q)
    ensures Begins(c, w, o, asked, q)
  {
    StillCarriesOn(c, w, log, asked, p, n, conversation);
    assert asked[p] == log[p];
    FollowsBy(c, w, asked, p, q, n, conversation);
  }

  lemma CalledLast(c: Config, w: World, o: Origin, st: State, turn: nat) returns (p: nat)
    requires Prepared(c, w, o, st, turn) && LastAsk(st.log) >= 0
    ensures LastAsk(st.log) < p < |st.log| && st.log[p].Issued?
    ensures CarriesOn(c, w, st.log, p, |st.log|, st.conversation) && turn == st.log[p].turn + 1
  {
    p :| LastAsk(st.log) < p < |st.log| && st.log[p].Issued?;
    CalledAt(c, w, o, st, turn, p);
  }

  lemma CalledAt(c: Config, w: World, o: Origin, st: State, turn: nat, p: nat)
    requires Prepared(c, w, o, st, turn) && LastAsk(st.log) < p < |st.log| && st.log[p].Issued?
    ensures CarriesOn(c, w, st.log, p, |st.log|, st.conversation) && turn == st.log[p].turn + 1
  {
    var carries := CarriesOn(c, w, st.log, p, |st.log|, st.conversation);
  }

  lemma FirstBegins(c: Config, w: World, o: Origin, st: State, turn: nat, asked: Log, q: nat)
    requires |st.log| == o.moment && st.conversation == o.conversation && turn == o.turn
    requires q < |asked| && asked[q].Ask? && LastAsk(asked[..q]) < 0
    requires LeadsTo(c, w, asked, |st.log|, st.conversation, turn, q)
    ensures Begins(c, w, o, asked, q)
  {
  }

  lemma BeginsAlso(c: Config, w: World, o: Origin, log: Log, ask: Step)
    requires AllBegin(c, w, o, log) && ask.Ask? && Begins(c, w, o, log + [ask], |log|)
    ensures AllBegin(c, w, o, log + [ask])
  {
    var asked := log + [ask];
    forall k: nat | k < |asked| && asked[k].Ask? && asked[k].attempt == 0
      ensures Begins(c, w, o, asked, k)
    {
      if k < |log| {
        assert asked[k] == log[k];
        StillBegins(c, w, o, log, asked, k);
      }
    }
  }

  /** What the next turn starts from, at the moment it asks. */
  lemma BeginsNext(c: Config, w: World, o: Origin, st: State, turn: nat, log: Log, request: seq<Message>,
                   conversation: seq<Message>)
    requires Prepared(c, w, o, st, turn) && Between(st.log, log)
    requires LeadsTo(c, w, log + [Ask(turn, 0, conversation, request)], |st.log|, st.conversation, turn, |log|)
    ensures AllBegin(c, w, o, log + [Ask(turn, 0, conversation, request)])
  {
    var asked := log + [Ask(turn, 0, conversation, request)];
    AsksLast(st.log, log);
    StillAllBegin(c, w, o, st.log, log);
    assert asked[..|log|] == log;
    if LastAsk(log) >= 0 {
      var p := CalledLast(c, w, o, st, turn);
      FollowsNow(c, w, o, st.log, p, |st.log|, st.conversation, asked, |log|);
    } else {
      FirstBegins(c, w, o, st, turn, asked, |log|);
    }
    BeginsAlso(c, w, o, log, Ask(turn, 0, conversation, request));
  }

  lemma {:induction false} RetryReasks(c: Config, w: World, turn: nat, attempt: nat, conversation: seq<Message>,
                                      request: seq<Message>, err: Err, last: Event, log: Log)
    ensures NoNewTurn(log, TurnReplyLog(Retry(c, w, turn, attempt, conversation, request, err, last, log)))
    decreases c.Retries() - attempt, 0
  {
    if attempt < c.Retries() && Retryable(err) && w.ctxErr(|log|).None? {
      AskReasks(c, w, turn, attempt + 1, conversation, request, log);
    }
  }

  lemma {:induction false} AskReasks(c: Config, w: World, turn: nat, attempt: nat, conversation: seq<Message>,
                                    request: seq<Message>, log: Log)
    ensures NoNewTurn(log + [Ask(turn, attempt, conversation, request)],
                      TurnReplyLog(StreamTurn(c, w, turn, attempt, conversation, request, log)))
    decreases c.Retries() - attempt, 1
  {
    var asked := log + [Ask(turn, attempt, conversation, request)];
    match w.stream(|log|, turn, attempt, request)
    case Refused(err) =>
      RetryReasks(c, w, turn, attempt, conversation, request, err, ErrorEvent(Some(err), ""), asked);
    case Streaming(events) =>
      ConsumeRelays(w, turn, events, EMPTY_ACC, asked);
      match Consume(w, turn, events, EMPTY_ACC, asked)
      case StreamError(ev, log') =>
        RetryReasks(c, w, turn, attempt, conversation, request, ErrorOf(ev), ev, log');
      case _ =>
  }

  // ---- while a turn is asking ----

  ghost predicate Asking(c: Config, w: World, o: Origin, log: Log) {
    && AllBegin(c, w, o, log) && LastAsk(log) >= 0
    && forall k: nat :: LastAsk(log) < k < |log| ==> !log[k].Issued?
  }

  ghost predicate Quiet(log: Log, later: Log) {
    NoNewTurn(log, later) && forall k: nat :: |log| <= k < |later| ==> !later[k].Issued?
  }

  lemma StillAsking(c: Config, w: World, o: Origin, log: Log, later: Log)
    requires Asking(c, w, o, log) && Quiet(log, later)
    ensures Asking(c, w, o, later)
  {
    StillAllBegin(c, w, o, log, later);
    assert later[LastAsk(log)] == log[LastAsk(log)];
    assert LastAsk(later) >= LastAsk(log);
    forall k: nat | LastAsk(later) < k < |later|
      ensures !later[k].Issued?
    {
      if k < |log| {
        assert later[k] == log[k];
      }
    }
  }

  /** A run that ends then. */
  lemma EndsAsking(c: Config, w: World, base: Usage, o: Origin, log: Log, out: RunOut)
    requires Asking(c, w, o, log) && Quiet(log, out.log)
    ensures Succeeds(c, w, base, o, out)
  {
    StillAsking(c, w, o, log, out.log);
  }

  // ---- calls ----

  ghost predicate JustIssued(c: Config, w: World, o: Origin, log: Log, p: nat, turn: nat, calls: seq<ToolCall>) {
    && AllBegin(c, w, o, log) && LastAsk(log) >= 0
    && |log| == p + 1 && log[p] == Issued(turn, calls)
    && forall k: nat :: LastAsk(log) < k < p ==> !log[k].Issued?
  }

  lemma OnlyIssued(c: Config, w: World, o: Origin, log: Log, p: nat, turn: nat, calls: seq<ToolCall>, later: Log)
    requires JustIssued(c, w, o, log, p, turn, calls) && Between(log, later)
    ensures AllBegin(c, w, o, later) && LastAsk(later) == LastAsk(log) >= 0
    ensures later[p] == Issued(turn, calls)
    ensures forall k: nat :: LastAsk(later) < k < |later| && later[k].Issued? ==> k == p
  {
    StillAllBegin(c, w, o, log, later);
    AsksLast(log, later);
  }

  lemma EndsOnCalls(c: Config, w: World, base: Usage, o: Origin, log: Log, p: nat, turn: nat, calls: seq<ToolCall>,
                    out: RunOut)
    requires JustIssued(c, w, o, log, p, turn, calls) && Between(log, out.log)
    requires out.log[p].Issued? && StopsAfter(c, w, base, out, p)
    ensures Succeeds(c, w, base, o, out)
  {
    OnlyIssued(c, w, o, log, p, turn, calls, out.log);
  }

  lemma GoesOn(c: Config, w: World, o: Origin, log: Log, p: nat, turn: nat, calls: seq<ToolCall>, st: State)
    requires JustIssued(c, w, o, log, p, turn, calls) && Between(log, st.log)
    requires st.log[p].Issued? && CarriesOn(c, w, st.log, p, |st.log|, st.conversation)
    ensures Prepared(c, w, o, st, turn + 1)
  {
    OnlyIssued(c, w, o, log, p, turn, calls, st.log);
  }

  lemma GuardWarns(c: Config, st: State, calls: seq<ToolCall>, k: nat)
    requires RunGuard(c, st, calls).Passed? && k < |calls| && RunGuard(c, st, calls).forced[k].Some?
    ensures c.maxToolRepeats > 0
    ensures RunGuard(c, st, calls).forced[k].value
         == ToolResult(calls[k].id, LoopWarning(calls[k].name, c.maxToolRepeats + 1), true)
  {
    if c.maxToolRepeats > 0 {
      Warns(c.maxToolRepeats, calls, st.repeatSig, st.repeatCount, k);
    }
  }

  lemma {:induction false} Warns(limit: nat, calls: seq<ToolCall>, sig: string, count: nat, k: nat)
    requires Guard(limit, calls, sig, count).Passed? && k < |calls| && Guard(limit, calls, sig, count).forced[k].Some?
    ensures Guard(limit, calls, sig, count).forced[k].value
         == ToolResult(calls[k].id, LoopWarning(calls[k].name, limit + 1), true)
    decreases k
  {
    if k > 0 {
      var n := if Signature(calls[0]) == sig then count + 1 else 1;
      assert Guard(limit, calls[1..], Signature(calls[0]), n).Passed?;
      Warns(limit, calls[1..], Signature(calls[0]), n, k - 1);
    }
  }

  /** What the calls of a batch come to, from what the batch promises. */
  lemma BatchComesTo(c: Config, w: World, turn: nat, calls: seq<ToolCall>, forced: seq<Option<ToolResult>>, issued: Log,
                     p: nat, log: Log, outcomes: seq<Reply>)
    requires |forced| == |calls| == |outcomes| && |issued| == p + 1 && issued[p] == Issued(turn, calls)
    requires BatchLog(BatchOf(c, w, turn, calls, forced), issued, log)
    requires Settled(BatchOf(c, w, turn, calls, forced), issued, log, outcomes)
    requires forall k: nat :: k < |calls| && forced[k].Some? ==>
               c.maxToolRepeats > 0
               && forced[k].value == ToolResult(calls[k].id, LoopWarning(calls[k].name, c.maxToolRepeats + 1), true)
    requires c.maxParallelTools > 1 && |calls| != 1 ==> w.ctxErr(|log|).None?
    ensures log[p] == Issued(turn, calls) && ComeTo(c, w, log, p, |log|, outcomes)
  {
    var b := BatchOf(c, w, turn, calls, forced);
    forall k: nat | k < |outcomes|
      ensures ComesTo(c, w, log, p, |log|, k, outcomes[k])
    {
      assert CameTo(b, issued, log, k, outcomes[k]);
      if forced[k].None? {
        var n: nat :| |issued| <= n < |log| && WorkedAt(b, log, n, k, outcomes[k]);
        assert BatchStep(b, log[n], n);
        assert log[n] == ToolStep(turn, k, calls[k], HowOf(outcomes[k]));
      }
    }
  }

  // ---- after the stream ----

  /** The stream of a turn was taken in. */
  ghost predicate Taken(c: Config, w: World, base: Usage, o: Origin, st: State, turn: nat, acc: Acc) {
    && Asking(c, w, o, st.log)
    && st.usage == base.Add(RunFacts.Spent(st.log))
    && var ask := st.log[LastAsk(st.log)];
       && ask.turn == turn && st.conversation == ask.conversation + MessageSaid(Heard(w, st.log))
       && acc.usage == UsageReported(Heard(w, st.log))
  }

  lemma AbsorbTaken(c: Config, w: World, base: Usage, o: Origin, st: State, turn: nat, acc: Acc, log: Log)
    requires Asking(c, w, o, log) && RunFacts.FreeSince(st.log, log)
    requires st.usage == base.Add(RunFacts.Spent(st.log))
    requires Takes(w, Took(acc, log), |st.log|, turn, st.conversation)
    ensures Taken(c, w, base, o, Absorb(st, turn, acc, log), turn, acc)
  {
    var st' := Absorb(st, turn, acc, log);
    TakenIsSaid(Heard(w, log));
    StillAsking(c, w, o, log, st'.log);
    AsksLast(log, st'.log);
    assert st'.log[..|log|] == log && st'.log[LastAsk(log)] == log[LastAsk(log)];
    RunFacts.SpentSame(st.log, log);
    RunFacts.AddAssociates(base, RunFacts.Spent(log), acc.usage);
    assert st.conversation + [] == st.conversation;
  }

  /** The conversation of a turn whose calls are answered. */
  lemma Grows(w: World, st: State, calls: seq<ToolCall>, turn: nat, later: Log, results: seq<ToolResult>)
    requires st.log + [Issued(turn, calls)] <= later && LastAsk(st.log) >= 0
    requires st.conversation == st.log[LastAsk(st.log)].conversation + MessageSaid(Heard(w, st.log))
    ensures Grown(w, later, |st.log|, results) == st.conversation + ToolResultMessages(results)
    ensures Reported(w, later, |st.log|) == UsageReported(Heard(w, st.log))
  {
    assert later[..|st.log|] == st.log;
  }

  lemma RunToolsSucceeds(c: Config, w: World, base: Usage, o: Origin, st: State, turn: nat, acc: Acc)
    requires Taken(c, w, base, o, st, turn, acc)
    ensures PhaseSucceeds(c, w, base, o, RunTools(c, w, st, turn, acc), turn)
  {
    var calls, p := acc.toolCalls, |st.log|;
    var issued := st.log + [Issued(turn, calls)];
    if OverBudget(c, st.usage) {
      EndsAsking(c, w, base, o, st.log, RunTools(c, w, st, turn, acc).out);
    } else {
      NowIssued(c, w, o, st.log, turn, calls);
      var g := RunGuard(c, st, calls);
      if g.Tripped? {
        var out := RunTools(c, w, st, turn, acc).out;
        assert EndsWith(out, p + 1, LoopDetected(g.name, g.count));
        EndsOnCalls(c, w, base, o, issued, p, turn, calls, out);
      } else {
        PassedSucceeds(c, w, base, o, st, turn, acc, g.forced, g.sig, g.count);
      }
    }
  }

  lemma NowIssued(c: Config, w: World, o: Origin, log: Log, turn: nat, calls: seq<ToolCall>)
    requires Asking(c, w, o, log)
    ensures JustIssued(c, w, o, log + [Issued(turn, calls)], |log|, turn, calls)
  {
    var issued := log + [Issued(turn, calls)];
    StillAllBegin(c, w, o, log, issued);
    AsksLast(log, issued);
  }

  /** The state after a turn, or the run it ended. */
  ghost predicate PhaseSucceeds(c: Config, w: World, base: Usage, o: Origin, p: Phase, turn: nat) {
    match p
    case Ready(st) => Prepared(c, w, o, st, turn + 1) && st.usage == base.Add(RunFacts.Spent(st.log))
    case Over(out) => Succeeds(c, w, base, o, out)
  }

  lemma PassedSucceeds(c: Config, w: World, base: Usage, o: Origin, st: State, turn: nat, acc: Acc,
                       forced: seq<Option<ToolResult>>, sig: string, count: nat)
    requires Taken(c, w, base, o, st, turn, acc)
    requires RunGuard(c, st, acc.toolCalls) == Passed(forced, sig, count) && |forced| == |acc.toolCalls|
    ensures var batch := RunBatch(c, w, turn, acc.toolCalls, forced, st.log + [Issued(turn, acc.toolCalls)]);
            PhaseSucceeds(c, w, base, o,
                          AfterBatch(c, w, st.(repeatSig := sig, repeatCount := count), turn, acc, batch), turn)
  {
    var calls, p := acc.toolCalls, |st.log|;
    var issued := st.log + [Issued(turn, calls)];
    var batch := RunBatch(c, w, turn, calls, forced, issued);
    NowIssued(c, w, o, st.log, turn, calls);
    BatchWorks(c, w, turn, calls, forced, issued);
    var outcomes := BatchFacts(c, w, turn, calls, forced, issued);
    if batch.BatchCut? {
      CutSucceeds(c, w, base, o, issued, p, turn, calls, batch.log);
    } else {
      forall k: nat | k < |calls| && forced[k].Some?
        ensures c.maxToolRepeats > 0
        ensures forced[k].value == ToolResult(calls[k].id, LoopWarning(calls[k].name, c.maxToolRepeats + 1), true)
      {
        GuardWarns(c, st, calls, k);
      }
      BatchComesTo(c, w, turn, calls, forced, issued, p, batch.log, outcomes);
      NonePending(calls, outcomes);
      DoneSucceeds(c, w, base, o, st, turn, acc, sig, count, batch.log, outcomes, batch);
    }
  }

  lemma CutSucceeds(c: Config, w: World, base: Usage, o: Origin, issued: Log, p: nat, turn: nat, calls: seq<ToolCall>,
                    log: Log)
    requires JustIssued(c, w, o, issued, p, turn, calls) && LogFacts.Worked(issued, log, turn, calls)
    ensures Succeeds(c, w, base, o, CutShort(w, turn, log))
  {
    var out := CutShort(w, turn, log);
    assert out.log[p] == issued[p];
    EndsOnCalls(c, w, base, o, issued, p, turn, calls, out);
  }

  lemma DoneSucceeds(c: Config, w: World, base: Usage, o: Origin, st: State, turn: nat, acc: Acc, sig: string,
                     count: nat, log: Log, outcomes: seq<Reply>, batch: BatchReply)
    requires Taken(c, w, base, o, st, turn, acc) && |outcomes| == |acc.toolCalls|
    requires JustIssued(c, w, o, st.log + [Issued(turn, acc.toolCalls)], |st.log|, turn, acc.toolCalls)
    requires LogFacts.Worked(st.log + [Issued(turn, acc.toolCalls)], log, turn, acc.toolCalls)
    requires log[|st.log|].Issued? && ComeTo(c, w, log, |st.log|, |log|, outcomes)
    requires batch == BatchDone(ResultsOf(outcomes), PendingOf(acc.toolCalls, outcomes), log)
    requires batch.pending == [] <==> forall k :: 0 <= k < |outcomes| ==> outcomes[k].Answered?
    requires batch.pending == [] ==> Answers(outcomes, batch.results)
    ensures PhaseSucceeds(c, w, base, o,
                          AfterBatch(c, w, st.(repeatSig := sig, repeatCount := count), turn, acc, batch), turn)
  {
    var issued := st.log + [Issued(turn, acc.toolCalls)];
    if batch.pending != [] {
      var cp := Checkpoint(st.conversation, turn, st.usage, acc.stopReason, acc.toolCalls, batch.results);
      WaitSucceeds(c, w, base, o, issued, |st.log|, turn, acc.toolCalls, log, outcomes, cp);
    } else {
      AllDoneSucceeds(c, w, base, o, st, st.(repeatSig := sig, repeatCount := count, log := log), turn, acc, outcomes,
                      batch.results);
    }
  }

  lemma AllDoneSucceeds(c: Config, w: World, base: Usage, o: Origin, st: State, st1: State, turn: nat, acc: Acc,
                        outcomes: seq<Reply>, results: seq<ToolResult>)
    requires Taken(c, w, base, o, st, turn, acc)
    requires st1.conversation == st.conversation && st1.usage == st.usage
    requires JustIssued(c, w, o, st.log + [Issued(turn, acc.toolCalls)], |st.log|, turn, acc.toolCalls)
    requires LogFacts.Worked(st.log + [Issued(turn, acc.toolCalls)], st1.log, turn, acc.toolCalls)
    requires st1.log[|st.log|].Issued? && ComeTo(c, w, st1.log, |st.log|, |st1.log|, outcomes)
    requires Answers(outcomes, results)
    ensures PhaseSucceeds(c, w, base, o, AfterTools(c, w, st1, turn, results, acc.usage), turn)
  {
    var st2 := st1.(conversation := st.conversation + ToolResultMessages(results));
    RunFacts.SpentSame(st.log, st1.log);
    Grows(w, st, acc.toolCalls, turn, st1.log, results);
    AnsweredSucceeds(c, w, base, o, st.log + [Issued(turn, acc.toolCalls)], |st.log|, st2, turn, acc, outcomes,
                     results);
  }

  lemma WaitSucceeds(c: Config, w: World, base: Usage, o: Origin, issued: Log, p: nat, turn: nat,
                     calls: seq<ToolCall>, log: Log, outcomes: seq<Reply>, cp: Checkpoint)
    requires JustIssued(c, w, o, issued, p, turn, calls) && LogFacts.Worked(issued, log, turn, calls)
    requires log[p].Issued? && ComeTo(c, w, log, p, |log|, outcomes)
    requires exists k: nat :: k < |outcomes| && outcomes[k].Deferred?
    requires cp.results == ResultsOf(outcomes)
    ensures Succeeds(c, w, base, o, Pause(w, cp, log))
  {
    var out := Pause(w, cp, log);
    PauseBetween(w, issued, turn, calls, log, cp);
    PausePostpones(c, w, p, log, outcomes, out);
    PauseSucceeds(c, w, base, o, issued, p, turn, calls, out);
  }

  lemma PauseBetween(w: World, issued: Log, turn: nat, calls: seq<ToolCall>, log: Log, cp: Checkpoint)
    requires LogFacts.Worked(issued, log, turn, calls)
    ensures Between(issued, Pause(w, cp, log).log)
  {
  }

  lemma PauseSucceeds(c: Config, w: World, base: Usage, o: Origin, issued: Log, p: nat, turn: nat,
                      calls: seq<ToolCall>, out: RunOut)
    requires JustIssued(c, w, o, issued, p, turn, calls) && Between(issued, out.log)
    requires p < |out.log| && out.log[p].Issued? && Postpones(c, w, out, p)
    ensures Succeeds(c, w, base, o, out)
  {
    assert StopsAfter(c, w, base, out, p);
    EndsOnCalls(c, w, base, o, issued, p, turn, calls, out);
  }

  lemma PausePostpones(c: Config, w: World, p: nat, log: Log, outcomes: seq<Reply>, out: RunOut)
    requires log <= out.log && p < |log| && log[p].Issued? && ComeTo(c, w, log, p, |log|, outcomes)
    requires exists k: nat :: k < |outcomes| && outcomes[k].Deferred?
    requires out.end.Suspended? && out.end.checkpoint.results == ResultsOf(outcomes)
    ensures out.log[p] == log[p] && Postpones(c, w, out, p)
  {
    StillComeTo(c, w, log, out.log, p, |log|, outcomes);
    var k: nat :| k < |outcomes| && outcomes[k].Deferred?;
    OnePostponed(c, w, out, p, |log|, outcomes, k);
  }

  lemma OnePostponed(c: Config, w: World, out: RunOut, p: nat, m: nat, outcomes: seq<Reply>, k: nat)
    requires p < |out.log| && out.log[p].Issued? && ComeTo(c, w, out.log, p, m, outcomes)
    requires k < |outcomes| && outcomes[k].Deferred?
    requires out.end.Suspended? && out.end.checkpoint.results == ResultsOf(outcomes)
    ensures Postpones(c, w, out, p)
  {
  }

  /** All calls answered: the conversation is compacted if that is due, and the turn over. */
  lemma AnsweredSucceeds(c: Config, w: World, base: Usage, o: Origin, issued: Log, p: nat, st: State, turn: nat,
                         acc: Acc, outcomes: seq<Reply>, results: seq<ToolResult>)
    requires JustIssued(c, w, o, issued, p, turn, acc.toolCalls)
    requires LogFacts.Worked(issued, st.log, turn, acc.toolCalls)
    requires st.log[p].Issued? && ComeTo(c, w, st.log, p, |st.log|, outcomes) && Answers(outcomes, results)
    requires st.conversation == Grown(w, st.log, p, results) && acc.usage == Reported(w, st.log, p)
    requires st.usage == base.Add(RunFacts.Spent(st.log))
    ensures PhaseSucceeds(c, w, base, o, Reactive(c, w, st, turn, acc.usage), turn)
  {
    ReactiveShortens(c, w, base, st, turn, acc.usage);
    ReactiveBetween(c, w, st, turn, acc.usage);
    ReactiveUsage(c, w, base, st, turn, acc.usage);
    match Reactive(c, w, st, turn, acc.usage)
    case Over(out) => StallSucceeds(c, w, base, o, issued, p, st, turn, acc.toolCalls, outcomes, results, out);
    case Ready(st') => CarriedOn(c, w, o, issued, p, st, turn, acc.toolCalls, outcomes, results, st');
  }

  lemma StallSucceeds(c: Config, w: World, base: Usage, o: Origin, issued: Log, p: nat, st: State, turn: nat,
                      calls: seq<ToolCall>, outcomes: seq<Reply>, results: seq<ToolResult>, out: RunOut)
    requires JustIssued(c, w, o, issued, p, turn, calls)
    requires LogFacts.Worked(issued, st.log, turn, calls) && Between(st.log, out.log)
    requires st.log[p].Issued? && ComeTo(c, w, st.log, p, |st.log|, outcomes) && Answers(outcomes, results)
    requires Stalls(c, w, base, out, |st.log|, Grown(w, st.log, p, results), Reported(w, st.log, p))
    ensures Succeeds(c, w, base, o, out)
  {
    StillComeTo(c, w, st.log, out.log, p, |st.log|, outcomes);
    assert out.log[..p] == st.log[..p] && out.log[p] == issued[p];
    assert StallsAfter(c, w, base, out, p);
    EndsOnCalls(c, w, base, o, issued, p, turn, calls, out);
  }

  lemma CarriedOn(c: Config, w: World, o: Origin, issued: Log, p: nat, st: State, turn: nat, calls: seq<ToolCall>,
                  outcomes: seq<Reply>, results: seq<ToolResult>, st': State)
    requires JustIssued(c, w, o, issued, p, turn, calls)
    requires LogFacts.Worked(issued, st.log, turn, calls) && Between(st.log, st'.log)
    requires st.log[p].Issued? && ComeTo(c, w, st.log, p, |st.log|, outcomes) && Answers(outcomes, results)
    requires Shortens(c, w, st'.log, |st.log|, Grown(w, st.log, p, results), Reported(w, st.log, p), |st'.log|,
                      st'.conversation)
    ensures Prepared(c, w, o, st', turn + 1)
  {
    StillComeTo(c, w, st.log, st'.log, p, |st.log|, outcomes);
    assert st'.log[..p] == st.log[..p] && st'.log[p] == issued[p];
    assert CarriesOnBy(c, w, st'.log, p, |st.log|, outcomes, results, |st'.log|, st'.conversation);
    GoesOn(c, w, o, issued, p, turn, calls, st');
  }

  lemma ReactiveBetween(c: Config, w: World, st: State, turn: nat, reported: Usage)
    ensures Between(st.log, PhaseLog(Reactive(c, w, st, turn, reported)))
  {
    if w.compactor.Some? {
      CompactBetween(c, w, st, turn, reported);
    }
  }

  lemma CompactUsage(c: Config, w: World, base: Usage, st: State, turn: nat, reported: Usage)
    requires w.compactor.Some? && st.usage == base.Add(RunFacts.Spent(st.log))
    ensures var next := Compact(c, w, st, turn, reported);
            next.Ready? ==> next.st.usage == base.Add(RunFacts.Spent(next.st.log))
  {
    match w.compactor.value(|st.log|, st.conversation, reported)
    case CompactFailed(_) =>
    case Shrunk(_, used) =>
      assert (st.log + [Compacted(used)])[..|st.log|] == st.log;
      RunFacts.AddAssociates(base, RunFacts.Spent(st.log), used);
  }

  lemma ReactiveUsage(c: Config, w: World, base: Usage, st: State, turn: nat, reported: Usage)
    requires st.usage == base.Add(RunFacts.Spent(st.log))
    ensures var next := Reactive(c, w, st, turn, reported);
            next.Ready? ==> next.st.usage == base.Add(RunFacts.Spent(next.st.log))
  {
    if w.compactor.Some? {
      CompactUsage(c, w, base, st, turn, reported);
    }
  }

  // ---- turns ----

  lemma AskAndActSucceeds(c: Config, w: World, base: Usage, o: Origin, st: State, turn: nat, request: seq<Message>)
    requires AllBegin(c, w, o, st.log + [Ask(turn, 0, st.conversation, request)])
    requires st.usage == base.Add(RunFacts.Spent(st.log))
    ensures PhaseSucceeds(c, w, base, o, AskAndAct(c, w, st, turn, request), turn)
  {
    var reply := StreamTurn(c, w, turn, 0, st.conversation, request, st.log);
    AskReasks(c, w, turn, 0, st.conversation, request, st.log);
    StreamTurnAsks(c, w, turn, 0, st.conversation, request, st.log);
    StreamTurnTakes(c, w, turn, 0, st.conversation, request, st.log);
    AsksOn(c, w, o, st.log, turn, st.conversation, request, TurnReplyLog(reply));
    match reply
    case NotTaken(out) => EndsAsking(c, w, base, o, out.log, out);
    case Took(acc, log) => TookSucceeds(c, w, base, o, st, turn, request, acc, log);
  }

  lemma AsksOn(c: Config, w: World, o: Origin, log: Log, turn: nat, conversation: seq<Message>, request: seq<Message>,
               later: Log)
    requires AllBegin(c, w, o, log + [Ask(turn, 0, conversation, request)])
    requires NoNewTurn(log + [Ask(turn, 0, conversation, request)], later) && Asked(log, later, turn, conversation)
    ensures Asking(c, w, o, later)
  {
    var asked := log + [Ask(turn, 0, conversation, request)];
    assert LastAsk(asked) == |log|;
    StillAsking(c, w, o, asked, later);
  }

  lemma TookSucceeds(c: Config, w: World, base: Usage, o: Origin, st: State, turn: nat, request: seq<Message>,
                     acc: Acc, log: Log)
    requires StreamTurn(c, w, turn, 0, st.conversation, request, st.log) == Took(acc, log)
    requires Asking(c, w, o, log) && Asked(st.log, log, turn, st.conversation)
    requires st.usage == base.Add(RunFacts.Spent(st.log))
    requires Takes(w, Took(acc, log), |st.log|, turn, st.conversation)
    ensures PhaseSucceeds(c, w, base, o, AskAndAct(c, w, st, turn, request), turn)
  {
    AbsorbTaken(c, w, base, o, st, turn, acc, log);
    if acc.toolCalls == [] {
      EndsAsking(c, w, base, o, log, AskAndAct(c, w, st, turn, request).out);
    } else {
      RunToolsSucceeds(c, w, base, o, Absorb(st, turn, acc, log), turn, acc);
    }
  }

  /** A turn that does not get to asking ends the run on the calls before it, or at its
      start. */
  lemma EndsBefore(c: Config, w: World, base: Usage, o: Origin, st: State, turn: nat, out: RunOut)
    requires Prepared(c, w, o, st, turn) && Between(st.log, out.log)
    requires StopsBefore(c, w, base, out, |st.log|, st.conversation, turn)
    ensures Succeeds(c, w, base, o, out)
  {
    StillAllBegin(c, w, o, st.log, out.log);
    AsksLast(st.log, out.log);
    forall p: nat | LastAsk(out.log) < p < |out.log| && out.log[p].Issued?
      ensures StopsAfter(c, w, base, out, p)
    {
      LastCallsEnd(c, w, base, o, st, turn, p, out);
    }
  }

  lemma LastCallsEnd(c: Config, w: World, base: Usage, o: Origin, st: State, turn: nat, p: nat, out: RunOut)
    requires Prepared(c, w, o, st, turn) && Between(st.log, out.log)
    requires LastAsk(st.log) < p < |out.log| && out.log[p].Issued?
    requires StopsBefore(c, w, base, out, |st.log|, st.conversation, turn)
    ensures StopsAfter(c, w, base, out, p)
  {
    assert p < |st.log| && out.log[p] == st.log[p];
    CalledAt(c, w, o, st, turn, p);
    CallsEnd(c, w, base, st.log, p, |st.log|, st.conversation, turn, out);
  }

  lemma CallsEnd(c: Config, w: World, base: Usage, log: Log, p: nat, n: nat, conversation: seq<Message>, turn: nat,
                 out: RunOut)
    requires p < |log| && log[p].Issued? && CarriesOn(c, w, log, p, n, conversation) && log <= out.log
    requires turn == log[p].turn + 1 && StopsBefore(c, w, base, out, n, conversation, turn)
    ensures out.log[p] == log[p] && StopsAfter(c, w, base, out, p)
  {
    StillCarriesOn(c, w, log, out.log, p, n, conversation);
    NextEnds(c, w, base, out, p, n, conversation);
  }

  lemma NextEnds(c: Config, w: World, base: Usage, out: RunOut, p: nat, n: nat, conversation: seq<Message>)
    requires p < |out.log| && out.log[p].Issued? && CarriesOn(c, w, out.log, p, n, conversation)
    requires StopsBefore(c, w, base, out, n, conversation, out.log[p].turn + 1)
    ensures StopsNext(c, w, base, out, p)
  {
  }

  lemma TurnSucceeds(c: Config, w: World, base: Usage, o: Origin, st: State, turn: nat)
    requires Prepared(c, w, o, st, turn) && st.usage == base.Add(RunFacts.Spent(st.log)) && turn < c.MaxTurns()
    ensures PhaseSucceeds(c, w, base, o, Turn(c, w, st, turn), turn)
  {
    ProactiveShortens(c, w, base, st, turn);
    ProactiveBetween(c, w, st, turn);
    ProactiveUsage(c, w, base, st, turn);
    match Proactive(c, w, st, turn)
    case Over(out) => EndsBefore(c, w, base, o, st, turn, out);
    case Ready(st1) =>
      match Prepare(w, st1, turn)
      case Fail(err) => HookEnds(c, w, base, o, st, turn, st1, err);
      case Ok(request) => Asks(c, w, base, o, st, turn, st1, request);
  }

  lemma HookEnds(c: Config, w: World, base: Usage, o: Origin, st: State, turn: nat, st1: State, err: Err)
    requires Prepared(c, w, o, st, turn) && turn < c.MaxTurns() && Between(st.log, st1.log)
    requires Shortens(c, w, st1.log, |st.log|, st.conversation, Estimated(w, |st.log|, st.conversation), |st1.log|,
                      st1.conversation)
    requires Prepare(w, st1, turn) == Fail(err)
    ensures Succeeds(c, w, base, o, FailWith(w, turn, Wrapped("prepare request hook", err), st1.log))
  {
    var out := FailWith(w, turn, Wrapped("prepare request hook", err), st1.log);
    StillShortens(c, w, st1.log, out.log, |st.log|, st.conversation, Estimated(w, |st.log|, st.conversation),
                  |st1.log|, st1.conversation);
    HookStops(c, w, base, out, |st.log|, st.conversation, turn, |st1.log|, st1.conversation, err);
    EndsBefore(c, w, base, o, st, turn, out);
  }

  lemma HookStops(c: Config, w: World, base: Usage, out: RunOut, m: nat, conversation: seq<Message>, turn: nat, n: nat,
                  shorter: seq<Message>, err: Err)
    requires turn < c.MaxTurns()
    requires Shortens(c, w, out.log, m, conversation, Estimated(w, m, conversation), n, shorter)
    requires RefusedByHook(w, n, turn, shorter, err) && EndsWith(out, n, Wrapped("prepare request hook", err))
    ensures StopsBefore(c, w, base, out, m, conversation, turn)
  {
  }

  lemma Asks(c: Config, w: World, base: Usage, o: Origin, st: State, turn: nat, st1: State, request: seq<Message>)
    requires Prepared(c, w, o, st, turn) && turn < c.MaxTurns() && Between(st.log, st1.log)
    requires Shortens(c, w, st1.log, |st.log|, st.conversation, Estimated(w, |st.log|, st.conversation), |st1.log|,
                      st1.conversation)
    requires Prepare(w, st1, turn) == Ok(request) && st1.usage == base.Add(RunFacts.Spent(st1.log))
    ensures PhaseSucceeds(c, w, base, o, AskAndAct(c, w, st1, turn, request), turn)
  {
    LeadsNow(c, w, st1.log, |st.log|, st.conversation, turn, st1.conversation, request);
    BeginsNext(c, w, o, st, turn, st1.log, request, st1.conversation);
    AskAndActSucceeds(c, w, base, o, st1, turn, request);
  }

  lemma ProactiveBetween(c: Config, w: World, st: State, turn: nat)
    ensures Between(st.log, PhaseLog(Proactive(c, w, st, turn)))
  {
    if w.compactor.Some? {
      CompactBetween(c, w, st, turn, Estimated(w, |st.log|, st.conversation));
    }
  }

  lemma ProactiveUsage(c: Config, w: World, base: Usage, st: State, turn: nat)
    requires st.usage == base.Add(RunFacts.Spent(st.log))
    ensures var next := Proactive(c, w, st, turn);
            next.Ready? ==> next.st.usage == base.Add(RunFacts.Spent(next.st.log))
  {
    if w.compactor.Some? {
      CompactUsage(c, w, base, st, turn, Estimated(w, |st.log|, st.conversation));
    }
  }

  lemma LimitEnds(c: Config, w: World, base: Usage, o: Origin, st: State, turn: nat)
    requires Prepared(c, w, o, st, turn) && turn >= c.MaxTurns()
    ensures Succeeds(c, w, base, o, Turns(c, w, st, turn))
  {
    var out := FailWith(w, c.MaxTurns(), MaxTurnsReached, st.log);
    LimitStops(c, w, base, out, |st.log|, st.conversation, turn);
    EndsBefore(c, w, base, o, st, turn, out);
  }

  lemma LimitStops(c: Config, w: World, base: Usage, out: RunOut, m: nat, conversation: seq<Message>, turn: nat)
    requires turn >= c.MaxTurns() && EndsWith(out, m, MaxTurnsReached)
    ensures StopsBefore(c, w, base, out, m, conversation, turn)
  {
  }

  lemma PhaseOver(c: Config, w: World, base: Usage, o: Origin, next: Phase, turn: nat)
    requires PhaseSucceeds(c, w, base, o, next, turn)
    ensures next.Ready? ==>
              Prepared(c, w, o, next.st, turn + 1) && next.st.usage == base.Add(RunFacts.Spent(next.st.log))
    ensures next.Over? ==> Succeeds(c, w, base, o, next.out)
  {
  }

  lemma OneTurn(c: Config, w: World, base: Usage, o: Origin, st: State, turn: nat) returns (next: Phase)
    requires Prepared(c, w, o, st, turn) && st.usage == base.Add(RunFacts.Spent(st.log)) && turn < c.MaxTurns()
    ensures next.Ready? ==>
              && Prepared(c, w, o, next.st, turn + 1) && next.st.usage == base.Add(RunFacts.Spent(next.st.log))
              && Turns(c, w, st, turn) == Turns(c, w, next.st, turn + 1)
    ensures next.Over? ==> Succeeds(c, w, base, o, Turns(c, w, st, turn))
  {
    next := NextPhase(c, w, st, turn);
    TurnSucceeds(c, w, base, o, st, turn);
    PhaseOver(c, w, base, o, next, turn);
  }

  lemma {:induction false} TurnsSucceed(c: Config, w: World, base: Usage, o: Origin, st: State, turn: nat)
    requires Prepared(c, w, o, st, turn) && st.usage == base.Add(RunFacts.Spent(st.log))
    ensures Succeeds(c, w, base, o, Turns(c, w, st, turn))
    decreases c.MaxTurns() - turn
  {
    if turn >= c.MaxTurns() {
      LimitEnds(c, w, base, o, st, turn);
    } else {
      var next := OneTurn(c, w, base, o, st, turn);
      if next.Ready? {
        TurnsSucceed(c, w, base, o, next.st, turn + 1);
      }
    }
  }

  /** Over a whole run: the first turn is turn 0 on the input, and each turn after it is the
      next, on the conversation the turn before was about, its message and its results;
      compacted where that is due, after a batch by the usage reported and before asking by
      the estimate, and passed through the request hook. Where no turn follows, the run ends
      for one of the reasons there are, the turn limit among them. */
  lemma RunSucceeds(c: Config, w: World, input: seq<Message>)
    ensures Succeeds(c, w, Usage(0, 0, 0, 0, 0), Origin(0, input, 0), Run(c, w, input))
  {
    var st := State(input, ZERO_USAGE, "", "", "", 0, []);
    StartSucceeds(c, w, Usage(0, 0, 0, 0, 0), Origin(0, input, 0), st, 0);
  }

  lemma StartSucceeds(c: Config, w: World, base: Usage, o: Origin, st: State, turn: nat)
    requires base == ZERO_USAGE == st.usage && st.log == [] && o == Origin(0, st.conversation, turn)
    ensures Succeeds(c, w, base, o, Turns(c, w, st, turn))
  {
    RunFacts.NothingUsed(c, base);
    StartPrepared(c, w, o, st, turn);
    StartUsage(base, st);
    TurnsSucceed(c, w, base, o, st, turn);
  }

  lemma StartPrepared(c: Config, w: World, o: Origin, st: State, turn: nat)
    requires st.log == [] && o == Origin(0, st.conversation, turn)
    ensures Prepared(c, w, o, st, turn)
  {
  }

  lemma StartUsage(base: Usage, st: State)
    requires st.usage == base && base.Add(ZERO_USAGE) == base && st.log == []
    ensures st.usage == base.Add(RunFacts.Spent(st.log))
  {
  }

  /** A resumed run whose calls are all answered starts from the turn after its checkpoint's,
      on the checkpoint's messages and those answers. */
  lemma ResumeSucceeds(c: Config, w: World, cp: Checkpoint, decisions: map<string, Approval>)
    ensures var r := DecideCalls(w, cp.turn, cp.calls, decisions, 0, ByID(cp.results), false, []);
            r.Resumed? && !r.stillPending ==>
              var start := cp.messages + ToolResultMessages(InCallOrder(cp.calls, r.byID));
              Succeeds(c, w, cp.usage, Origin(|r.log|, start, cp.turn + 1), Resume(c, w, cp, decisions))
  {
    DecideCallsWorks(w, cp.turn, cp.calls, decisions, 0, ByID(cp.results), false, []);
    ProceedSucceeds(c, w, cp, DecideCalls(w, cp.turn, cp.calls, decisions, 0, ByID(cp.results), false, []));
  }

  lemma ProceedSucceeds(c: Config, w: World, cp: Checkpoint, r: ResumeReply)
    requires LogFacts.Worked([], r.log, cp.turn, cp.calls)
    ensures r.Resumed? && !r.stillPending ==>
              var start := cp.messages + ToolResultMessages(InCallOrder(cp.calls, r.byID));
              Succeeds(c, w, cp.usage, Origin(|r.log|, start, cp.turn + 1), Proceed(c, w, cp, r))
  {
    if r.Resumed? && !r.stillPending {
      var st := ResumedState(cp, InCallOrder(cp.calls, r.byID), r.log);
      var o := Origin(|r.log|, st.conversation, cp.turn + 1);
      StartsPrepared(c, w, o, st);
      TurnsSucceed(c, w, cp.usage, o, st, cp.turn + 1);
    }
  }

  lemma StartsPrepared(c: Config, w: World, o: Origin, st: State)
    requires o.moment == |st.log| && o.conversation == st.conversation
    requires forall k: nat :: k < |st.log| ==> IsDelivery(st.log[k]) || st.log[k].ToolStep?
    ensures Prepared(c, w, o, st, o.turn) && st.usage == st.usage.Add(RunFacts.Spent(st.log))
  {
    RunFacts.SpentSame([], st.log);
  }
}

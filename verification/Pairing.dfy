/** Tool uses and tool results stay together: the invariant providers rely on,
    kept by every run, resume and compaction. */
module Pairing {
  import opened Gage
  import opened Accumulate
  import opened ToolCalls
  import opened RunLog
  import opened Goroutines
  import opened AgentLoop
  import opened Batches
  import opened LogFacts

  /** The tool uses of an assistant message. */
  function Uses(m: Message): seq<ToolCall> {
    if m.role.RoleAssistant? then CallsOf(m.content) else []
  }

  predicate IsAnswer(m: Message, id: string) {
    m.role.RoleTool? && |m.content| == 1 && m.content[0].ToolResultPart? && m.content[0].result.callID == id
  }

  /** The messages from `at` on begin with the answers to `uses`, in order. */
  predicate AnswersAt(uses: seq<ToolCall>, msgs: seq<Message>, at: nat) {
    at + |uses| <= |msgs| && forall k :: 0 <= k < |uses| ==> IsAnswer(msgs[at + k], uses[k].id)
  }

  /** Read front to back: no tool message leads a group, and an assistant message
      with n tool uses is followed by the n answers. */
  predicate Paired(msgs: seq<Message>)
    decreases |msgs|
  {
    msgs == [] ||
    (&& !msgs[0].role.RoleTool?
     && AnswersAt(Uses(msgs[0]), msgs, 1)
     && Paired(msgs[1 + |Uses(msgs[0])|..]))
  }

  /** Each assistant message is followed at once by exactly its answers. */
  ghost predicate EveryUseAnswered(msgs: seq<Message>) {
    forall i: nat :: i < |msgs| ==> AnswersAt(Uses(msgs[i]), msgs, i + 1)
  }

  /** Position `j` is one of the messages right behind `i` that answer its uses. */
  ghost predicate Covers(msgs: seq<Message>, i: nat, j: nat) {
    i < j < |msgs| && j <= i + |Uses(msgs[i])|
  }

  /** A tool message stands nowhere but behind the message it answers. */
  ghost predicate NoStrayAnswer(msgs: seq<Message>) {
    forall j: nat :: j < |msgs| && msgs[j].role.RoleTool? ==> exists i: nat :: Covers(msgs, i, j)
  }

  /** `Paired` says what it should of every single position. */
  lemma {:induction false} PairedMeans(msgs: seq<Message>)
    ensures Paired(msgs) <==> EveryUseAnswered(msgs) && NoStrayAnswer(msgs)
    decreases |msgs|
  {
    if msgs != [] {
      if EveryUseAnswered(msgs) && NoStrayAnswer(msgs) {
        LeaderIsNoAnswer(msgs);
      }
      if !msgs[0].role.RoleTool? && AnswersAt(Uses(msgs[0]), msgs, 1) {
        var n := 1 + |Uses(msgs[0])|;
        PairedMeans(msgs[n..]);
        UsesOfRest(msgs, n);
        StraysOfRest(msgs, n);
      }
    }
  }

  lemma LeaderIsNoAnswer(msgs: seq<Message>)
    requires msgs != [] && EveryUseAnswered(msgs) && NoStrayAnswer(msgs)
    ensures !msgs[0].role.RoleTool? && AnswersAt(Uses(msgs[0]), msgs, 1)
  {
    assert forall i: nat :: !Covers(msgs, i, 0);
  }

  lemma UsesOfRest(msgs: seq<Message>, n: nat)
    requires msgs != [] && n == 1 + |Uses(msgs[0])| && AnswersAt(Uses(msgs[0]), msgs, 1)
    ensures EveryUseAnswered(msgs) <==> EveryUseAnswered(msgs[n..])
  {
    var rest := msgs[n..];
    forall i: nat | i < |msgs|
      ensures i < n ==> AnswersAt(Uses(msgs[i]), msgs, i + 1)
      ensures i >= n ==> (AnswersAt(Uses(msgs[i]), msgs, i + 1) <==> AnswersAt(Uses(rest[i - n]), rest, i - n + 1))
    {
      if 0 < i < n {
        assert IsAnswer(msgs[1 + (i - 1)], Uses(msgs[0])[i - 1].id);
      } else if i >= n {
        Shifted(Uses(msgs[i]), msgs, n, i - n + 1);
      }
    }
    if EveryUseAnswered(msgs) {
      forall i: nat | i < |rest|
        ensures AnswersAt(Uses(rest[i]), rest, i + 1)
      {
        assert AnswersAt(Uses(msgs[i + n]), msgs, i + n + 1);
      }
    }
  }

  lemma Shifted(uses: seq<ToolCall>, msgs: seq<Message>, n: nat, at: nat)
    requires n <= |msgs|
    ensures AnswersAt(uses, msgs, n + at) <==> AnswersAt(uses, msgs[n..], at)
  {
    forall k | 0 <= k < |uses| && at + |uses| <= |msgs| - n
      ensures IsAnswer(msgs[n..][at + k], uses[k].id) <==> IsAnswer(msgs[n + at + k], uses[k].id)
    {
    }
  }

  lemma StraysOfRest(msgs: seq<Message>, n: nat)
    requires msgs != [] && !msgs[0].role.RoleTool?
    requires n == 1 + |Uses(msgs[0])| && AnswersAt(Uses(msgs[0]), msgs, 1)
    ensures NoStrayAnswer(msgs) <==> NoStrayAnswer(msgs[n..])
  {
    var rest := msgs[n..];
    forall i: nat | 0 < i < n
      ensures Uses(msgs[i]) == []
    {
      assert IsAnswer(msgs[1 + (i - 1)], Uses(msgs[0])[i - 1].id);
    }
    if NoStrayAnswer(msgs) {
      forall j: nat | j < |rest| && rest[j].role.RoleTool?
        ensures exists i: nat :: Covers(rest, i, j)
      {
        var i: nat :| Covers(msgs, i, j + n);
        assert Covers(rest, i - n, j);
      }
    }
    if NoStrayAnswer(rest) {
      forall j: nat | j < |msgs| && msgs[j].role.RoleTool?
        ensures exists i: nat :: Covers(msgs, i, j)
      {
        if j < n {
          assert Covers(msgs, 0, j);
        } else {
          var i: nat :| Covers(rest, i, j - n);
          assert Covers(msgs, i + n, j);
        }
      }
    }
  }

  // ---- building and cutting paired histories ----

  lemma AnswersKept(uses: seq<ToolCall>, a: seq<Message>, b: seq<Message>, at: nat)
    requires AnswersAt(uses, a, at)
    ensures AnswersAt(uses, a + b, at)
  {
  }

  lemma {:induction false} PairedConcat(a: seq<Message>, b: seq<Message>)
    requires Paired(a) && Paired(b)
    ensures Paired(a + b)
    decreases |a|
  {
    if a == [] {
      assert a + b == b;
    } else {
      var uses := Uses(a[0]);
      PairedConcat(a[1 + |uses|..], b);
      PairedAhead(uses, a, b);
    }
  }

  lemma PairedAhead(uses: seq<ToolCall>, a: seq<Message>, b: seq<Message>)
    requires a != [] && !a[0].role.RoleTool? && uses == Uses(a[0]) && AnswersAt(uses, a, 1)
    requires Paired(a[1 + |uses|..] + b)
    ensures Paired(a + b)
  {
    AnswersKept(uses, a, b, 1);
    DropOfFirst(a, b, 1 + |uses|);
    Leads(uses, a + b);
  }

  lemma Leads(uses: seq<ToolCall>, msgs: seq<Message>)
    requires msgs != [] && !msgs[0].role.RoleTool? && uses == Uses(msgs[0]) && AnswersAt(uses, msgs, 1)
    requires Paired(msgs[1 + |uses|..])
    ensures Paired(msgs)
  {
  }

  lemma DropOfFirst(a: seq<Message>, b: seq<Message>, n: nat)
    requires n <= |a|
    ensures (a + b)[n..] == a[n..] + b
  {
  }

  lemma PairedTurn(m: Message, results: seq<ToolResult>)
    requires !m.role.RoleTool?
    requires IDs(results, Uses(m))
    ensures Paired([m] + ToolResultMessages(results))
  {
    var msgs := [m] + ToolResultMessages(results);
    assert msgs[1 + |Uses(m)|..] == [];
  }

  /** A cut that does not land on a tool message separates no use from its result. */
  lemma {:induction false} PairedSuffix(msgs: seq<Message>, cut: nat)
    requires Paired(msgs) && cut < |msgs| && !msgs[cut].role.RoleTool?
    ensures Paired(msgs[cut..])
    decreases |msgs|
  {
    var uses := Uses(msgs[0]);
    if cut == 0 {
      assert msgs[0..] == msgs;
    } else {
      assert cut <= |uses| ==> IsAnswer(msgs[1 + (cut - 1)], uses[cut - 1].id);
      PairedSuffix(msgs[1 + |uses|..], cut - 1 - |uses|);
      assert msgs[1 + |uses|..][cut - 1 - |uses|..] == msgs[cut..];
    }
  }

  /** What a provider may be sent: a paired history opening with a user message. */
  predicate WellKept(msgs: seq<Message>) {
    msgs != [] && msgs[0].role.RoleUser? && Paired(msgs)
  }

  lemma WellKeptConcat(a: seq<Message>, b: seq<Message>)
    requires WellKept(a) && Paired(b)
    ensures WellKept(a + b)
  {
    PairedConcat(a, b);
  }

  /** The contract of a compactor. */
  ghost predicate CompactorKeeps(w: World) {
    w.compactor.Some? ==>
      forall n: nat, msgs: seq<Message>, u: Usage ::
        WellKept(msgs) && w.compactor.value(n, msgs, u).Shrunk? ==> WellKept(w.compactor.value(n, msgs, u).messages)
  }

  /** Every request made so far was about a well-kept conversation. */
  ghost predicate AsksWellKept(log: Log) {
    forall k :: 0 <= k < |log| && log[k].Ask? ==> WellKept(log[k].conversation)
  }

  /** A checkpoint in mid-turn: paired up to the assistant message that is waiting. */
  ghost predicate Resumable(cp: Checkpoint) {
    && cp.messages != []
    && var last := cp.messages[|cp.messages| - 1];
       && WellKept(cp.messages[..|cp.messages| - 1])
       && last.role.RoleAssistant?
       && CallsOf(last.content) == cp.calls
  }

  ghost predicate EndsWell(end: End) {
    && (end.Finished? ==> WellKept(end.result.messages))
    && (end.Suspended? ==> Resumable(end.checkpoint))
  }

  ghost predicate OutKeeps(out: RunOut) {
    EndsWell(out.end) && AsksWellKept(out.log)
  }

  ghost predicate PhaseKeeps(p: Phase) {
    match p
    case Ready(st) => WellKept(st.conversation) && AsksWellKept(st.log)
    case Over(out) => OutKeeps(out)
  }

  // ---- the tool batches ----

  ghost predicate IDs(results: seq<ToolResult>, calls: seq<ToolCall>) {
    |results| == |calls| && forall k :: 0 <= k < |calls| ==> results[k].callID == calls[k].id
  }

  /** With nothing pending, every call has its answer, at its place. */
  lemma {:induction false} NoneMissing(calls: seq<ToolCall>, outcomes: seq<Reply>)
    requires |calls| == |outcomes| && PendingOf(calls, outcomes) == []
    requires forall k :: 0 <= k < |calls| && outcomes[k].Answered? ==> outcomes[k].result.callID == calls[k].id
    ensures IDs(ResultsOf(outcomes), calls)
    decreases |calls|
  {
    if calls != [] {
      var n := |calls| - 1;
      NoneMissing(calls[..n], outcomes[..n]);
    }
  }

  lemma OutcomeUnderOwnID(b: Batch, k: nat, r: Reply)
    requires KeepsCallIDs(b.toolbox) && k < |b.calls| == |b.forced| && CouldComeTo(b, k, r)
    requires b.forced[k].Some? ==> b.forced[k].value.callID == b.calls[k].id
    ensures r.Answered? ==> r.result.callID == b.calls[k].id
  {
    if b.forced[k].None? {
      var n: nat :| r == ExecTool(b.toolbox, n, b.turn, b.calls[k], None);
      AnswersUnderOwnID(b.toolbox, n, b.turn, b.calls[k], None);
    }
  }

  /** A batch with nothing pending, run either way, answers each call in order. */
  lemma BatchAnswers(c: Config, w: World, turn: nat, calls: seq<ToolCall>, forced: seq<Option<ToolResult>>, log: Log)
    requires KeepsCallIDs(w.toolbox) && |forced| == |calls|
    requires forall k :: 0 <= k < |calls| && forced[k].Some? ==> forced[k].value.callID == calls[k].id
    ensures var r := RunBatch(c, w, turn, calls, forced, log);
            r.BatchDone? && r.pending == [] ==> IDs(r.results, calls)
  {
    var outcomes := BatchFacts(c, w, turn, calls, forced, log);
    var r := RunBatch(c, w, turn, calls, forced, log);
    if r.BatchDone? && r.pending == [] {
      forall k: nat | k < |calls|
        ensures outcomes[k].Answered? ==> outcomes[k].result.callID == calls[k].id
      {
        var b := BatchOf(c, w, turn, calls, forced);
        CameIsCould(b, log, r.log, k, outcomes[k]);
        OutcomeUnderOwnID(b, k, outcomes[k]);
      }
      NoneMissing(calls, outcomes);
    }
  }

  lemma {:induction false} GuardForcesOwnIDs(limit: nat, calls: seq<ToolCall>, sig: string, count: nat)
    ensures var r := Guard(limit, calls, sig, count);
            r.Passed? ==> forall k :: 0 <= k < |calls| && r.forced[k].Some? ==> r.forced[k].value.callID == calls[k].id
    decreases |calls|
  {
    if calls != [] {
      var n := if Signature(calls[0]) == sig then count + 1 else 1;
      GuardForcesOwnIDs(limit, calls[1..], Signature(calls[0]), n);
    }
  }

  ghost predicate KeyedByID(byID: map<string, ToolResult>) {
    forall id :: id in byID ==> byID[id].callID == id
  }

  lemma {:induction false} ByIDKeyed(results: seq<ToolResult>)
    ensures KeyedByID(ByID(results))
  {
    if results != [] {
      ByIDKeyed(results[..|results| - 1]);
    }
  }

  lemma {:induction false} DecideCallsAnswers(w: World, turn: nat, calls: seq<ToolCall>,
                                              decisions: map<string, Approval>, i: nat, byID: map<string, ToolResult>,
                                              stillPending: bool, log: Log)
    requires KeepsCallIDs(w.toolbox)
    requires i <= |calls| && KeyedByID(byID)
    requires !stillPending ==> forall k :: 0 <= k < i ==> calls[k].id in byID
    ensures var r := DecideCalls(w, turn, calls, decisions, i, byID, stillPending, log);
            r.Resumed? ==>
              && KeyedByID(r.byID)
              && (!r.stillPending ==> forall k :: 0 <= k < |calls| ==> calls[k].id in r.byID)
    decreases |calls| - i
  {
    if i < |calls| {
      var tc := calls[i];
      if tc.id in byID {
        DecideCallsAnswers(w, turn, calls, decisions, i + 1, byID, stillPending, log);
      } else if tc.id !in decisions {
        DecideCallsAnswers(w, turn, calls, decisions, i + 1, byID, true, log);
      } else if w.ctxErr(|log|).None? {
        var reply := ExecTool(w.toolbox, |log|, turn, tc, Some(decisions[tc.id]));
        AnswersUnderOwnID(w.toolbox, |log|, turn, tc, Some(decisions[tc.id]));
        var log1 := log + [ToolStep(turn, i, tc, HowOf(reply))];
        var log2 := Send(w, turn, ToolResultEvent(reply.result), log1);
        if w.delivers(|log1|) {
          DecideCallsAnswers(w, turn, calls, decisions, i + 1, byID[tc.id := reply.result], stillPending, log2);
        }
      }
    }
  }

  lemma {:induction false} InCallOrderAnswers(calls: seq<ToolCall>, byID: map<string, ToolResult>)
    requires KeyedByID(byID) && forall k :: 0 <= k < |calls| ==> calls[k].id in byID
    ensures IDs(InCallOrder(calls, byID), calls)
  {
    if calls != [] {
      InCallOrderAnswers(calls[..|calls| - 1], byID);
    }
  }

  // ---- turns and runs ----

  lemma CompactKeeps(c: Config, w: World, st: State, turn: nat, reported: Usage)
    requires w.compactor.Some? && CompactorKeeps(w)
    requires WellKept(st.conversation) && AsksWellKept(st.log)
    ensures var p := Compact(c, w, st, turn, reported);
            match p
            case Ready(st') => WellKept(st'.conversation) && AsksWellKept(st'.log)
            case Over(out) => EndsWell(out.end) && AsksWellKept(out.log)
  {
  }

  lemma StreamTurnEndsWell(c: Config, w: World, turn: nat, attempt: nat, conversation: seq<Message>,
                           request: seq<Message>, log: Log)
    requires AsksWellKept(log) && WellKept(conversation)
    ensures var r := StreamTurn(c, w, turn, attempt, conversation, request, log);
            && AsksWellKept(TurnReplyLog(r))
            && (r.NotTaken? ==> EndsWell(r.out.end))
            && (r.Took? ==> Sound(r.acc) && CallsOf(Content(r.acc)) == r.acc.toolCalls)
    decreases c.Retries() - attempt
  {
    StreamTurnAsks(c, w, turn, attempt, conversation, request, log);
    var asked := log + [Ask(turn, attempt, conversation, request)];
    match w.stream(|log|, turn, attempt, request)
    case Refused(err) =>
      if attempt < c.Retries() && Retryable(err) && w.ctxErr(|asked|).None? {
        StreamTurnEndsWell(c, w, turn, attempt + 1, conversation, request, asked);
      }
    case Streaming(events) =>
      ConsumeRelays(w, turn, events, EMPTY_ACC, asked);
      ConsumeSound(w, turn, events, EMPTY_ACC, asked);
      match Consume(w, turn, events, EMPTY_ACC, asked)
      case StreamError(ev, log') =>
        if attempt < c.Retries() && Retryable(ErrorOf(ev)) && w.ctxErr(|log'|).None? {
          StreamTurnEndsWell(c, w, turn, attempt + 1, conversation, request, log');
        }
      case _ =>
  }

  lemma {:induction false} ConsumeSound(w: World, turn: nat, events: seq<Event>, acc: Acc, log: Log)
    requires Sound(acc)
    ensures var r := Consume(w, turn, events, acc, log);
            r.Complete? ==> Sound(r.acc) && CallsOf(Content(r.acc)) == r.acc.toolCalls
    decreases |events|
  {
    FlushSound(acc, "");
    if events != [] && !events[0].ErrorEvent? && w.delivers(|log|) {
      TakeSound(acc, events[0]);
      ConsumeSound(w, turn, events[1..], Take(acc, events[0]), Send(w, turn, events[0], log));
    }
  }

  /** The rest of a turn keeps the pairing, whether it goes on, pauses or ends. */
  lemma RunToolsKeeps(c: Config, w: World, st: State, before: seq<Message>, content: seq<Part>, turn: nat, acc: Acc)
    requires KeepsCallIDs(w.toolbox) && CompactorKeeps(w)
    requires WellKept(before) && AsksWellKept(st.log)
    requires st.conversation == before + [Message(RoleAssistant, content)]
    requires CallsOf(content) == acc.toolCalls
    ensures PhaseKeeps(RunTools(c, w, st, turn, acc))
  {
    var calls := acc.toolCalls;
    var guarded := RunGuard(c, st, calls);
    if !OverBudget(c, st.usage) && guarded.Passed? {
      if c.maxToolRepeats > 0 {
        GuardForcesOwnIDs(c.maxToolRepeats, calls, st.repeatSig, st.repeatCount);
      }
      PassedKeeps(c, w, st, before, content, turn, acc, guarded.forced);
    }
  }

  /** A turn's calls once the guard let them pass. */
  lemma PassedKeeps(c: Config, w: World, st: State, before: seq<Message>, content: seq<Part>, turn: nat, acc: Acc,
                    forced: seq<Option<ToolResult>>)
    requires KeepsCallIDs(w.toolbox) && CompactorKeeps(w)
    requires WellKept(before) && AsksWellKept(st.log)
    requires st.conversation == before + [Message(RoleAssistant, content)]
    requires CallsOf(content) == acc.toolCalls && |forced| == |acc.toolCalls|
    requires forall k :: 0 <= k < |forced| && forced[k].Some? ==> forced[k].value.callID == acc.toolCalls[k].id
    requires !OverBudget(c, st.usage) && RunGuard(c, st, acc.toolCalls).Passed?
             && RunGuard(c, st, acc.toolCalls).forced == forced
    ensures PhaseKeeps(RunTools(c, w, st, turn, acc))
  {
    var issued := st.log + [Issued(turn, acc.toolCalls)];
    BatchWorks(c, w, turn, acc.toolCalls, forced, issued);
    BatchAnswers(c, w, turn, acc.toolCalls, forced, issued);
    var batch, guarded := RunBatch(c, w, turn, acc.toolCalls, forced, issued), RunGuard(c, st, acc.toolCalls);
    assert AsksWellKept(batch.log);
    if batch.BatchDone? {
      if batch.pending == [] {
        var st1 := st.(repeatSig := guarded.sig, repeatCount := guarded.count, log := batch.log);
        AfterToolsKeeps(c, w, st1, before, Message(RoleAssistant, content), turn, batch.results, acc.usage);
      } else {
        assert st.conversation[..|st.conversation| - 1] == before;
      }
    }
  }

  /** The answers complete the turn, and compaction keeps what is complete. */
  lemma AfterToolsKeeps(c: Config, w: World, st: State, before: seq<Message>, asst: Message, turn: nat,
                        results: seq<ToolResult>, reported: Usage)
    requires CompactorKeeps(w)
    requires WellKept(before) && AsksWellKept(st.log)
    requires st.conversation == before + [asst] && asst.role.RoleAssistant? && IDs(results, Uses(asst))
    ensures PhaseKeeps(AfterTools(c, w, st, turn, results, reported))
  {
    TurnCompleted(before, asst, results);
    var st' := st.(conversation := st.conversation + ToolResultMessages(results));
    if w.compactor.Some? {
      CompactKeeps(c, w, st', turn, reported);
    }
  }

  lemma TurnCompleted(before: seq<Message>, asst: Message, results: seq<ToolResult>)
    requires WellKept(before) && asst.role.RoleAssistant? && IDs(results, Uses(asst))
    ensures WellKept(before + [asst] + ToolResultMessages(results))
  {
    PairedTurn(asst, results);
    WellKeptConcat(before, [asst] + ToolResultMessages(results));
    assert before + [asst] + ToolResultMessages(results) == before + ([asst] + ToolResultMessages(results));
  }

  lemma AskAndActKeeps(c: Config, w: World, st: State, turn: nat, request: seq<Message>)
    requires KeepsCallIDs(w.toolbox) && CompactorKeeps(w)
    requires WellKept(st.conversation) && AsksWellKept(st.log)
    ensures PhaseKeeps(AskAndAct(c, w, st, turn, request))
  {
    StreamTurnEndsWell(c, w, turn, 0, st.conversation, request, st.log);
    match StreamTurn(c, w, turn, 0, st.conversation, request, st.log)
    case NotTaken(out) =>
    case Took(acc, log) =>
      var st' := Absorb(st, turn, acc, log);
      if acc.toolCalls == [] {
        if Content(acc) != [] {
          TurnCompleted(st.conversation, Message(RoleAssistant, Content(acc)), []);
          assert st'.conversation + ToolResultMessages([]) == st'.conversation;
        }
      } else {
        RunToolsKeeps(c, w, st', st.conversation, Content(acc), turn, acc);
      }
  }

  lemma TurnKeeps(c: Config, w: World, st: State, turn: nat)
    requires KeepsCallIDs(w.toolbox) && CompactorKeeps(w)
    requires WellKept(st.conversation) && AsksWellKept(st.log)
    ensures PhaseKeeps(Turn(c, w, st, turn))
  {
    if w.compactor.Some? {
      CompactKeeps(c, w, st, turn, Usage(w.estimate(|st.log|, st.conversation), 0, 0, 0, 0));
    }
    match Proactive(c, w, st, turn)
    case Over(out) =>
    case Ready(st1) =>
      match Prepare(w, st1, turn)
      case Fail(err) =>
      case Ok(request) => AskAndActKeeps(c, w, st1, turn, request);
  }

  lemma {:induction false} TurnsKeep(c: Config, w: World, st: State, turn: nat)
    requires KeepsCallIDs(w.toolbox) && CompactorKeeps(w)
    requires WellKept(st.conversation) && AsksWellKept(st.log)
    ensures OutKeeps(Turns(c, w, st, turn))
    decreases c.MaxTurns() - turn, 1
  {
    if turn < c.MaxTurns() {
      TurnKeeps(c, w, st, turn);
      RestKeeps(c, w, Turn(c, w, st, turn), turn);
    }
  }

  /** The turns after one that kept the pairing. */
  lemma {:induction false} RestKeeps(c: Config, w: World, p: Phase, turn: nat)
    requires KeepsCallIDs(w.toolbox) && CompactorKeeps(w)
    requires turn < c.MaxTurns() && PhaseKeeps(p)
    ensures OutKeeps(match p case Over(out) => out case Ready(st) => Turns(c, w, st, turn + 1))
    decreases c.MaxTurns() - turn, 0
  {
    if p.Ready? {
      TurnsKeep(c, w, p.st, turn + 1);
    }
  }

  /** Every provider call of a run is about a well-kept conversation; a run that
      finishes leaves one, and one that pauses leaves a checkpoint fit to resume. */
  lemma RunKeepsPairing(c: Config, w: World, input: seq<Message>)
    requires KeepsCallIDs(w.toolbox) && CompactorKeeps(w)
    requires WellKept(input)
    ensures var out := Run(c, w, input);
            EndsWell(out.end) && AsksWellKept(out.log)
  {
    TurnsKeep(c, w, State(input, ZERO_USAGE, "", "", "", 0, []), 0);
  }

  /** The same of a resumed run, whatever the decisions and however many calls of the
      checkpoint were already answered. */
  lemma ResumeKeepsPairing(c: Config, w: World, cp: Checkpoint, decisions: map<string, Approval>)
    requires KeepsCallIDs(w.toolbox) && CompactorKeeps(w)
    requires Resumable(cp)
    ensures var out := Resume(c, w, cp, decisions);
            EndsWell(out.end) && AsksWellKept(out.log)
  {
    ByIDKeyed(cp.results);
    DecideCallsWorks(w, cp.turn, cp.calls, decisions, 0, ByID(cp.results), false, []);
    DecideCallsAnswers(w, cp.turn, cp.calls, decisions, 0, ByID(cp.results), false, []);
    var r := DecideCalls(w, cp.turn, cp.calls, decisions, 0, ByID(cp.results), false, []);
    assert AsksWellKept(r.log);
    ProceedKeeps(c, w, cp, r);
  }

  lemma ProceedKeeps(c: Config, w: World, cp: Checkpoint, r: ResumeReply)
    requires KeepsCallIDs(w.toolbox) && CompactorKeeps(w)
    requires Resumable(cp) && AsksWellKept(r.log)
    requires r.Resumed? && !r.stillPending ==>
               KeyedByID(r.byID) && forall k :: 0 <= k < |cp.calls| ==> cp.calls[k].id in r.byID
    ensures var out := Proceed(c, w, cp, r);
            EndsWell(out.end) && AsksWellKept(out.log)
  {
    if r.Resumed? && !r.stillPending {
      InCallOrderAnswers(cp.calls, r.byID);
      ContinuedKeeps(c, w, cp, InCallOrder(cp.calls, r.byID), r.log);
    }
  }

  lemma ContinuedKeeps(c: Config, w: World, cp: Checkpoint, results: seq<ToolResult>, log: Log)
    requires KeepsCallIDs(w.toolbox) && CompactorKeeps(w)
    requires Resumable(cp) && IDs(results, cp.calls) && AsksWellKept(log)
    ensures OutKeeps(Turns(c, w, ResumedState(cp, results, log), cp.turn + 1))
  {
    var n := |cp.messages| - 1;
    TurnCompleted(cp.messages[..n], cp.messages[n], results);
    assert cp.messages == cp.messages[..n] + [cp.messages[n]];
    TurnsKeep(c, w, ResumedState(cp, results, log), cp.turn + 1);
  }

  // ---- any number of pauses ----

  /** One visit to a paused run: the world it meets, the decisions it brings. */
  datatype Visit = Visit(world: World, decisions: map<string, Approval>)

  /** The runs of a conversation that is resumed for as long as it is paused and
      there are visits left. */
  function Chain(c: Config, out: RunOut, visits: seq<Visit>): seq<RunOut>
    decreases |visits|
  {
    if visits == [] || !out.end.Suspended? then [out]
    else [out] + Chain(c, Resume(c, visits[0].world, out.end.checkpoint, visits[0].decisions), visits[1..])
  }

  /** Over any chain of pauses and resumes, each perhaps in another process, every
      provider call is about a well-kept conversation. */
  lemma {:induction false} ChainKeepsPairing(c: Config, out: RunOut, visits: seq<Visit>)
    requires EndsWell(out.end) && AsksWellKept(out.log)
    requires forall v :: v in visits ==> KeepsCallIDs(v.world.toolbox) && CompactorKeeps(v.world)
    ensures forall r :: r in Chain(c, out, visits) ==> EndsWell(r.end) && AsksWellKept(r.log)
    decreases |visits|
  {
    if visits != [] && out.end.Suspended? {
      ResumeKeepsPairing(c, visits[0].world, out.end.checkpoint, visits[0].decisions);
      ChainKeepsPairing(c, Resume(c, visits[0].world, out.end.checkpoint, visits[0].decisions), visits[1..]);
    }
  }
}

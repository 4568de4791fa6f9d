/** Which inputs keep the final text of a run whatever pauses it: those with no
    assistant text of their own. */
module LostText {
  import opened Gage
  import opened Accumulate
  import opened ToolCalls
  import opened RunLog
  import opened Goroutines
  import opened AgentLoop
  import opened Pairing
  import opened PauseResume

  /** A run on `input` that pauses and is brought to its end by these visits. */
  ghost predicate PausesAndFinishes(c: Config, w: World, direct: World, input: seq<Message>, visits: seq<Visit>) {
    && Steady(w) && Forthright(w, direct) && c.maxToolRepeats <= 0
    && AllFaithful(c, direct, Run(c, w, input).end, visits)
    && Run(c, w, input).end.Suspended? && Visited(c, Run(c, w, input).end, visits).Finished?
  }

  ghost predicate KeepsText(c: Config, w: World, direct: World, input: seq<Message>, visits: seq<Visit>)
    requires PausesAndFinishes(c, w, direct, input, visits)
  {
    FinalTextAfterPauses(c, w, direct, input, visits);
    Visited(c, Run(c, w, input).end, visits).result.text == Run(c, direct, input).end.result.text
  }

  // ---- a model that calls one tool without a word and then says nothing ----

  const CALL := ToolCall("call", "tool", "{}")

  const YES := Approval(true, "", None)

  const ANSWER := ToolResult("call", Plain("done"), false)

  const LIMITS := Config(2, 0, 0, 0, 1, 0)

  function Silence(): (nat, nat, nat, seq<Message>) -> StreamReply {
    (n: nat, turn: nat, attempt: nat, request: seq<Message>) =>
      Streaming(if turn == 0 then [ToolCallDone(CALL)] else [])
  }

  function NoEstimate(): (nat, seq<Message>) -> int {
    (n: nat, msgs: seq<Message>) => 0
  }

  function AnyTool(): string -> bool {
    (name: string) => true
  }

  function Runs(): (nat, nat, string, string) -> ToolOutcome {
    (n: nat, turn: nat, name: string, input: string) => Returned(ANSWER)
  }

  function Always(): nat -> bool {
    (n: nat) => true
  }

  function Never(): nat -> Option<Err> {
    (n: nat) => None
  }

  function InTurn(): Pool -> nat {
    (s: Pool) => 0
  }

  function Replying(reply: ApproverReply): World {
    World(Silence(), None, None, NoEstimate(),
          Toolbox(Some(AnyTool()), None, Some((n: nat, turn: nat, tc: ToolCall) => reply), None, Runs(), None),
          InTurn(), Always(), Never())
  }

  const POSTPONING := Replying(Postponed)

  const ALLOWING := Replying(Decided(YES))

  const CALLING := Acc([ToolUsePart(CALL)], Closed, "", [CALL], ZERO_USAGE, "")

  lemma WorldsFit()
    ensures Steady(POSTPONING) && Forthright(POSTPONING, ALLOWING)
  {
    assert [ToolCallDone(CALL)][1..] == [];
    assert CallsDone([ToolCallDone(CALL)]) == [CALL];
  }

  /** The first turn takes the call in, the second nothing. */
  lemma Streams(reply: ApproverReply, conversation: seq<Message>, log: Log)
    ensures var t0 := StreamTurn(LIMITS, Replying(reply), 0, 0, conversation, conversation, log);
            t0.Took? && t0.acc == CALLING
    ensures var t1 := StreamTurn(LIMITS, Replying(reply), 1, 0, conversation, conversation, log);
            t1.Took? && t1.acc == EMPTY_ACC
  {
    var w, events := Replying(reply), [ToolCallDone(CALL)];
    var asked := log + [Ask(0, 0, conversation, conversation)];
    assert events[1..] == [];
    assert Take(EMPTY_ACC, events[0]) == CALLING;
    assert Consume(w, 0, [], CALLING, Send(w, 0, events[0], asked)).Complete?;
  }

  /** The first turn of the run, up to its tool batch. */
  function Called(input: seq<Message>, reply: ApproverReply): State {
    var s := State(input, ZERO_USAGE, "", "", "", 0, []);
    var r := StreamTurn(LIMITS, Replying(reply), 0, 0, input, input, []);
    Absorb(s, 0, CALLING, if r.Took? then r.log else [])
  }

  lemma CalledIs(input: seq<Message>, reply: ApproverReply)
    ensures Called(input, reply).conversation == input + [Message(RoleAssistant, [ToolUsePart(CALL)])]
    ensures Called(input, reply).lastText == ""
    ensures Turn(LIMITS, Replying(reply), State(input, ZERO_USAGE, "", "", "", 0, []), 0)
         == RunTools(LIMITS, Replying(reply), Called(input, reply), 0, CALLING)
  {
    Streams(reply, input, []);
    assert AccText(CALLING) == "" by {
      assert CALLING.parts[..0] == [];
      assert TextOf(CALLING.parts) == "" + "";
    }
  }

  /** One call, one answer or one call pending. */
  lemma OneCall(reply: ApproverReply, log: Log)
    ensures var r := RunBatch(LIMITS, Replying(reply), 0, [CALL], [None], log);
            && (reply == Postponed ==> r.BatchDone? && r.results == [] && r.pending == [CALL])
            && (reply == Decided(YES) ==> r.BatchDone? && r.results == [ANSWER] && r.pending == [])
  {
    var w := Replying(reply);
    var how := ExecTool(w.toolbox, |log|, 0, CALL, None);
    var worked := log + [ToolStep(0, 0, CALL, HowOf(how))];
    if reply == Postponed {
      assert how == Deferred;
      assert [] + [CALL] == [CALL];
      assert ExecTools(w, 0, [CALL], [None], 1, [], [CALL], worked).BatchDone?;
    } else if reply == Decided(YES) {
      assert how == Answered(ANSWER, Some("{}"));
      assert [] + [ANSWER] == [ANSWER];
      var sent := Send(w, 0, ToolResultEvent(ANSWER), worked);
      assert ExecTools(w, 0, [CALL], [None], 1, [ANSWER], [], sent) == BatchDone([ANSWER], [], sent);
      assert Answer(w, 0, [CALL], [None], 0, [], [], ANSWER, worked) == BatchDone([ANSWER], [], sent);
      assert ExecTools(w, 0, [CALL], [None], 0, [], [], log) == Answer(w, 0, [CALL], [None], 0, [], [], ANSWER, worked);
    }
  }

  /** The second turn ends the run with the text it has. */
  lemma SilentTurn(reply: ApproverReply, st: State)
    ensures var e := Turns(LIMITS, Replying(reply), st, 1).end;
            e.Finished? && e.result.text == st.lastText
  {
    Streams(reply, st.conversation, st.log);
  }

  lemma GoesStraightThrough(input: seq<Message>)
    ensures var e := Run(LIMITS, ALLOWING, input).end;
            e.Finished? && e.result.text == ""
  {
    CalledIs(input, Decided(YES));
    var st := Called(input, Decided(YES));
    OneCall(Decided(YES), st.log + [Issued(0, [CALL])]);
    assert RunGuard(LIMITS, st, [CALL]) == Passed([None], "", 0);
    var p := RunTools(LIMITS, ALLOWING, st, 0, CALLING);
    assert p.Ready? && p.st.lastText == "";
    SilentTurn(Decided(YES), p.st);
  }

  lemma PausingTools(st: State)
    requires st.usage == ZERO_USAGE
    ensures var p := RunTools(LIMITS, POSTPONING, st, 0, CALLING);
            p.Over? && p.out.end == Suspended(Checkpoint(st.conversation, 0, ZERO_USAGE, "", [CALL], []))
  {
    OneCall(Postponed, st.log + [Issued(0, [CALL])]);
    assert RunGuard(LIMITS, st, [CALL]).forced == [None];
  }

  lemma FirstTurnPauses(input: seq<Message>, st: State, p: Phase)
    requires st == Called(input, Postponed) && p == RunTools(LIMITS, POSTPONING, st, 0, CALLING)
    ensures Turn(LIMITS, POSTPONING, State(input, ZERO_USAGE, "", "", "", 0, []), 0) == p
    ensures p.Over? && p.out.end == Suspended(Checkpoint(st.conversation, 0, ZERO_USAGE, "", [CALL], []))
  {
    CalledIs(input, Postponed);
    UsageThen(input);
    PausingTools(st);
  }

  lemma Pauses(c: Config, w: World, input: seq<Message>)
    requires c == LIMITS && w == POSTPONING
    ensures Run(c, w, input).end
         == Suspended(Checkpoint(Called(input, Postponed).conversation, 0, ZERO_USAGE, "", [CALL], []))
  {
    var s, p := State(input, ZERO_USAGE, "", "", "", 0, []), RunTools(c, w, Called(input, Postponed), 0, CALLING);
    FirstTurnPauses(input, Called(input, Postponed), p);
    assert c.MaxTurns() > 0 && Turn(c, w, s, 0) == p;
    assert Turns(c, w, s, 0) == p.out;
  }

  lemma UsageThen(input: seq<Message>)
    ensures Called(input, Postponed).usage == ZERO_USAGE
  {
  }

  /** The pending call is allowed, and the run ends with the text of the input. */
  lemma ContinuesFrom(cp: Checkpoint)
    requires cp.calls == [CALL] && cp.results == [] && cp.turn == 0
    ensures var e := Resume(LIMITS, POSTPONING, cp, map["call" := YES]).end;
            e.Finished? && e.result.text == LastAssistantText(cp.messages)
  {
    var decisions := map["call" := YES];
    assert ByID([]) == map[];
    var how := ExecTool(POSTPONING.toolbox, 0, 0, CALL, Some(YES));
    assert how == Answered(ANSWER, Some("{}"));
    var log := Send(POSTPONING, 0, ToolResultEvent(ANSWER), [] + [ToolStep(0, 0, CALL, HowOf(how))]);
    assert DecideCalls(POSTPONING, 0, [CALL], decisions, 1, map["call" := ANSWER], false, log)
        == Resumed(map["call" := ANSWER], false, log);
    var results := InCallOrder(cp.calls, map["call" := ANSWER]);
    SilentTurn(Postponed, ResumedState(cp, results, log));
  }

  lemma OneVisit(c: Config, direct: World, end: End, visit: Visit)
    requires end.Suspended? && direct.toolbox.approver.Some?
    requires Steady(visit.world) && Forthright(visit.world, direct)
    requires Faithful(direct, end.checkpoint, visit.decisions)
    requires Resume(c, visit.world, end.checkpoint, visit.decisions).end.Finished?
    ensures AllFaithful(c, direct, end, [visit])
    ensures Visited(c, end, [visit]) == Resume(c, visit.world, end.checkpoint, visit.decisions).end
  {
    var visits, next := [visit], Resume(c, visit.world, end.checkpoint, visit.decisions).end;
    assert visits[1..] == [];
    assert Visited(c, next, []) == next;
    assert AllFaithful(c, direct, next, []);
  }

  lemma CallIsSilent(input: seq<Message>)
    ensures LastAssistantText(input + [Message(RoleAssistant, [ToolUsePart(CALL)])]) == LastAssistantText(input)
  {
    var said := Message(RoleAssistant, [ToolUsePart(CALL)]);
    assert said.content[..0] == [];
    assert TextOf(said.content) == "" + "";
    assert (input + [said])[..|input|] == input;
  }

  /** A pause after a call without a word shows in the final text of a run that has
      none of its own, for every input that has some. */
  lemma PauseShows(input: seq<Message>)
    ensures var visits := [Visit(POSTPONING, map["call" := YES])];
            && PausesAndFinishes(LIMITS, POSTPONING, ALLOWING, input, visits)
            && Visited(LIMITS, Run(LIMITS, POSTPONING, input).end, visits).result.text == LastAssistantText(input)
            && Run(LIMITS, ALLOWING, input).end.Finished?
            && Run(LIMITS, ALLOWING, input).end.result.text == ""
  {
    WorldsFit();
    Pauses(LIMITS, POSTPONING, input);
    GoesStraightThrough(input);
    CalledIs(input, Postponed);
    CallIsSilent(input);
    var end := Run(LIMITS, POSTPONING, input).end;
    ContinuesFrom(end.checkpoint);
    assert Faithful(ALLOWING, end.checkpoint, map["call" := YES]);
    OneVisit(LIMITS, ALLOWING, end, Visit(POSTPONING, map["call" := YES]));
  }

  /** Every run on `input` keeps its final text through its pauses if and only if the
      input has no assistant text. */
  lemma TextKeptIff(input: seq<Message>)
    ensures (forall c, w, direct, visits ::
               PausesAndFinishes(c, w, direct, input, visits) ==> KeepsText(c, w, direct, input, visits))
       <==> LastAssistantText(input) == ""
  {
    PauseShows(input);
    forall c, w, direct, visits | PausesAndFinishes(c, w, direct, input, visits) && LastAssistantText(input) == ""
      ensures KeepsText(c, w, direct, input, visits)
    {
      FinalTextAfterPauses(c, w, direct, input, visits);
    }
    assert LastAssistantText(input) != "" ==> !KeepsText(LIMITS, POSTPONING, ALLOWING, input,
                                                         [Visit(POSTPONING, map["call" := YES])]);
  }
}

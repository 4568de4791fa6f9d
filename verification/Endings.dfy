/** Which providers leave every run a single ending: those that send none of their own. */
module Endings {
  import opened Gage
  import opened Accumulate
  import opened ToolCalls
  import opened RunLog
  import opened Goroutines
  import opened AgentLoop
  import opened LogFacts
  import opened RunFacts
  import Batches
  import Decisions

  /** A provider that answers a request alike at any moment. */
  type Provider = seq<Message> -> StreamReply

  /** The world asks this provider. */
  ghost predicate Over(w: World, p: Provider) {
    forall n: nat, turn: nat, attempt: nat, request: seq<Message> :: w.stream(n, turn, attempt, request) == p(request)
  }

  /** Before its first error the answer to this request has a done or paused event. */
  ghost predicate EndsItself(p: Provider, request: seq<Message>) {
    p(request).Streaming? && SendsEnding(p(request).events)
  }

  // ---- a run of one turn, uncancelled ----

  const ONE_TURN := Config(1, 0, 0, 0, 1, 0)

  function Asking(p: Provider): World {
    World((n: nat, turn: nat, attempt: nat, request: seq<Message>) => p(request), None, None,
          (n: nat, msgs: seq<Message>) => 0,
          Toolbox(None, None, None, None, (n: nat, turn: nat, name: string, input: string) => Errored(""), None),
          (s: Pool) => 0, (n: nat) => true, (n: nat) => None)
  }

  /** Each event before the first error is relayed, one after the other. */
  lemma {:induction false} RelaysEach(w: World, turn: nat, events: seq<Event>, acc: Acc, log: Log, i: nat)
    requires Decisions.Uncut(w) && i < |events| && SendsAt(events, i, events[i])
    ensures var r := Consume(w, turn, events, acc, log);
            !r.Broken? && log <= r.log && |log| + i < |r.log| && r.log[|log| + i] == Sent(turn, events[i])
    decreases |events|
  {
    assert !events[0].ErrorEvent?;
    var sent := Send(w, turn, events[0], log);
    ConsumeRelays(w, turn, events[1..], Take(acc, events[0]), sent);
    if i == 0 {
      NeverBroken(w, turn, events, acc, log);
      assert sent[|log|] == Sent(turn, events[0]);
    } else {
      assert SendsAt(events[1..], i - 1, events[i]) by {
        assert forall j :: 0 <= j < i ==> events[1..][j] == events[j + 1];
      }
      RelaysEach(w, turn, events[1..], Take(acc, events[0]), sent, i - 1);
    }
  }

  lemma {:induction false} NeverBroken(w: World, turn: nat, events: seq<Event>, acc: Acc, log: Log)
    requires Decisions.Uncut(w)
    ensures !Consume(w, turn, events, acc, log).Broken?
    decreases |events|
  {
    if events != [] && !events[0].ErrorEvent? {
      NeverBroken(w, turn, events[1..], Take(acc, events[0]), Send(w, turn, events[0], log));
    }
  }

  /** What the first stream relays is in the log when it is taken or given up. */
  lemma FirstStreamRelays(c: Config, w: World, conversation: seq<Message>, log: Log, events: seq<Event>, i: nat)
    requires Decisions.Uncut(w) && c.Retries() == 0
    requires w.stream(|log|, 0, 0, conversation) == Streaming(events)
    requires i < |events| && SendsAt(events, i, events[i])
    ensures var r := StreamTurn(c, w, 0, 0, conversation, conversation, log);
            var log' := TurnReplyLog(r);
            && |log| + 1 + i < |log'| - (if r.NotTaken? then 1 else 0)
            && log'[|log| + 1 + i] == Sent(0, events[i])
  {
    RelaysEach(w, 0, events, EMPTY_ACC, log + [Ask(0, 0, conversation, conversation)], i);
  }

  /** And in the log of the turn, with more to follow. */
  lemma FirstTurnRelays(c: Config, w: World, st: State, events: seq<Event>, i: nat)
    requires Decisions.Uncut(w) && w.compactor.None? && w.prepareRequest.None? && c.Retries() == 0
    requires w.stream(|st.log|, 0, 0, st.conversation) == Streaming(events)
    requires i < |events| && SendsAt(events, i, events[i])
    ensures var log := PhaseLog(Turn(c, w, st, 0));
            |st.log| + 1 + i < |log| - 1 && log[|st.log| + 1 + i] == Sent(0, events[i])
  {
    var r, after := StreamTurn(c, w, 0, 0, st.conversation, st.conversation, st.log), PhaseLog(Turn(c, w, st, 0));
    var log, grown := TurnReplyLog(r), r.Took?;
    FirstStreamRelays(c, w, st.conversation, st.log, events, i);
    FirstStreamKept(c, w, st);
    assert log <= after && (grown ==> log < after);
    KeptAt(log, after, |st.log| + 1 + i, Sent(0, events[i]), grown);
  }

  lemma KeptAt(log: Log, later: Log, k: nat, s: Step, grown: bool)
    requires log <= later && (grown ==> log < later)
    requires k < |log| - (if grown then 0 else 1) && log[k] == s
    ensures k < |later| - 1 && later[k] == s
  {
  }

  lemma FirstStreamKept(c: Config, w: World, st: State)
    requires w.compactor.None? && w.prepareRequest.None?
    ensures var r := StreamTurn(c, w, 0, 0, st.conversation, st.conversation, st.log);
            var after := PhaseLog(Turn(c, w, st, 0));
            TurnReplyLog(r) <= after && (r.Took? ==> TurnReplyLog(r) < after)
  {
    match StreamTurn(c, w, 0, 0, st.conversation, st.conversation, st.log)
    case NotTaken(out) => EndsThere(c, w, st, out);
    case Took(acc, log') => GoesOnFrom(c, w, st, acc, log');
  }

  lemma EndsThere(c: Config, w: World, st: State, out: RunOut)
    requires w.compactor.None? && w.prepareRequest.None?
    requires StreamTurn(c, w, 0, 0, st.conversation, st.conversation, st.log) == NotTaken(out)
    ensures PhaseLog(Turn(c, w, st, 0)) == out.log
  {
  }

  /** A turn that took a stream adds to the log. */
  lemma GoesOnFrom(c: Config, w: World, st: State, acc: Acc, log: Log)
    requires w.compactor.None? && w.prepareRequest.None?
    requires StreamTurn(c, w, 0, 0, st.conversation, st.conversation, st.log) == Took(acc, log)
    ensures var after := PhaseLog(Turn(c, w, st, 0)); log < after
  {
    var st' := Absorb(st, 0, acc, log);
    RunToolsExtends(c, w, st', 0, acc);
    assert log < st'.log <= PhaseLog(AskAndAct(c, w, st, 0, st.conversation));
  }

  /** The run ends after its only turn, the relayed events still before the end. */
  lemma OneTurnRelays(c: Config, w: World, input: seq<Message>, events: seq<Event>, i: nat)
    requires c == ONE_TURN && Decisions.Uncut(w) && w.compactor.None? && w.prepareRequest.None?
    requires w.stream(0, 0, 0, input) == Streaming(events) && i < |events| && SendsAt(events, i, events[i])
    ensures var log := Run(c, w, input).log; 1 + i < |log| - 1 && log[1 + i] == Sent(0, events[i])
  {
    var st := State(input, ZERO_USAGE, "", "", "", 0, []);
    FirstTurnRelays(c, w, st, events, i);
    match Turn(c, w, st, 0)
    case Over(_) =>
    case Ready(st') => TurnsExtend(c, w, st', 1);
  }

  /** A provider that sends an ending of its own has a run with two: on any input it
      answers so, one turn in a world that cancels and loses nothing. */
  lemma TwoEndings(p: Provider, input: seq<Message>)
    requires EndsItself(p, input)
    ensures Over(Asking(p), p) && NothingLost(Run(ONE_TURN, Asking(p), input).log)
    ensures !OneEnding(Run(ONE_TURN, Asking(p), input).log)
  {
    var w, events := Asking(p), p(input).events;
    var i: nat, ev :| SendsAt(events, i, ev) && Terminal(ev);
    OneTurnRelays(ONE_TURN, w, input, events, i);
    var log := Run(ONE_TURN, w, input).log;
    assert log[1 + i].Sent? && Terminal(log[1 + i].event);
    RunLosesNothing(ONE_TURN, w, input);
  }

  /** Which providers leave the ending of runs to the agent: over exactly those that send
      no ending of their own does every run, if nothing of it is lost, have one ending. */
  lemma OneEndingIff(p: Provider)
    ensures (forall c, w, input :: Over(w, p) && NothingLost(Run(c, w, input).log) ==> OneEnding(Run(c, w, input).log))
       <==> forall request :: !EndsItself(p, request)
  {
    if request :| EndsItself(p, request) {
      TwoEndings(p, request);
    } else {
      forall c, w, input | Over(w, p) && NothingLost(Run(c, w, input).log)
        ensures OneEnding(Run(c, w, input).log)
      {
        RunEndsRight(c, w, input);
        OverLeavesEndings(w, p);
        OneEndingAndLast(c, w, ZERO_USAGE, Run(c, w, input));
      }
    }
  }

  lemma OverLeavesEndings(w: World, p: Provider)
    requires Over(w, p) && forall request :: !EndsItself(p, request)
    ensures ProvidersLeaveEndings(w)
  {
    forall n: nat, turn: nat, attempt: nat, request: seq<Message> | w.stream(n, turn, attempt, request).Streaming?
      ensures !SendsEnding(w.stream(n, turn, attempt, request).events)
    {
      assert w.stream(n, turn, attempt, request) == p(request) && !EndsItself(p, request);
    }
  }

  // ---- an uncut world loses nothing ----

  lemma {:induction false} ConsumeLosesNothing(w: World, turn: nat, events: seq<Event>, acc: Acc, log: Log)
    requires Decisions.Uncut(w) && NothingLost(log)
    ensures NothingLost(Consume(w, turn, events, acc, log).log)
    decreases |events|
  {
    if events != [] && !events[0].ErrorEvent? {
      ConsumeLosesNothing(w, turn, events[1..], Take(acc, events[0]), Send(w, turn, events[0], log));
    }
  }

  lemma {:induction false} StreamTurnLosesNothing(c: Config, w: World, turn: nat, attempt: nat,
                                                  conversation: seq<Message>, request: seq<Message>, log: Log)
    requires Decisions.Uncut(w) && NothingLost(log)
    ensures NothingLost(TurnReplyLog(StreamTurn(c, w, turn, attempt, conversation, request, log)))
    decreases c.Retries() - attempt, 1
  {
    var asked := log + [Ask(turn, attempt, conversation, request)];
    match w.stream(|log|, turn, attempt, request)
    case Refused(err) =>
      RetryLosesNothing(c, w, turn, attempt, conversation, request, err, ErrorEvent(Some(err), ""), asked);
    case Streaming(events) =>
      ConsumeLosesNothing(w, turn, events, EMPTY_ACC, asked);
      match Consume(w, turn, events, EMPTY_ACC, asked)
      case StreamError(ev, log') =>
        RetryLosesNothing(c, w, turn, attempt, conversation, request, ErrorOf(ev), ev, log');
      case _ =>
  }

  lemma {:induction false} RetryLosesNothing(c: Config, w: World, turn: nat, attempt: nat, conversation: seq<Message>,
                                             request: seq<Message>, err: Err, last: Event, log: Log)
    requires Decisions.Uncut(w) && NothingLost(log)
    ensures NothingLost(TurnReplyLog(Retry(c, w, turn, attempt, conversation, request, err, last, log)))
    decreases c.Retries() - attempt, 0
  {
    if attempt < c.Retries() && Retryable(err) {
      StreamTurnLosesNothing(c, w, turn, attempt + 1, conversation, request, log);
    }
  }

  lemma BatchLosesNothing(c: Config, w: World, turn: nat, calls: seq<ToolCall>, forced: seq<Option<ToolResult>>,
                          log: Log)
    requires |forced| == |calls| && Decisions.Uncut(w) && NothingLost(log)
    ensures NothingLost(RunBatch(c, w, turn, calls, forced, log).log)
  {
    var _ := Batches.BatchFacts(c, w, turn, calls, forced, log);
    var after := RunBatch(c, w, turn, calls, forced, log).log;
    Batches.NoneLost(Batches.BatchOf(c, w, turn, calls, forced), log, after);
    forall k | 0 <= k < |after|
      ensures !after[k].Lost?
    {
      assert k < |log| ==> after[k] == log[k];
    }
  }

  lemma AfterToolsLosesNothing(c: Config, w: World, st: State, turn: nat, results: seq<ToolResult>, reported: Usage)
    requires Decisions.Uncut(w) && NothingLost(st.log)
    ensures NothingLost(PhaseLog(AfterTools(c, w, st, turn, results, reported)))
  {
  }

  lemma PassedLosesNothing(c: Config, w: World, st: State, turn: nat, acc: Acc)
    requires Decisions.Uncut(w) && NothingLost(st.log)
    requires !OverBudget(c, st.usage) && RunGuard(c, st, acc.toolCalls).Passed?
    ensures NothingLost(PhaseLog(RunTools(c, w, st, turn, acc)))
  {
    var guarded := RunGuard(c, st, acc.toolCalls);
    var issued := st.log + [Issued(turn, acc.toolCalls)];
    BatchLosesNothing(c, w, turn, acc.toolCalls, guarded.forced, issued);
    var batch := RunBatch(c, w, turn, acc.toolCalls, guarded.forced, issued);
    if batch.BatchDone? && batch.pending == [] {
      var st1 := st.(repeatSig := guarded.sig, repeatCount := guarded.count, log := batch.log);
      AfterToolsLosesNothing(c, w, st1, turn, batch.results, acc.usage);
    }
  }

  lemma RunToolsLosesNothing(c: Config, w: World, st: State, turn: nat, acc: Acc)
    requires Decisions.Uncut(w) && NothingLost(st.log)
    ensures NothingLost(PhaseLog(RunTools(c, w, st, turn, acc)))
  {
    if !OverBudget(c, st.usage) && RunGuard(c, st, acc.toolCalls).Passed? {
      PassedLosesNothing(c, w, st, turn, acc);
    }
  }

  lemma TurnLosesNothing(c: Config, w: World, st: State, turn: nat)
    requires Decisions.Uncut(w) && NothingLost(st.log)
    ensures NothingLost(PhaseLog(Turn(c, w, st, turn)))
  {
    match Proactive(c, w, st, turn)
    case Over(_) =>
    case Ready(st1) =>
      match Prepare(w, st1, turn)
      case Fail(_) =>
      case Ok(request) =>
        StreamTurnLosesNothing(c, w, turn, 0, st1.conversation, request, st1.log);
        match StreamTurn(c, w, turn, 0, st1.conversation, request, st1.log)
        case NotTaken(_) =>
        case Took(acc, log) => RunToolsLosesNothing(c, w, Absorb(st1, turn, acc, log), turn, acc);
  }

  lemma {:induction false} TurnsLoseNothing(c: Config, w: World, st: State, turn: nat)
    requires Decisions.Uncut(w) && NothingLost(st.log)
    ensures NothingLost(Turns(c, w, st, turn).log)
    decreases c.MaxTurns() - turn
  {
    if turn < c.MaxTurns() {
      TurnLosesNothing(c, w, st, turn);
      var next := NextPhase(c, w, st, turn);
      if next.Ready? {
        TurnsLoseNothing(c, w, next.st, turn + 1);
      }
    }
  }

  lemma RunLosesNothing(c: Config, w: World, input: seq<Message>)
    requires Decisions.Uncut(w)
    ensures NothingLost(Run(c, w, input).log)
  {
    TurnsLoseNothing(c, w, State(input, ZERO_USAGE, "", "", "", 0, []), 0);
  }
}

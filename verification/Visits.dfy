/** Visits to a paused run get somewhere. */
module Visits {
  import opened Gage
  import opened Accumulate
  import opened ToolCalls
  import opened RunLog
  import opened AgentLoop
  import opened Pairing
  import opened PauseResume
  import Decisions
  import RunFacts
  import LogFacts

  /** No call of the checkpoint is left without a result or a decision. */
  predicate DecidesAll(cp: Checkpoint, decisions: map<string, Approval>) {
    forall k :: 0 <= k < |cp.calls| ==> cp.calls[k].id in ByID(cp.results) || cp.calls[k].id in decisions
  }

  /** So it is at every visit. */
  predicate EachDecidesAll(c: Config, end: End, visits: seq<Visit>)
    decreases |visits|
  {
    visits == [] || !end.Suspended? ||
    (&& DecidesAll(end.checkpoint, visits[0].decisions)
     && EachDecidesAll(c, Resume(c, visits[0].world, end.checkpoint, visits[0].decisions).end, visits[1..]))
  }

  lemma {:induction false} NoneLeft(w: World, turn: nat, calls: seq<ToolCall>, decisions: map<string, Approval>, i: nat,
                                   byID: map<string, ToolResult>, stillPending: bool, log: Log)
    requires i <= |calls| && forall k :: i <= k < |calls| ==> calls[k].id in byID || calls[k].id in decisions
    ensures var r := DecideCalls(w, turn, calls, decisions, i, byID, stillPending, log);
            r.Resumed? ==> r.stillPending == stillPending
    decreases |calls| - i
  {
    if i < |calls| {
      var tc := calls[i];
      if tc.id in byID {
        NoneLeft(w, turn, calls, decisions, i + 1, byID, stillPending, log);
      } else if w.ctxErr(|log|).None? {
        var reply := ExecTool(w.toolbox, |log|, turn, tc, Some(decisions[tc.id]));
        var log1 := log + [ToolStep(turn, i, tc, HowOf(reply))];
        var log2 := Send(w, turn, ToolResultEvent(reply.result), log1);
        NoneLeft(w, turn, calls, decisions, i + 1, byID[tc.id := reply.result], stillPending, log2);
      }
    }
  }

  /** A run pauses in one of the turns it still has. */
  lemma {:induction false} PausesInATurn(c: Config, w: World, st: State, turn: nat)
    ensures var end := Turns(c, w, st, turn).end;
            end.Suspended? ==> turn <= end.checkpoint.turn < c.MaxTurns()
    decreases c.MaxTurns() - turn
  {
    if turn < c.MaxTurns() {
      PausesNow(c, w, st, turn);
      var next := LogFacts.NextPhase(c, w, st, turn);
      if next.Ready? {
        PausesInATurn(c, w, next.st, turn + 1);
      }
    }
  }

  lemma PausesNow(c: Config, w: World, st: State, turn: nat)
    ensures var p := Turn(c, w, st, turn);
            p.Over? && p.out.end.Suspended? ==> p.out.end.checkpoint.turn == turn
  {
    match Proactive(c, w, st, turn)
    case Over(_) =>
    case Ready(st1) =>
      match Prepare(w, st1, turn)
      case Fail(_) =>
      case Ok(request) => AskPausesNow(c, w, st1, turn, request);
  }

  lemma AskPausesNow(c: Config, w: World, st: State, turn: nat, request: seq<Message>)
    ensures var p := AskAndAct(c, w, st, turn, request);
            p.Over? && p.out.end.Suspended? ==> p.out.end.checkpoint.turn == turn
  {
    RunFacts.StreamNeverPauses(c, w, turn, 0, st.conversation, request, st.log);
  }

  /** A visit that decides all pending calls ends the pause for good, or until a later turn. */
  lemma VisitMovesOn(c: Config, w: World, cp: Checkpoint, decisions: map<string, Approval>)
    requires DecidesAll(cp, decisions)
    ensures var end := Resume(c, w, cp, decisions).end;
            end.Suspended? ==> cp.turn < end.checkpoint.turn < c.MaxTurns()
  {
    NoneLeft(w, cp.turn, cp.calls, decisions, 0, ByID(cp.results), false, []);
    match DecideCalls(w, cp.turn, cp.calls, decisions, 0, ByID(cp.results), false, [])
    case ResumeCut(_) =>
    case Resumed(byID, _, log) => PausesInATurn(c, w, ResumedState(cp, InCallOrder(cp.calls, byID), log), cp.turn + 1);
  }

  lemma {:induction false} VisitsMoveOn(c: Config, end: End, visits: seq<Visit>)
    requires EachDecidesAll(c, end, visits)
    requires end.Suspended? ==> end.checkpoint.turn < c.MaxTurns()
    ensures var e := Visited(c, end, visits);
            e.Suspended? ==> end.Suspended? && end.checkpoint.turn + |visits| <= e.checkpoint.turn < c.MaxTurns()
    decreases |visits|
  {
    if visits != [] && end.Suspended? {
      VisitMovesOn(c, visits[0].world, end.checkpoint, visits[0].decisions);
      VisitsMoveOn(c, Resume(c, visits[0].world, end.checkpoint, visits[0].decisions).end, visits[1..]);
    }
  }

  /** Whatever the worlds of the run and of each visit do: if each visit decides all calls
      then pending, the run is no longer paused after as many visits as it has turns. */
  lemma PausesRunOut(c: Config, w: World, input: seq<Message>, visits: seq<Visit>)
    requires EachDecidesAll(c, Run(c, w, input).end, visits)
    requires |visits| >= c.MaxTurns()
    ensures !Visited(c, Run(c, w, input).end, visits).Suspended?
  {
    PausesInATurn(c, w, State(input, ZERO_USAGE, "", "", "", 0, []), 0);
    VisitsMoveOn(c, Run(c, w, input).end, visits);
  }

  /** Where the visits leave a run is where the chain of its runs ends. */
  lemma {:induction false} VisitedIsLast(c: Config, out: RunOut, visits: seq<Visit>)
    ensures var chain := Chain(c, out, visits); chain != [] && Visited(c, out.end, visits) == chain[|chain| - 1].end
    decreases |visits|
  {
    if visits != [] && out.end.Suspended? {
      VisitedIsLast(c, Resume(c, visits[0].world, out.end.checkpoint, visits[0].decisions), visits[1..]);
    }
  }

  /** So with the forthright approver's decisions it has come to the forthright run's end. */
  lemma PausingComesToTheEnd(c: Config, w: World, direct: World, input: seq<Message>, visits: seq<Visit>)
    requires Steady(w) && Forthright(w, direct) && c.maxToolRepeats <= 0
    requires AllFaithful(c, direct, Run(c, w, input).end, visits)
    requires EachDecidesAll(c, Run(c, w, input).end, visits) && |visits| >= c.MaxTurns()
    ensures SansText(Visited(c, Run(c, w, input).end, visits)) == SansText(Run(c, direct, input).end)
  {
    PausesRunOut(c, w, input, visits);
    PausingUnobservable(c, w, direct, input, visits);
  }

  /** The ids of the calls without a result. */
  function OpenIDs(cp: Checkpoint): set<string> {
    set k | 0 <= k < |cp.calls| && cp.calls[k].id !in ByID(cp.results) :: cp.calls[k].id
  }

  /** A visit that decides some pending call gets the run further too: to a later turn,
      or to fewer pending calls of the same turn. */
  lemma EachDecisionCounts(c: Config, w: World, cp: Checkpoint, decisions: map<string, Approval>, id: string)
    requires Decisions.Uncut(w) && KeepsCallIDs(w.toolbox)
    requires id in OpenIDs(cp) && id in decisions
    ensures var end := Resume(c, w, cp, decisions).end;
            end.Suspended? ==>
              || cp.turn < end.checkpoint.turn < c.MaxTurns()
              || (end.checkpoint.turn == cp.turn && end.checkpoint.calls == cp.calls
                  && OpenIDs(end.checkpoint) < OpenIDs(cp))
  {
    match DecideCalls(w, cp.turn, cp.calls, decisions, 0, ByID(cp.results), false, [])
    case ResumeCut(_) =>
    case Resumed(byID, stillPending, log) =>
      if stillPending {
        var cp' := Resume(c, w, cp, decisions).end.checkpoint;
        assert cp'.results == Decisions.RoundResults(w, cp, decisions);
        forall k: nat | k < |cp.calls|
          ensures cp.calls[k].id in ByID(cp'.results) <==>
                  cp.calls[k].id in ByID(cp.results) || cp.calls[k].id in decisions
        {
          Decisions.RoundKnows(w, cp, decisions, k);
        }
        assert id !in OpenIDs(cp');
      } else {
        PausesInATurn(c, w, ResumedState(cp, InCallOrder(cp.calls, byID), log), cp.turn + 1);
      }
  }
}

/** What each tool call is answered, case by case: the reference the steps of a call are
    held against. */
module ToolAnswers {
  import opened Gage
  import opened ToolCalls

  // ---- the reference ----

  /** What becomes of a call, before the post-tool hook sees it. `seen` is its input by
      then, which the hook is shown. */
  datatype Fate =
    | Waits
    | Refused(why: Payload, seen: string)
    | Runs(input: string, seen: string)

  /** What validation objects to in an input; an absent one counts as the empty object. */
  function Objection(t: Toolbox, name: string, input: string): Option<string> {
    if t.validate.None? then None else t.validate.value(name, if input == "" then "{}" else input)
  }

  /** What a granted call comes to: checked once more on the input it was granted, and run
      on that. */
  function OnceGranted(t: Toolbox, tc: ToolCall, input: string, a: Approval): Fate {
    var final := match a.updatedInput case Some(other) => other case None => input;
    match Objection(t, tc.name, final)
    case Some(reason) => Refused(InvalidArguments(tc.name, reason), final)
    case None => Runs(if final == "" then "{}" else final, final)
  }

  /** What an approval makes of a call. */
  function Judged(t: Toolbox, tc: ToolCall, input: string, a: Approval): Fate {
    if a.allow then OnceGranted(t, tc, input, a) else Refused(PermissionDenied(tc.name, a.reason), input)
  }

  /** What the approver, if there is one, makes of it; it is only asked about valid input. */
  function PutToApprover(t: Toolbox, moment: nat, turn: nat, tc: ToolCall, input: string): Fate {
    if t.approver.None? then OnceGranted(t, tc, input, Approval(true, "", None))
    else
      match Objection(t, tc.name, input)
      case Some(reason) => Refused(InvalidArguments(tc.name, reason), input)
      case None =>
        match t.approver.value(moment, turn, ToolCall(tc.id, tc.name, input))
        case Decided(a) => Judged(t, tc, input, a)
        case Postponed => Waits
        case ApproverFailed(reason) => Refused(PermissionFailed(reason), input)
        case ApproverPanicked(reason) => Refused(Panicked(reason), input)
  }

  /** A known tool, no decision, then the pre-tool hook if there is one, which may change
      the input and nothing else; with a decision on record that decision alone counts. */
  function FateOf(t: Toolbox, moment: nat, turn: nat, tc: ToolCall, decision: Option<Approval>): Fate {
    if t.known.None? then Refused(NoTools, tc.input)
    else if !t.known.value(tc.name) then Refused(UnknownTool(tc.name), tc.input)
    else if decision.Some? then Judged(t, tc, tc.input, decision.value)
    else if t.preToolUse.None? then PutToApprover(t, moment, turn, tc, tc.input)
    else
      match t.preToolUse.value(moment, tc)
      case Blocked(reason) => Refused(BlockedByHook(reason), tc.input)
      case HookPanicked(reason) => Refused(Panicked(reason), tc.input)
      case Rewritten(updated) => PutToApprover(t, moment, turn, tc, updated.input)
  }

  /** The result of running the tool, under the call's id: what it returned, or an error
      that tells its error or its panic. */
  function RunResult(outcome: ToolOutcome, id: string): ToolResult {
    match outcome
    case Returned(r) => ToolResult(id, r.content, r.isError)
    case Errored(reason) => ToolResult(id, ExecutionError(reason), true)
    case ToolPanicked(reason) => ToolResult(id, Panicked(reason), true)
  }

  /** What the post-tool hook, if there is one, makes of a result. A result it leaves
      without an id gets the call's. */
  function Passed(t: Toolbox, moment: nat, tc: ToolCall, seen: string, r: ToolResult): ToolResult {
    match t.postToolUse
    case None => if r.callID == "" then ToolResult(tc.id, r.content, r.isError) else r
    case Some(h) =>
      var after := h(moment, ToolCall(tc.id, tc.name, seen), r);
      if after.callID == "" then ToolResult(tc.id, after.content, after.isError) else after
  }

  /** The answer to a call. */
  function AnswerTo(t: Toolbox, moment: nat, turn: nat, tc: ToolCall, decision: Option<Approval>): Reply {
    match FateOf(t, moment, turn, tc, decision)
    case Waits => Deferred
    case Refused(why, seen) => Answered(Passed(t, moment, tc, seen, ToolResult(tc.id, why, true)), None)
    case Runs(input, seen) =>
      Answered(Passed(t, moment, tc, seen, RunResult(t.execute(moment, turn, tc.name, input), tc.id)), Some(input))
  }

  // ---- the steps meet it ----

  lemma FinishPasses(t: Toolbox, moment: nat, tc: ToolCall, seen: string, r: ToolResult)
    ensures Finish(t, moment, tc.(input := seen), r) == Passed(t, moment, tc, seen, r)
  {
    assert tc.(input := seen) == ToolCall(tc.id, tc.name, seen);
  }

  /** Performing a call once it is cleared. */
  lemma PerformsAsJudged(t: Toolbox, moment: nat, turn: nat, tc: ToolCall, input: string, a: Approval)
    ensures Perform(t, moment, turn, tc.(input := input), a) ==
              match Judged(t, tc, input, a)
              case Waits => Deferred
              case Refused(why, seen) => Answered(Passed(t, moment, tc, seen, ToolResult(tc.id, why, true)), None)
              case Runs(on, seen) =>
                Answered(Passed(t, moment, tc, seen, RunResult(t.execute(moment, turn, tc.name, on), tc.id)), Some(on))
  {
    var final := if a.updatedInput.Some? then a.updatedInput.value else input;
    var call := tc.(input := final);
    assert tc.(input := input).(input := final) == call;
    if !a.allow {
      FinishPasses(t, moment, tc, input, ToolResult(tc.id, PermissionDenied(tc.name, a.reason), true));
    } else if Invalid(t, call).Some? {
      FinishPasses(t, moment, tc, final, ToolResult(tc.id, InvalidArguments(tc.name, Invalid(t, call).value), true));
    } else {
      FinishPasses(t, moment, tc, final, RunResult(t.execute(moment, turn, tc.name, NonEmpty(final)), tc.id));
    }
  }

  lemma ConsultsAsPut(t: Toolbox, moment: nat, turn: nat, tc: ToolCall, input: string)
    requires t.preToolUse.Some? ==>
               t.preToolUse.value(moment, tc).Rewritten? && t.preToolUse.value(moment, tc).call.input == input
    requires t.preToolUse.None? ==> input == tc.input
    ensures match Consult(t, moment, turn, tc)
            case Postpone => PutToApprover(t, moment, turn, tc, input) == Waits
            case Reject(call, r) =>
              && call == tc.(input := input)
              && PutToApprover(t, moment, turn, tc, input).Refused?
              && r == ToolResult(tc.id, PutToApprover(t, moment, turn, tc, input).why, true)
              && PutToApprover(t, moment, turn, tc, input).seen == input
            case Clear(call, a) =>
              call == tc.(input := input) && PutToApprover(t, moment, turn, tc, input) == Judged(t, tc, input, a)
  {
    assert tc.(input := input) == ToolCall(tc.id, tc.name, input);
  }

  /** Every call is answered as the reference says: with leave or without, valid or not,
      on the resume path or the other, whatever the hooks do. */
  lemma AnswersAsReference(t: Toolbox, moment: nat, turn: nat, tc: ToolCall, decision: Option<Approval>)
    ensures ExecTool(t, moment, turn, tc, decision) == AnswerTo(t, moment, turn, tc, decision)
  {
    assert tc.(input := tc.input) == tc;
    if t.known.None? {
      FinishPasses(t, moment, tc, tc.input, ToolResult(tc.id, NoTools, true));
    } else if !t.known.value(tc.name) {
      FinishPasses(t, moment, tc, tc.input, ToolResult(tc.id, UnknownTool(tc.name), true));
    } else if decision.Some? {
      PerformsAsJudged(t, moment, turn, tc, tc.input, decision.value);
    } else {
      UndecidedAsReference(t, moment, turn, tc);
    }
  }

  lemma UndecidedAsReference(t: Toolbox, moment: nat, turn: nat, tc: ToolCall)
    requires t.known.Some? && t.known.value(tc.name)
    ensures ExecTool(t, moment, turn, tc, None) == AnswerTo(t, moment, turn, tc, None)
  {
    assert tc.(input := tc.input) == tc;
    if t.preToolUse.None? {
      PutAsReference(t, moment, turn, tc, tc.input);
    } else {
      match t.preToolUse.value(moment, tc)
      case Blocked(reason) => FinishPasses(t, moment, tc, tc.input, ToolResult(tc.id, BlockedByHook(reason), true));
      case HookPanicked(reason) => FinishPasses(t, moment, tc, tc.input, ToolResult(tc.id, Panicked(reason), true));
      case Rewritten(updated) => PutAsReference(t, moment, turn, tc, updated.input);
    }
  }

  lemma PutAsReference(t: Toolbox, moment: nat, turn: nat, tc: ToolCall, input: string)
    requires t.known.Some? && t.known.value(tc.name)
    requires t.preToolUse.Some? ==>
               t.preToolUse.value(moment, tc).Rewritten? && t.preToolUse.value(moment, tc).call.input == input
    requires t.preToolUse.None? ==> input == tc.input
    ensures ExecTool(t, moment, turn, tc, None) == AnswerTo(t, moment, turn, tc, None)
  {
    ConsultsAsPut(t, moment, turn, tc, input);
    match Consult(t, moment, turn, tc)
    case Postpone =>
    case Reject(call, r) => FinishPasses(t, moment, tc, input, r);
    case Clear(call, a) => PerformsAsJudged(t, moment, turn, tc, input, a);
  }

  // ---- what follows ----

  /** Without a post-tool hook an answer that is no error means that the tool ran and
      returned just that, under the call's id. */
  lemma SuccessIsTheTools(t: Toolbox, moment: nat, turn: nat, tc: ToolCall, decision: Option<Approval>)
    requires t.postToolUse.None?
    ensures var r := ExecTool(t, moment, turn, tc, decision);
            r.Answered? && !r.result.isError ==>
              && r.ran.Some?
              && var outcome := t.execute(moment, turn, tc.name, r.ran.value);
                 outcome.Returned? && !outcome.result.isError
                 && r.result == ToolResult(tc.id, outcome.result.content, false)
  {
    AnswersAsReference(t, moment, turn, tc, decision);
  }

  /** And a call that was answered without running tells why, as an error. */
  lemma RefusalTellsWhy(t: Toolbox, moment: nat, turn: nat, tc: ToolCall, decision: Option<Approval>)
    requires t.postToolUse.None? && tc.id != ""
    ensures var r, fate := ExecTool(t, moment, turn, tc, decision), FateOf(t, moment, turn, tc, decision);
            && (r.Deferred? <==> fate.Waits?)
            && (r.Answered? && r.ran.None? <==> fate.Refused?)
            && (fate.Refused? ==> r.result == ToolResult(tc.id, fate.why, true))
  {
    AnswersAsReference(t, moment, turn, tc, decision);
  }
}

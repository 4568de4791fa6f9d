/** One tool call through registry, hooks, approver, validation and execution
    (execTool in agent/loop.go). */
module ToolCalls {
  import opened Gage

  datatype HookReply = Rewritten(call: ToolCall) | Blocked(reason: string) | HookPanicked(reason: string)

  datatype ApproverReply =
    | Decided(approval: Approval)
    | Postponed
    | ApproverFailed(reason: string)
    | ApproverPanicked(reason: string)

  datatype ToolOutcome = Returned(result: ToolResult) | Errored(reason: string) | ToolPanicked(reason: string)

  /** Everything a call consults. `moment` numbers the interactions of the run so
      far, so a reply may depend on the whole past; nothing is assumed of it. */
  datatype Toolbox = Toolbox(
    known: Option<string -> bool>,
    preToolUse: Option<(nat, ToolCall) -> HookReply>,
    approver: Option<(nat, nat, ToolCall) -> ApproverReply>,
    validate: Option<(string, string) -> Option<string>>,
    execute: (nat, nat, string, string) -> ToolOutcome,
    postToolUse: Option<(nat, ToolCall, ToolResult) -> ToolResult>)

  /** `ran` is the input the tool was run on, if it was run. */
  datatype Reply = Deferred | Answered(result: ToolResult, ran: Option<string>)

  /** Where the call stands once hook and approver have spoken. */
  datatype Verdict =
    | Postpone
    | Reject(call: ToolCall, result: ToolResult)
    | Clear(call: ToolCall, approval: Approval)

  function Invalid(t: Toolbox, tc: ToolCall): Option<string> {
    if t.validate.None? then None else t.validate.value(tc.name, NonEmpty(tc.input))
  }

  function Consult(t: Toolbox, moment: nat, turn: nat, tc: ToolCall): Verdict {
    var hooked := if t.preToolUse.None? then Rewritten(tc) else t.preToolUse.value(moment, tc);
    match hooked
    case Blocked(reason) => Reject(tc, ErrorResult(tc.id, BlockedByHook(reason)))
    case HookPanicked(reason) => Reject(tc, ErrorResult(tc.id, Panicked(reason)))
    case Rewritten(updated) =>
      var call := tc.(input := updated.input);  // a hook may only rewrite the input
      if t.approver.None? then Clear(call, Approval(true, "", None))
      else
        var invalid := Invalid(t, call);
        if invalid.Some? then Reject(call, ErrorResult(tc.id, InvalidArguments(tc.name, invalid.value)))
        else
          match t.approver.value(moment, turn, call)
          case Decided(approval) => Clear(call, approval)
          case Postponed => Postpone
          case ApproverFailed(reason) => Reject(call, ErrorResult(tc.id, PermissionFailed(reason)))
          case ApproverPanicked(reason) => Reject(call, ErrorResult(tc.id, Panicked(reason)))
  }

  /** The deferred part of a call: the post-tool hook, then the call id if blank. */
  function Finish(t: Toolbox, moment: nat, tc: ToolCall, result: ToolResult): ToolResult {
    var r := if t.postToolUse.None? then result else t.postToolUse.value(moment, tc, result);
    if r.callID == "" then r.(callID := tc.id) else r
  }

  function Perform(t: Toolbox, moment: nat, turn: nat, tc: ToolCall, approval: Approval): Reply {
    if !approval.allow then
      Answered(Finish(t, moment, tc, ErrorResult(tc.id, PermissionDenied(tc.name, approval.reason))), None)
    else
      var call := if approval.updatedInput.Some? then tc.(input := approval.updatedInput.value) else tc;
      var invalid := Invalid(t, call);
      if invalid.Some? then
        Answered(Finish(t, moment, call, ErrorResult(tc.id, InvalidArguments(tc.name, invalid.value))), None)
      else
        var input := NonEmpty(call.input);
        Answered(Finish(t, moment, call, ResultOf(t.execute(moment, turn, tc.name, input), tc.id)), Some(input))
  }

  /** What the tool's outcome is reported as. */
  function ResultOf(outcome: ToolOutcome, id: string): ToolResult {
    match outcome
    case Returned(r) => r.(callID := id)
    case Errored(reason) => ErrorResult(id, ExecutionError(reason))
    case ToolPanicked(reason) => ErrorResult(id, Panicked(reason))
  }

  function ExecTool(t: Toolbox, moment: nat, turn: nat, tc: ToolCall, decision: Option<Approval>): (r: Reply)
    ensures decision.Some? ==> r.Answered?
  {
    if t.known.None? then
      Answered(Finish(t, moment, tc, ErrorResult(tc.id, NoTools)), None)
    else if !t.known.value(tc.name) then
      Answered(Finish(t, moment, tc, ErrorResult(tc.id, UnknownTool(tc.name))), None)
    else
      var verdict := if decision.Some? then Clear(tc, decision.value) else Consult(t, moment, turn, tc);
      match verdict
      case Postpone => Deferred
      case Reject(call, result) => Answered(Finish(t, moment, call, result), None)
      case Clear(call, approval) => Perform(t, moment, turn, call, approval)
  }

  /** Given a result under its call's id, the post-tool hook keeps that id or blanks it. */
  ghost predicate KeepsCallIDs(t: Toolbox) {
    t.postToolUse.Some? ==>
      forall n: nat, tc: ToolCall, r: ToolResult :: r.callID == tc.id ==>
        t.postToolUse.value(n, tc, r).callID in {tc.id, ""}
  }

  /** Replies do not depend on the moment. */
  ghost predicate Timeless(t: Toolbox) {
    && (forall n: nat, turn: nat, name: string, input: string ::
          t.execute(n, turn, name, input) == t.execute(0, turn, name, input))
    && (t.postToolUse.Some? ==> forall n: nat, tc: ToolCall, r: ToolResult ::
          t.postToolUse.value(n, tc, r) == t.postToolUse.value(0, tc, r))
  }

  /** The pre-tool hook says the same of a call at any moment. */
  ghost predicate HookTimeless(t: Toolbox) {
    t.preToolUse.Some? ==> forall n: nat, tc: ToolCall :: t.preToolUse.value(n, tc) == t.preToolUse.value(0, tc)
  }

  /** A call answered at all is answered under its own id, whatever was rewritten,
      denied, refused or panicked on the way. */
  lemma AnswersUnderOwnID(t: Toolbox, moment: nat, turn: nat, tc: ToolCall, decision: Option<Approval>)
    requires KeepsCallIDs(t)
    ensures var r := ExecTool(t, moment, turn, tc, decision);
            r.Answered? ==> r.result.callID == tc.id
  {
    if t.known.Some? && t.known.value(tc.name) {
      var verdict := if decision.Some? then Clear(tc, decision.value) else Consult(t, moment, turn, tc);
      match verdict
      case Postpone =>
      case Reject(call, result) => FinishedUnderID(t, moment, call, result);
      case Clear(call, a) => PerformedUnderID(t, moment, turn, call, a);
    } else {
      FinishedUnderID(t, moment, tc, ErrorResult(tc.id, if t.known.None? then NoTools else UnknownTool(tc.name)));
    }
  }

  lemma FinishedUnderID(t: Toolbox, moment: nat, tc: ToolCall, result: ToolResult)
    requires KeepsCallIDs(t) && result.callID == tc.id
    ensures Finish(t, moment, tc, result).callID == tc.id
  {
  }

  lemma PerformedUnderID(t: Toolbox, moment: nat, turn: nat, tc: ToolCall, a: Approval)
    requires KeepsCallIDs(t)
    ensures var r := Perform(t, moment, turn, tc, a); r.Answered? && r.result.callID == tc.id
  {
    var call := if a.updatedInput.Some? then tc.(input := a.updatedInput.value) else tc;
    if !a.allow {
      FinishedUnderID(t, moment, tc, ErrorResult(tc.id, PermissionDenied(tc.name, a.reason)));
    } else if Invalid(t, call).Some? {
      FinishedUnderID(t, moment, call, ErrorResult(tc.id, InvalidArguments(tc.name, Invalid(t, call).value)));
    } else {
      var input := NonEmpty(call.input);
      FinishedUnderID(t, moment, call, ResultOf(t.execute(moment, turn, tc.name, input), tc.id));
    }
  }

  /** The call as it is put to the approver: as the pre-tool hook rewrites its input,
      or, when a decision is already on record, as it was issued. */
  function Shown(t: Toolbox, moment: nat, tc: ToolCall, decision: Option<Approval>): Option<ToolCall> {
    if decision.Some? || t.preToolUse.None? then Some(tc)
    else
      match t.preToolUse.value(moment, tc)
      case Rewritten(updated) => Some(tc.(input := updated.input))
      case _ => None
  }

  /** `a` is what was granted on `call`: the decision on record, what the approver says
      of that very call, or, without an approver, leave to run as it is. */
  ghost predicate Granted(t: Toolbox, moment: nat, turn: nat, call: ToolCall, decision: Option<Approval>, a: Approval) {
    && a.allow
    && (if decision.Some? then a == decision.value
        else if t.approver.Some? then
          Invalid(t, call).None? && t.approver.value(moment, turn, call) == Decided(a)
        else a == Approval(true, "", None))
  }

  /** The input an approval lets through: its own rewriting, or the call's input. */
  function Final(call: ToolCall, a: Approval): string {
    if a.updatedInput.Some? then a.updatedInput.value else call.input
  }

  /** The tool was run on `input`, and this is all that lets it run: the tool is known,
      the call as shown was granted, `input` is exactly the granted one, and it is valid. */
  ghost predicate MayRun(t: Toolbox, moment: nat, turn: nat, tc: ToolCall, decision: Option<Approval>, input: string) {
    && t.known.Some? && t.known.value(tc.name)
    && Shown(t, moment, tc, decision).Some?
    && var call := Shown(t, moment, tc, decision).value;
       exists a: Approval ::
         && Granted(t, moment, turn, call, decision, a)
         && Invalid(t, call.(input := Final(call, a))).None?
         && input == NonEmpty(Final(call, a))
  }

  /** The approval gate, on the resume path as on the other: a tool runs on an input if
      and only if the call shown was granted that input and it is valid; and what comes
      back is what the tool made of that input, finished. */
  lemma RunsOnlyWhenApproved(t: Toolbox, moment: nat, turn: nat, tc: ToolCall, decision: Option<Approval>,
                             input: string)
    ensures var r := ExecTool(t, moment, turn, tc, decision);
            && (r.Answered? && r.ran == Some(input) <==> MayRun(t, moment, turn, tc, decision, input))
            && (r.Answered? && r.ran == Some(input) ==>
                  exists final: string ::
                    && input == NonEmpty(final)
                    && r.result == Finish(t, moment, tc.(input := final),
                                          ResultOf(t.execute(moment, turn, tc.name, input), tc.id)))
  {
    var r := ExecTool(t, moment, turn, tc, decision);
    if r.Answered? && r.ran == Some(input) {
      var v := if decision.Some? then Clear(tc, decision.value) else Consult(t, moment, turn, tc);
      assert v.Clear? && v.call == Shown(t, moment, tc, decision).value;
      assert Granted(t, moment, turn, v.call, decision, v.approval);
      var final := Final(v.call, v.approval);
      assert v.call.(input := final) == tc.(input := final);
      assert r.result == Finish(t, moment, tc.(input := final),
                                ResultOf(t.execute(moment, turn, tc.name, input), tc.id));
    }
    if MayRun(t, moment, turn, tc, decision, input) {
      var call := Shown(t, moment, tc, decision).value;
      var a: Approval :| && Granted(t, moment, turn, call, decision, a)
                         && Invalid(t, call.(input := Final(call, a))).None?
                         && input == NonEmpty(Final(call, a));
      assert (if decision.Some? then Clear(tc, decision.value) else Consult(t, moment, turn, tc)) == Clear(call, a);
      assert call.(input := Final(call, a)) == if a.updatedInput.Some? then call.(input := a.updatedInput.value)
             else call;
    }
  }

  lemma FinishTimeless(t: Toolbox, m1: nat, m2: nat, tc: ToolCall, result: ToolResult)
    requires Timeless(t)
    ensures Finish(t, m1, tc, result) == Finish(t, m2, tc, result)
  {
    if t.postToolUse.Some? {
      assert t.postToolUse.value(m1, tc, result) == t.postToolUse.value(0, tc, result);
      assert t.postToolUse.value(m2, tc, result) == t.postToolUse.value(0, tc, result);
    }
  }

  /** Performing a cleared call is the same at any moment, and whoever cleared it. */
  lemma PerformTimeless(t1: Toolbox, t2: Toolbox, m1: nat, m2: nat, turn: nat, tc: ToolCall, a: Approval)
    requires Timeless(t1) && t2 == t1.(approver := t2.approver)
    ensures Perform(t1, m1, turn, tc, a) == Perform(t2, m2, turn, tc, a)
  {
    var call := if a.updatedInput.Some? then tc.(input := a.updatedInput.value) else tc;
    var input := NonEmpty(call.input);
    assert t1.execute(m1, turn, tc.name, input) == t1.execute(0, turn, tc.name, input);
    assert t1.execute(m2, turn, tc.name, input) == t1.execute(0, turn, tc.name, input);
    var r1, r2 := Perform(t1, m1, turn, tc, a), Perform(t1, m2, turn, tc, a);
    if !a.allow {
      FinishTimeless(t1, m1, m2, tc, ErrorResult(tc.id, PermissionDenied(tc.name, a.reason)));
    } else if Invalid(t1, call).Some? {
      FinishTimeless(t1, m1, m2, call, ErrorResult(tc.id, InvalidArguments(tc.name, Invalid(t1, call).value)));
    } else {
      match t1.execute(0, turn, tc.name, input)
      case Returned(r) => FinishTimeless(t1, m1, m2, call, r.(callID := tc.id));
      case Errored(reason) => FinishTimeless(t1, m1, m2, call, ErrorResult(tc.id, ExecutionError(reason)));
      case ToolPanicked(reason) => FinishTimeless(t1, m1, m2, call, ErrorResult(tc.id, Panicked(reason)));
    }
  }

  /** Two approvers that say the same of the call they are shown make no difference, and
      neither does the moment, if hooks and tools do not look at it. */
  lemma ExecToolTimeless(t1: Toolbox, t2: Toolbox, m1: nat, m2: nat, turn: nat, tc: ToolCall)
    requires Timeless(t1) && HookTimeless(t1)
    requires t2 == t1.(approver := t2.approver) && (t1.approver.Some? <==> t2.approver.Some?)
    requires var shown := Shown(t1, 0, tc, None);
             t1.approver.Some? && shown.Some? ==>
               t1.approver.value(m1, turn, shown.value) == t2.approver.value(m2, turn, shown.value)
    ensures ExecTool(t1, m1, turn, tc, None) == ExecTool(t2, m2, turn, tc, None)
  {
    if t1.preToolUse.Some? {
      assert t1.preToolUse.value(m1, tc) == t1.preToolUse.value(0, tc);
      assert t1.preToolUse.value(m2, tc) == t1.preToolUse.value(0, tc);
    }
    if t1.known.None? {
      FinishTimeless(t1, m1, m2, tc, ErrorResult(tc.id, NoTools));
    } else if !t1.known.value(tc.name) {
      FinishTimeless(t1, m1, m2, tc, ErrorResult(tc.id, UnknownTool(tc.name)));
    } else {
      match Consult(t1, m1, turn, tc)
      case Postpone =>
      case Reject(call, result) => FinishTimeless(t1, m1, m2, call, result);
      case Clear(call, a) => PerformTimeless(t1, t2, m1, m2, turn, call, a);
    }
  }

  /** Answering a postponed call with a recorded decision has the same outcome as an
      approver that had given that decision on the spot, provided no pre-tool hook
      rewrites calls (a resumed call skips it). */
  lemma DecisionReplacesApprover(t: Toolbox, direct: Toolbox, m1: nat, m2: nat, turn: nat, tc: ToolCall, a: Approval)
    requires Timeless(t)
    requires t.preToolUse.None? && t.approver.Some? && direct.approver.Some?
    requires direct == t.(approver := direct.approver)
    requires direct.approver.value(m2, turn, tc) == Decided(a)
    requires t.known.Some? && t.known.value(tc.name) && Invalid(t, tc).None?
    ensures ExecTool(t, m1, turn, tc, Some(a)) == ExecTool(direct, m2, turn, tc, None)
  {
    PerformTimeless(t, direct, m1, m2, turn, tc, a);
  }
}

/** The log of a run: its interactions with the outside world, in the order they happen. */
module RunLog {
  import opened Gage
  import opened ToolCalls

  datatype How = Executed(input: string) | NotExecuted | Waiting

  datatype Step =
    | Ask(turn: nat, attempt: nat, conversation: seq<Message>, request: seq<Message>)
    | Accepted(turn: nat, usage: Usage)
    | Compacted(usage: Usage)
    | Issued(turn: nat, calls: seq<ToolCall>)
    | ToolStep(turn: nat, index: nat, call: ToolCall, how: How)
    | Sent(turn: nat, event: Event)
    | Lost(turn: nat, event: Event)

  type Log = seq<Step>

  predicate IsDelivery(s: Step) {
    s.Sent? || s.Lost?
  }

  function HowOf(r: Reply): How {
    if r.Deferred? then Waiting else if r.ran.Some? then Executed(r.ran.value) else NotExecuted
  }

  /** The answers, in call order. */
  function ResultsOf(outcomes: seq<Reply>): seq<ToolResult> {
    if outcomes == [] then []
    else
      var last := outcomes[|outcomes| - 1];
      ResultsOf(outcomes[..|outcomes| - 1]) + if last.Answered? then [last.result] else []
  }

  /** The postponed calls, in call order. */
  function PendingOf(calls: seq<ToolCall>, outcomes: seq<Reply>): seq<ToolCall>
    requires |calls| == |outcomes|
  {
    if outcomes == [] then []
    else
      var n := |outcomes| - 1;
      PendingOf(calls[..n], outcomes[..n]) + if outcomes[n].Deferred? then [calls[n]] else []
  }
}

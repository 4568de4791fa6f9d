/** The types every component shares: messages, tool calls and results, usage,
    errors, checkpoints and the events of a run. */
module Gage {

  datatype Option<+T> = None | Some(value: T)

  datatype Outcome<+T, +E> = Ok(value: T) | Fail(error: E)

  datatype Role = RoleSystem | RoleUser | RoleAssistant | RoleTool

  datatype ToolCall = ToolCall(id: string, name: string, input: string)

  /** An absent input stands for the empty object. */
  function NonEmpty(input: string): string {
    if input == "" then "{}" else input
  }

  /** The content of a tool result. Each message the agent itself composes is a
      constructor holding the values the text is formatted from. */
  datatype Payload =
    | Plain(text: string)
    | NoTools
    | UnknownTool(name: string)
    | BlockedByHook(reason: string)
    | InvalidArguments(name: string, reason: string)
    | PermissionFailed(reason: string)
    | PermissionDenied(name: string, reason: string)
    | Panicked(reason: string)
    | ExecutionError(reason: string)
    | LoopWarning(name: string, count: int)

  datatype ToolResult = ToolResult(callID: string, content: Payload, isError: bool)

  function ErrorResult(id: string, content: Payload): ToolResult {
    ToolResult(id, content, true)
  }

  datatype Part =
    | TextPart(text: string)
    | ReasoningPart(thought: string, signature: string)
    | ToolUsePart(call: ToolCall)
    | ToolResultPart(result: ToolResult)
    | MediaPart(payload: string)

  datatype Message = Message(role: Role, content: seq<Part>)

  function UserText(s: string): Message {
    Message(RoleUser, [TextPart(s)])
  }

  function ToolResultMessage(r: ToolResult): Message {
    Message(RoleTool, [ToolResultPart(r)])
  }

  /** The text of a message: its text parts, concatenated. */
  function TextOf(parts: seq<Part>): string {
    if parts == [] then ""
    else
      var last := parts[|parts| - 1];
      TextOf(parts[..|parts| - 1]) + if last.TextPart? then last.text else ""
  }

  /** The tool calls of a message, in order. */
  function CallsOf(parts: seq<Part>): seq<ToolCall> {
    if parts == [] then []
    else
      var last := parts[|parts| - 1];
      CallsOf(parts[..|parts| - 1]) + if last.ToolUsePart? then [last.call] else []
  }

  function ToolResultMessages(results: seq<ToolResult>): seq<Message> {
    seq(|results|, k requires 0 <= k < |results| => ToolResultMessage(results[k]))
  }

  datatype Usage = Usage(input: int, output: int, reasoning: int, cacheRead: int, cacheWrite: int) {
    function Add(o: Usage): Usage {
      Usage(input + o.input, output + o.output, reasoning + o.reasoning,
            cacheRead + o.cacheRead, cacheWrite + o.cacheWrite)
    }

    function Total(): int {
      input + output
    }
  }

  const InputOf := (u: Usage) => u.input
  const OutputOf := (u: Usage) => u.output
  const ReasoningOf := (u: Usage) => u.reasoning
  const CacheReadOf := (u: Usage) => u.cacheRead
  const CacheWriteOf := (u: Usage) => u.cacheWrite

  const ZERO_USAGE := Usage(0, 0, 0, 0, 0)

  type StopReason = string

  datatype Err =
    | AuthError
    | UnsupportedError
    | CanceledError
    | DeadlineError
    | BudgetExceeded(used: int, budget: int)
    | LoopDetected(name: string, count: int)
    | MaxTurnsReached
    | OtherError(msg: string)
    | Wrapped(context: string, cause: Err)
  {
    /** errors.Is: this error or one it wraps is `target`. */
    predicate Is(target: Err) {
      this == target || (Wrapped? && cause.Is(target))
    }
  }

  datatype Approval = Approval(allow: bool, reason: string, updatedInput: Option<string>)

  datatype Checkpoint = Checkpoint(
    messages: seq<Message>,
    turn: nat,
    usage: Usage,
    stopReason: StopReason,
    calls: seq<ToolCall>,
    results: seq<ToolResult>)

  datatype RunResult = RunResult(
    messages: seq<Message>,
    text: string,
    stopReason: StopReason,
    usage: Usage,
    turns: nat)

  datatype Event =
    | MessageStart
    | TextDelta(text: string)
    | ReasoningDelta(text: string)
    | ReasoningDone(signature: string)
    | ToolCallStart(call: ToolCall)
    | ToolCallDelta(call: ToolCall)
    | ToolCallDone(call: ToolCall)
    | ToolResultEvent(result: ToolResult)
    | UsageEvent(usage: Usage)
    | MessageDone(stopReason: StopReason)
    | ErrorEvent(err: Option<Err>, msg: string)
    | PausedEvent(checkpoint: Checkpoint)
    | DoneEvent(summary: RunResult)

  /** The text of the most recent assistant message that has any. */
  function LastAssistantText(msgs: seq<Message>): string {
    if msgs == [] then ""
    else
      var last := msgs[|msgs| - 1];
      if last.role.RoleAssistant? && TextOf(last.content) != "" then TextOf(last.content)
      else LastAssistantText(msgs[..|msgs| - 1])
  }
}

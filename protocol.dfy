/**
 * The values exchanged between a session, the model and the user: response
 * items streamed by the model, the items sent back to it, user input, review
 * decisions, approval policies, sandbox kinds and the errors a turn can end in.
 */
module Protocol {
  import opened Wrappers

  datatype ContentItem =
    | InputText(text: string)
    | InputImage(imageUrl: string)
    | OutputText(text: string)

  /** The `exec` action of a local shell call. */
  datatype ShellAction = ShellAction(command: seq<string>, workingDirectory: Option<string>, timeoutMs: Option<nat>)

  datatype FunctionCallOutputPayload = FunctionCallOutputPayload(content: string, success: Option<bool>)

  /** An item of the conversation, as streamed by the model or kept in the history. */
  datatype ResponseItem =
    | Message(role: string, content: seq<ContentItem>)
    | Reasoning(id: string, summary: seq<string>, reasoningContent: Option<seq<string>>)
    | LocalShellCall(shellId: Option<string>, shellCallId: Option<string>, action: ShellAction)
    | FunctionCall(name: string, arguments: string, callId: string)
    | FunctionCallOutput(callId: string, output: FunctionCallOutputPayload)
    | Other

  /** A finished MCP tool call: its content, already serialised, and its `is_error` flag. */
  datatype McpCallResult = McpCallResult(serializedContent: string, isError: Option<bool>)

  /** An item sent back to the model in the next turn. */
  datatype ResponseInputItem =
    | InputMessage(role: string, content: seq<ContentItem>)
    | FunctionCallOutputInput(callId: string, output: FunctionCallOutputPayload)
    | McpToolCallOutput(callId: string, result: Result<McpCallResult, string>)

  datatype InputItem = Text(text: string) | Image(imageUrl: string)

  function InputContent(item: InputItem): (c: ContentItem)
    ensures item.Text? ==> c == InputText(item.text)
    ensures item.Image? ==> c == InputImage(item.imageUrl)
  {
    match item
    case Text(text) => InputText(text)
    case Image(url) => InputImage(url)
  }

  /** User input as one `user` message, item for item. */
  function UserMessage(items: seq<InputItem>): (m: ResponseInputItem)
    ensures m.InputMessage? && m.role == "user" && |m.content| == |items|
    ensures forall i :: 0 <= i < |items| ==> m.content[i] == InputContent(items[i])
  {
    InputMessage("user", seq(|items|, i requires 0 <= i < |items| => InputContent(items[i])))
  }

  datatype ReviewDecision = Approved | ApprovedForSession | Denied | Abort

  datatype AskForApproval = UnlessTrusted | OnFailure | OnRequest | Never

  datatype SandboxType = NoSandbox | MacosSeatbelt | LinuxSeccomp

  /** The `Debug` rendering of a sandbox type. */
  function SandboxTypeName(t: SandboxType): (name: string)
    ensures t == NoSandbox <==> name == "None"
    ensures t == MacosSeatbelt <==> name == "MacosSeatbelt"
    ensures t == LinuxSeccomp <==> name == "LinuxSeccomp"
  {
    match t
    case NoSandbox => "None"
    case MacosSeatbelt => "MacosSeatbelt"
    case LinuxSeccomp => "LinuxSeccomp"
  }

  /** The verdict of the command safety assessment. */
  datatype SafetyCheck = AutoApprove(sandboxType: SandboxType) | AskUser | Reject(reason: string)

  datatype SandboxErrKind = SandboxDenied | SandboxTimeout | SandboxSignal
  /** A sandbox failure and its `Display` text. */
  datatype SandboxErr = SandboxErr(kind: SandboxErrKind, display: string)

  /** The errors a model turn can end in; `display` is the error's `Display` text. */
  datatype CodexErr =
    | Interrupted
    | EnvVar(variable: string)
    | UsageLimitReached(display: string)
    | UsageNotIncluded
    | StreamErr(display: string)
    | SandboxFailed(sandboxErr: SandboxErr)
    | InternalAgentDied
    | OtherErr(display: string)

  datatype TaskKind = RegularTask | CompactTask(instructions: string)

  /** A running task of the session, identified by the submission that started it. */
  datatype AgentTask = AgentTask(subId: string, kind: TaskKind)

  /** The operations a client submits to the agent. */
  datatype Op =
    | Interrupt
    | UserInput(items: seq<InputItem>)
    | ExecApproval(approvalId: string, decision: ReviewDecision)
    | PatchApproval(approvalId: string, decision: ReviewDecision)
    | Compact
    | Shutdown

  datatype Submission = Submission(id: string, op: Op)
}

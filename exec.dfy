/**
 * Running a command the model asked for: the safety verdict decides whether
 * it runs in a sandbox, runs unsandboxed after the user approves, or is
 * rejected; a sandbox failure may be retried without the sandbox once the
 * user approves. The verdict, the user's decisions and the outcomes of the
 * runs are inputs; the session's approval bookkeeping is updated as it goes.
 */
module Exec {
  import opened Wrappers
  import opened Text
  import opened Paths
  import opened Protocol
  import opened Sessions

  /** The outcome of running the command; `formattedOutput` is the JSON text sent to the model. */
  datatype ExecOutcome =
    | ExecOk(exitCode: int, formattedOutput: string)
    | ExecErr(error: CodexErr, display: string)

  /**
   * What the environment answers while one command is handled: the safety
   * verdict, the user's decision when asked to approve, the first run, the
   * decision on retrying without the sandbox, the retry, the effective
   * timeout in milliseconds, whether the shell environment policy asks for
   * the user's profile, and the user shell's invocation of the command when
   * that shell can format one.
   */
  datatype ExecWorld = ExecWorld(
    safety: SafetyCheck,
    decision: ReviewDecision,
    firstRun: ExecOutcome,
    retryDecision: ReviewDecision,
    retryRun: ExecOutcome,
    timeoutMillis: nat,
    useProfile: bool,
    shellInvocation: Option<seq<string>>)

  const RejectedByUser: string := "exec command rejected by user"
  const RetryWithoutSandboxReason: string := "command failed; retry without sandbox?"

  /**
   * `maybe_run_with_user_profile`: with the profile in use and an invocation
   * the user's shell can format, the command runs through that shell;
   * otherwise it runs as given.
   */
  function MaybeRunWithUserProfile(command: seq<string>, useProfile: bool, shellInvocation: Option<seq<string>>): (run: seq<string>)
    ensures !useProfile || shellInvocation.None? ==> run == command
    ensures useProfile && shellInvocation.Some? ==> run == shellInvocation.value
  {
    if useProfile && shellInvocation.Some? then shellInvocation.value else command
  }

  function Answer(callId: string, content: string, success: Option<bool>): ResponseInputItem {
    FunctionCallOutputInput(callId, FunctionCallOutputPayload(content, success))
  }

  predicate Approves(decision: ReviewDecision) {
    decision.Approved? || decision.ApprovedForSession?
  }

  /**
   * Asking the user: the request waits under `subId` until the decision
   * arrives and is then removed; everything else in the state stays.
   */
  method AwaitApproval(sess: Session, subId: string, request: ApprovalRequest, answer: ReviewDecision) returns (decision: ReviewDecision)
    modifies sess.state
    ensures decision == answer
    ensures sess.state.pendingApprovals == old(sess.state.pendingApprovals) - {subId}
    ensures sess.state.approvedCommands == old(sess.state.approvedCommands)
    ensures sess.state.currentTask == old(sess.state.currentTask)
    ensures sess.state.pendingInput == old(sess.state.pendingInput) && sess.state.history == old(sess.state.history)
  {
    sess.RequestCommandApproval(subId, request);
    var _ := sess.NotifyApproval(subId, answer);
    decision := answer;
  }

  /** Whether a sandbox failure is put to the user as a retry without the sandbox. */
  predicate AsksToRetry(policy: AskForApproval, error: SandboxErr) {
    (policy.UnlessTrusted? || policy.OnFailure?) && !error.kind.SandboxTimeout?
  }

  predicate FirstRunSandboxFailed(world: ExecWorld) {
    world.firstRun.ExecErr? && world.firstRun.error.SandboxFailed?
  }

  /** Whether the first run failed in the sandbox in a way that is put to the user. */
  predicate RetryPutToUser(policy: AskForApproval, world: ExecWorld) {
    FirstRunSandboxFailed(world) && AsksToRetry(policy, world.firstRun.error.sandboxErr)
  }

  /** The answer `handle_sandbox_error` sends back to the model, case by case. */
  function SandboxFailureAnswer(policy: AskForApproval, callId: string, error: SandboxErr,
                                sandboxType: SandboxType, world: ExecWorld): ResponseInputItem
  {
    if policy.Never? || policy.OnRequest? then
      Answer(callId, "failed in sandbox " + SandboxTypeName(sandboxType) + " with execution error: " + error.display, Some(false))
    else if error.kind.SandboxTimeout? then
      Answer(callId, "command timed out after " + DecimalString(world.timeoutMillis) + " milliseconds", Some(false))
    else if !Approves(world.retryDecision) then
      Answer(callId, RejectedByUser, None)
    else match world.retryRun
      case ExecOk(exitCode, formatted) => Answer(callId, formatted, Some(exitCode == 0))
      case ExecErr(_, display) => Answer(callId, "retry failed: " + display, None)
  }

  /**
   * `handle_sandbox_error`: under the `Never` and `OnRequest` policies the
   * failure goes back to the model; a timeout goes back to the model; any
   * other failure asks the user whether to retry without the sandbox, and an
   * approval, either kind, adds the command to the approved commands and retries.
   */
  method HandleSandboxError(sess: Session, subId: string, callId: string, command: seq<string>, cwd: Path,
                            error: SandboxErr, sandboxType: SandboxType, world: ExecWorld)
    returns (output: ResponseInputItem, retried: bool)
    modifies sess.state
    ensures sess.approvalPolicy.Never? || sess.approvalPolicy.OnRequest? ==>
      && output == Answer(callId, "failed in sandbox " + SandboxTypeName(sandboxType) + " with execution error: " + error.display, Some(false))
      && !retried && sess.state.pendingApprovals == old(sess.state.pendingApprovals)
    ensures (sess.approvalPolicy.UnlessTrusted? || sess.approvalPolicy.OnFailure?) && error.kind.SandboxTimeout? ==>
      && output == Answer(callId, "command timed out after " + DecimalString(world.timeoutMillis) + " milliseconds", Some(false))
      && !retried && sess.state.pendingApprovals == old(sess.state.pendingApprovals)
    ensures (sess.approvalPolicy.UnlessTrusted? || sess.approvalPolicy.OnFailure?) && !error.kind.SandboxTimeout? ==>
      && sess.state.pendingApprovals == old(sess.state.pendingApprovals) - {subId}
      && (retried <==> Approves(world.retryDecision))
    ensures !retried ==> sess.state.approvedCommands == old(sess.state.approvedCommands)
    ensures retried ==> sess.state.approvedCommands == old(sess.state.approvedCommands) + {command}
    ensures retried && world.retryRun.ExecOk? ==>
      output == Answer(callId, world.retryRun.formattedOutput, Some(world.retryRun.exitCode == 0))
    ensures retried && world.retryRun.ExecErr? ==> output == Answer(callId, "retry failed: " + world.retryRun.display, None)
    ensures (sess.approvalPolicy.UnlessTrusted? || sess.approvalPolicy.OnFailure?) && !error.kind.SandboxTimeout? && !retried ==>
      output == Answer(callId, RejectedByUser, None)
    ensures output == SandboxFailureAnswer(sess.approvalPolicy, callId, error, sandboxType, world)
    ensures retried <==> AsksToRetry(sess.approvalPolicy, error) && Approves(world.retryDecision)
    ensures sess.state.currentTask == old(sess.state.currentTask)
    ensures sess.state.pendingInput == old(sess.state.pendingInput) && sess.state.history == old(sess.state.history)
  {
    retried := false;
    if sess.approvalPolicy.Never? || sess.approvalPolicy.OnRequest? {
      output := Answer(callId, "failed in sandbox " + SandboxTypeName(sandboxType) + " with execution error: " + error.display, Some(false));
      return;
    }
    if error.kind.SandboxTimeout? {
      output := Answer(callId, "command timed out after " + DecimalString(world.timeoutMillis) + " milliseconds", Some(false));
      return;
    }
    var request := ApprovalRequest(callId, command, cwd, Some(RetryWithoutSandboxReason));
    var decision := AwaitApproval(sess, subId, request, world.retryDecision);
    if Approves(decision) {
      sess.AddApprovedCommand(command);
      retried := true;
      match world.retryRun
      case ExecOk(exitCode, formatted) =>
        output := Answer(callId, formatted, Some(exitCode == 0));
      case ExecErr(_, display) =>
        output := Answer(callId, "retry failed: " + display, None);
    } else {
      output := Answer(callId, RejectedByUser, None);
    }
  }

  /**
   * `handle_container_exec_with_params` for a command that is not a patch:
   * an auto-approved command runs in the sandbox the verdict names; a
   * command that needs approval runs unsandboxed once approved, and is added
   * to the approved commands when approved for the session; a denied or
   * rejected command never runs. Every run uses the command as wrapped by
   * `MaybeRunWithUserProfile`, and a sandbox retry asks about and approves
   * that wrapped command. `runs` lists the sandbox of each run, in order.
   */
  method HandleContainerExec(sess: Session, subId: string, callId: string, command: seq<string>, cwd: Path,
                             justification: Option<string>, world: ExecWorld)
    returns (output: ResponseInputItem, runs: seq<SandboxType>)
    modifies sess.state
    ensures output.FunctionCallOutputInput? && output.callId == callId
    ensures |runs| <= 2
    ensures world.safety.Reject? ==>
      output == Answer(callId, "exec command rejected: " + world.safety.reason, None) && runs == []
    ensures world.safety.AskUser? && !Approves(world.decision) ==> output == Answer(callId, RejectedByUser, None) && runs == []
    ensures world.safety.AskUser? && Approves(world.decision) ==> runs != [] && runs[0] == NoSandbox
    ensures world.safety.AskUser? && world.decision.ApprovedForSession? ==> command in sess.state.approvedCommands
    ensures world.safety.AutoApprove? ==> runs != [] && runs[0] == world.safety.sandboxType
    ensures runs != [] && world.firstRun.ExecOk? ==>
      |runs| == 1 && output == Answer(callId, world.firstRun.formattedOutput, Some(world.firstRun.exitCode == 0))
    ensures runs != [] && world.firstRun.ExecErr? && !world.firstRun.error.SandboxFailed? ==>
      |runs| == 1 && output == Answer(callId, "execution error: " + world.firstRun.display, None)
    ensures |runs| == 2 ==> (runs[1] == NoSandbox && Approves(world.retryDecision)
      && world.firstRun.ExecErr? && world.firstRun.error.SandboxFailed?)
    ensures runs != [] && FirstRunSandboxFailed(world) ==>
      output == SandboxFailureAnswer(sess.approvalPolicy, callId, world.firstRun.error.sandboxErr, runs[0], world)
    ensures |runs| == 2 <==> runs != [] && RetryPutToUser(sess.approvalPolicy, world) && Approves(world.retryDecision)
    ensures old(sess.state.approvedCommands) <= sess.state.approvedCommands
      <= old(sess.state.approvedCommands) + {command, MaybeRunWithUserProfile(command, world.useProfile, world.shellInvocation)}
    ensures runs == [] ==> sess.state.approvedCommands == old(sess.state.approvedCommands)
    ensures sess.state.approvedCommands == old(sess.state.approvedCommands)
      + (if world.safety.AskUser? && world.decision.ApprovedForSession? then {command} else {})
      + (if |runs| == 2 then {MaybeRunWithUserProfile(command, world.useProfile, world.shellInvocation)} else {})
    ensures sess.state.pendingApprovals == old(sess.state.pendingApprovals)
      || sess.state.pendingApprovals == old(sess.state.pendingApprovals) - {subId}
    ensures world.safety.AskUser? || (runs != [] && RetryPutToUser(sess.approvalPolicy, world)) ==>
      sess.state.pendingApprovals == old(sess.state.pendingApprovals) - {subId}
    ensures !world.safety.AskUser? && !(runs != [] && RetryPutToUser(sess.approvalPolicy, world)) ==>
      sess.state.pendingApprovals == old(sess.state.pendingApprovals)
    ensures sess.state.currentTask == old(sess.state.currentTask)
    ensures sess.state.pendingInput == old(sess.state.pendingInput) && sess.state.history == old(sess.state.history)
  {
    var sandboxType: SandboxType;
    match world.safety {
      case AutoApprove(t) =>
        sandboxType := t;
      case AskUser =>
        var request := ApprovalRequest(callId, command, cwd, justification);
        var decision := AwaitApproval(sess, subId, request, world.decision);
        if decision.ApprovedForSession? {
          sess.AddApprovedCommand(command);
        } else if !decision.Approved? {
          return Answer(callId, RejectedByUser, None), [];
        }
        sandboxType := NoSandbox;
      case Reject(reason) =>
        return Answer(callId, "exec command rejected: " + reason, None), [];
    }
    runs := [sandboxType];
    var runCommand := MaybeRunWithUserProfile(command, world.useProfile, world.shellInvocation);
    match world.firstRun {
      case ExecOk(exitCode, formatted) =>
        output := Answer(callId, formatted, Some(exitCode == 0));
      case ExecErr(error, display) =>
        if error.SandboxFailed? {
          var retried;
          output, retried := HandleSandboxError(sess, subId, callId, runCommand, cwd, error.sandboxErr, sandboxType, world);
          if retried {
            runs := runs + [NoSandbox];
          }
        } else {
          output := Answer(callId, "execution error: " + display, None);
        }
    }
  }
}

/**
 * The mutable state of an agent session and the operations on it: at most
 * one running task, a FIFO of user input injected while a task runs, the
 * approvals the session is waiting for, the commands approved for the rest
 * of the session, and the conversation history. `Codex` is the client side:
 * it numbers submissions and queues them for the agent.
 */
module Sessions {
  import opened Wrappers
  import opened Text
  import opened Paths
  import opened Protocol

  /** What the user is asked to approve: the event `request_command_approval` sends. */
  datatype ApprovalRequest = ApprovalRequest(callId: string, command: seq<string>, cwd: Path, reason: Option<string>)

  class State {
    var approvedCommands: set<seq<string>>
    var currentTask: Option<AgentTask>
    /** Keyed by submission id; each entry stands for the channel its answer goes to. */
    var pendingApprovals: map<string, ApprovalRequest>
    var pendingInput: seq<ResponseInputItem>
    var history: seq<ResponseItem>

    /** The default state, with the given history. */
    constructor (history: seq<ResponseItem>)
      ensures approvedCommands == {} && currentTask.None? && pendingApprovals == map[]
      ensures pendingInput == [] && this.history == history
    {
      approvedCommands := {};
      currentTask := None;
      pendingApprovals := map[];
      pendingInput := [];
      this.history := history;
    }

    /** `partial_clone`: a new state keeping only the approved commands and the history. */
    method PartialClone() returns (clone: State)
      ensures fresh(clone)
      ensures clone.approvedCommands == approvedCommands && clone.history == history
      ensures clone.currentTask.None? && clone.pendingApprovals == map[] && clone.pendingInput == []
    {
      clone := new State(history);
      clone.approvedCommands := approvedCommands;
    }
  }

  class Session {
    /** Relative paths from the model are resolved against this directory. */
    const cwd: Path
    const approvalPolicy: AskForApproval
    const state: State

    constructor (cwd: Path, approvalPolicy: AskForApproval, state: State)
      ensures this.cwd == cwd && this.approvalPolicy == approvalPolicy && this.state == state
    {
      this.cwd := cwd;
      this.approvalPolicy := approvalPolicy;
      this.state := state;
    }

    /**
     * `resolve_path`: no path means the session directory; an absolute path
     * stands as it is; a relative one is appended to the session directory.
     */
    function ResolvePath(path: Option<string>): (resolved: string)
      ensures path.None? ==> resolved == Display(cwd)
      ensures path.Some? && IsAbsoluteStr(path.value) ==> resolved == path.value
      ensures path.Some? && !IsAbsoluteStr(path.value) ==>
        |resolved| >= |Display(cwd)| + |path.value|
        && resolved[..|Display(cwd)|] == Display(cwd) && resolved[|resolved| - |path.value|..] == path.value
      ensures path.Some? && !IsAbsoluteStr(path.value) ==>
        (|resolved| == |Display(cwd)| + 1 + |path.value| <==> Display(cwd) != [] && Display(cwd)[|Display(cwd)| - 1] != '/')
      ensures path.Some? && !IsAbsoluteStr(path.value) && |resolved| == |Display(cwd)| + 1 + |path.value| ==>
        resolved[|Display(cwd)|] == '/'
    {
      match path
      case None => Display(cwd)
      case Some(p) => PushStr(Display(cwd), p)
    }

    /** Resolving a single path component is joining it onto the session directory. */
    lemma ResolveComponentIsJoin(name: string)
      requires forall i :: 0 <= i < |cwd.names| ==> IsComponentName(cwd.names[i])
      requires IsComponentName(name)
      ensures ResolvePath(Some(name)) == Display(Join(cwd, [name]))
    {
      DisplayJoin(cwd, name);
    }

    /** `set_task`: the new task becomes current; a task it replaces is aborted and returned. */
    method SetTask(task: AgentTask) returns (aborted: Option<AgentTask>)
      modifies state
      ensures state.currentTask == Some(task)
      ensures aborted == old(state.currentTask)
      ensures state.approvedCommands == old(state.approvedCommands) && state.pendingApprovals == old(state.pendingApprovals)
      ensures state.pendingInput == old(state.pendingInput) && state.history == old(state.history)
    {
      aborted := state.currentTask;
      state.currentTask := Some(task);
    }

    /** `remove_task`: clears the current task only when it belongs to submission `subId`. */
    method RemoveTask(subId: string)
      modifies state
      ensures old(state.currentTask).Some? && old(state.currentTask).value.subId == subId ==> state.currentTask.None?
      ensures !(old(state.currentTask).Some? && old(state.currentTask).value.subId == subId) ==>
        state.currentTask == old(state.currentTask)
      ensures state.approvedCommands == old(state.approvedCommands) && state.pendingApprovals == old(state.pendingApprovals)
      ensures state.pendingInput == old(state.pendingInput) && state.history == old(state.history)
    {
      if state.currentTask.Some? && state.currentTask.value.subId == subId {
        state.currentTask := None;
      }
    }

    /**
     * `inject_input`: while a task runs the input is queued as one user
     * message; with no task it is handed back unchanged and nothing changes.
     */
    method InjectInput(input: seq<InputItem>) returns (result: Result<Unit, seq<InputItem>>)
      modifies state
      ensures old(state.currentTask).Some? ==>
        result.Success? && state.pendingInput == old(state.pendingInput) + [UserMessage(input)]
      ensures old(state.currentTask).None? ==>
        result == Failure(input) && state.pendingInput == old(state.pendingInput)
      ensures state.currentTask == old(state.currentTask)
      ensures state.approvedCommands == old(state.approvedCommands) && state.pendingApprovals == old(state.pendingApprovals)
      ensures state.history == old(state.history)
    {
      if state.currentTask.Some? {
        state.pendingInput := state.pendingInput + [UserMessage(input)];
        result := Success(Unit);
      } else {
        result := Failure(input);
      }
    }

    /** `get_pending_input`: takes the whole queue, in injection order, leaving it empty. */
    method GetPendingInput() returns (pending: seq<ResponseInputItem>)
      modifies state
      ensures pending == old(state.pendingInput) && state.pendingInput == []
      ensures state.currentTask == old(state.currentTask)
      ensures state.approvedCommands == old(state.approvedCommands) && state.pendingApprovals == old(state.pendingApprovals)
      ensures state.history == old(state.history)
    {
      if state.pendingInput == [] {
        pending := [];
      } else {
        pending := state.pendingInput;
        state.pendingInput := [];
      }
    }

    /** `request_command_approval`: registers the request under `subId`, replacing an earlier one. */
    method RequestCommandApproval(subId: string, request: ApprovalRequest)
      modifies state
      ensures state.pendingApprovals == old(state.pendingApprovals)[subId := request]
      ensures state.currentTask == old(state.currentTask) && state.approvedCommands == old(state.approvedCommands)
      ensures state.pendingInput == old(state.pendingInput) && state.history == old(state.history)
    {
      state.pendingApprovals := state.pendingApprovals[subId := request];
    }

    /**
     * `notify_approval`: removes the approval waiting under `subId` and
     * returns the request the decision answers; nothing happens when none waits.
     */
    method NotifyApproval(subId: string, decision: ReviewDecision) returns (answered: Option<ApprovalRequest>)
      modifies state
      ensures subId in old(state.pendingApprovals) ==> answered == Some(old(state.pendingApprovals)[subId])
      ensures subId !in old(state.pendingApprovals) ==> answered.None?
      ensures state.pendingApprovals == old(state.pendingApprovals) - {subId}
      ensures state.currentTask == old(state.currentTask) && state.approvedCommands == old(state.approvedCommands)
      ensures state.pendingInput == old(state.pendingInput) && state.history == old(state.history)
    {
      if subId in state.pendingApprovals {
        answered := Some(state.pendingApprovals[subId]);
        state.pendingApprovals := state.pendingApprovals - {subId};
      } else {
        answered := None;
      }
    }

    /** `add_approved_command`. */
    method AddApprovedCommand(command: seq<string>)
      modifies state
      ensures state.approvedCommands == old(state.approvedCommands) + {command}
      ensures state.currentTask == old(state.currentTask) && state.pendingApprovals == old(state.pendingApprovals)
      ensures state.pendingInput == old(state.pendingInput) && state.history == old(state.history)
    {
      state.approvedCommands := state.approvedCommands + {command};
    }

    /**
     * `abort`: drops every waiting approval and all queued input and aborts
     * the current task, which is returned; approved commands and history stay.
     */
    method Abort() returns (aborted: Option<AgentTask>)
      modifies state
      ensures state.pendingApprovals == map[] && state.pendingInput == [] && state.currentTask.None?
      ensures aborted == old(state.currentTask)
      ensures state.approvedCommands == old(state.approvedCommands) && state.history == old(state.history)
    {
      state.pendingApprovals := map[];
      state.pendingInput := [];
      aborted := state.currentTask;
      state.currentTask := None;
    }

    /**
     * The `UserInput` submission: the input joins the running task, or else
     * starts a new task for this submission.
     */
    method OnUserInput(subId: string, items: seq<InputItem>) returns (started: Option<AgentTask>)
      modifies state
      ensures old(state.currentTask).Some? ==>
        started.None? && state.currentTask == old(state.currentTask)
        && state.pendingInput == old(state.pendingInput) + [UserMessage(items)]
      ensures old(state.currentTask).None? ==>
        started == Some(AgentTask(subId, RegularTask)) && state.currentTask == started
        && state.pendingInput == old(state.pendingInput)
      ensures state.approvedCommands == old(state.approvedCommands) && state.pendingApprovals == old(state.pendingApprovals)
      ensures state.history == old(state.history)
    {
      var injected := InjectInput(items);
      if injected.Failure? {
        var task := AgentTask(subId, RegularTask);
        var _ := SetTask(task);
        started := Some(task);
      } else {
        started := None;
      }
    }

    /**
     * The `Compact` submission: a "Start Summarization" message joins the
     * running task, or else starts a compact task with the given instructions.
     */
    method OnCompact(subId: string, instructions: string) returns (started: Option<AgentTask>)
      modifies state
      ensures old(state.currentTask).Some? ==>
        started.None? && state.currentTask == old(state.currentTask)
        && state.pendingInput == old(state.pendingInput) + [UserMessage([Text("Start Summarization")])]
      ensures old(state.currentTask).None? ==>
        started == Some(AgentTask(subId, CompactTask(instructions))) && state.currentTask == started
        && state.pendingInput == old(state.pendingInput)
      ensures state.approvedCommands == old(state.approvedCommands) && state.pendingApprovals == old(state.pendingApprovals)
      ensures state.history == old(state.history)
    {
      var injected := InjectInput([Text("Start Summarization")]);
      if injected.Failure? {
        var task := AgentTask(subId, CompactTask(instructions));
        var _ := SetTask(task);
        started := Some(task);
      } else {
        started := None;
      }
    }

    /**
     * The `ExecApproval` and `PatchApproval` submissions: `Abort` aborts the
     * session's work; any other decision answers the approval waiting under `id`.
     */
    method OnApprovalDecision(id: string, decision: ReviewDecision) returns (answered: Option<ApprovalRequest>)
      modifies state
      ensures decision.Abort? ==>
        answered.None? && state.pendingApprovals == map[] && state.pendingInput == [] && state.currentTask.None?
      ensures !decision.Abort? ==>
        state.pendingApprovals == old(state.pendingApprovals) - {id}
        && (answered.Some? <==> id in old(state.pendingApprovals))
        && state.pendingInput == old(state.pendingInput) && state.currentTask == old(state.currentTask)
      ensures state.approvedCommands == old(state.approvedCommands) && state.history == old(state.history)
    {
      if decision.Abort? {
        var _ := Abort();
        answered := None;
      } else {
        answered := NotifyApproval(id, decision);
      }
    }
  }

  const U64Modulus: nat := 0x1_0000_0000_0000_0000

  /** The client handle: numbers submissions and queues them for the agent. */
  class Codex {
    var nextId: nat
    /** Submissions sent and not yet taken by the agent. */
    var submissions: seq<Submission>
    /** Whether the agent still receives submissions. */
    var agentAlive: bool

    ghost predicate Valid()
      reads this
    {
      nextId < U64Modulus
    }

    constructor ()
      ensures Valid() && nextId == 0 && submissions == [] && agentAlive
    {
      nextId := 0;
      submissions := [];
      agentAlive := true;
    }

    /**
     * `submit`: the id is the counter in decimal; the counter moves on (as a
     * wrapping 64-bit atomic) even when the agent is gone, which is reported
     * as `InternalAgentDied`.
     */
    method Submit(op: Op) returns (result: Result<string, CodexErr>)
      requires Valid()
      modifies this
      ensures Valid()
      ensures nextId == (old(nextId) + 1) % U64Modulus
      ensures agentAlive == old(agentAlive)
      ensures old(agentAlive) ==>
        result == Success(DecimalString(old(nextId)))
        && submissions == old(submissions) + [Submission(DecimalString(old(nextId)), op)]
      ensures !old(agentAlive) ==> result == Failure(InternalAgentDied) && submissions == old(submissions)
    {
      var id := DecimalString(nextId);
      nextId := (nextId + 1) % U64Modulus;
      if agentAlive {
        submissions := submissions + [Submission(id, op)];
        result := Success(id);
      } else {
        result := Failure(InternalAgentDied);
      }
    }
  }

  /**
   * Submission ids do not repeat: the `i`-th and `j`-th submissions after the
   * counter stood at `start` get different ids, as long as fewer than 2^64
   * submissions lie between them.
   */
  lemma SubmissionIdsDistinct(start: nat, i: nat, j: nat)
    requires start < U64Modulus && i < j && j - i < U64Modulus
    ensures DecimalString((start + i) % U64Modulus) != DecimalString((start + j) % U64Modulus)
  {
    if DecimalString((start + i) % U64Modulus) == DecimalString((start + j) % U64Modulus) {
      DecimalStringInjective((start + i) % U64Modulus, (start + j) % U64Modulus);
      ModEqualWithinModulus(start + i, start + j, U64Modulus);
      assert false;
    }
  }

  lemma ModEqualWithinModulus(a: nat, b: nat, m: nat)
    requires m > 0 && a < b && b - a < m
    ensures a % m != b % m
  {
    var qa, qb := a / m, b / m;
    if a % m == b % m {
      assert b - a == qb * m - qa * m;
      var k := qb - qa;
      assert qb * m - qa * m == k * m;
      if k >= 1 {
        MulMonotone(k, m);
      }
    }
  }

  lemma MulMonotone(k: int, m: nat)
    requires k >= 1
    ensures k * m >= m
  {
    assert k * m == (k - 1) * m + m;
  }
}

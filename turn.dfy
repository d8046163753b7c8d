/**
 * The logic of a model turn that does not depend on I/O: repairing a prompt
 * whose tool calls lack outputs, retrying a failed turn, routing each item
 * the model returns to the code that answers it, sorting the turn's output
 * into history and follow-up input, and finding the last assistant message.
 */
module Turns {
  import opened Wrappers
  import opened Protocol

  // ---------------------------------------------------------------------
  // Missing-call repair

  const AbortedPayload: FunctionCallOutputPayload := FunctionCallOutputPayload("aborted", Some(false))

  function AbortedOutput(callId: string): ResponseItem {
    FunctionCallOutput(callId, AbortedPayload)
  }

  /** `item` is a tool call with call id `id`: a function call, or a local shell call that has a call id. */
  predicate CallsWithId(item: ResponseItem, id: string) {
    (item.FunctionCall? && item.callId == id) || (item.LocalShellCall? && item.shellCallId == Some(id))
  }

  /** `item` is the output of the call with id `id`. */
  predicate AnswersId(item: ResponseItem, id: string) {
    item.FunctionCallOutput? && item.callId == id
  }

  function ItemCallIds(item: ResponseItem): (ids: seq<string>)
    ensures forall id :: id in ids <==> CallsWithId(item, id)
    ensures |ids| <= 1
  {
    match item
    case FunctionCall(_, _, callId) => [callId]
    case LocalShellCall(_, Some(callId), _) => [callId]
    case _ => []
  }

  /** The call ids of the tool calls in `items`, in order. */
  function ToolCallIds(items: seq<ResponseItem>): (ids: seq<string>)
    ensures |ids| <= |items|
  {
    if items == [] then []
    else
      assert forall i :: 1 <= i < |items| ==> items[1..][i - 1] == items[i];
      ItemCallIds(items[0]) + ToolCallIds(items[1..])
  }

  /** The call ids that have an output in `items`. */
  function AnsweredCallIds(items: seq<ResponseItem>): (ids: set<string>)
    ensures forall id :: id in ids <==> exists i :: 0 <= i < |items| && AnswersId(items[i], id)
  {
    set i | 0 <= i < |items| && items[i].FunctionCallOutput? :: items[i].callId
  }

  /**
   * The ids `completed_call_ids` collects as written: those of outputs, and
   * also the own call ids of local shell calls.
   */
  function CompletedCallIdsAsWritten(items: seq<ResponseItem>): (ids: set<string>)
    ensures forall id :: id in ids <==>
      exists i :: 0 <= i < |items| && (AnswersId(items[i], id) || (items[i].LocalShellCall? && items[i].shellCallId == Some(id)))
  {
    AnsweredCallIds(items)
      + set i | 0 <= i < |items| && items[i].LocalShellCall? && items[i].shellCallId.Some? :: items[i].shellCallId.value
  }

  /** An aborted output for each id of `ids` not in `completed`, in order. */
  function AbortedOutputs(ids: seq<string>, completed: set<string>): (outputs: seq<ResponseItem>)
    ensures |outputs| <= |ids|
    ensures forall k :: 0 <= k < |outputs| ==>
      outputs[k].FunctionCallOutput? && outputs[k].output == AbortedPayload
      && outputs[k].callId in ids && outputs[k].callId !in completed
    ensures forall id :: id in ids && id !in completed ==> AbortedOutput(id) in outputs
  {
    if ids == [] then []
    else (if ids[0] in completed then [] else [AbortedOutput(ids[0])]) + AbortedOutputs(ids[1..], completed)
  }

  /** The ids `ToolCallIds` collects are exactly those of the tool calls in `items`. */
  lemma {:induction false} ToolCallIdsAreCalls(items: seq<ResponseItem>)
    ensures forall id :: id in ToolCallIds(items) <==> exists i :: 0 <= i < |items| && CallsWithId(items[i], id)
  {
    if items != [] {
      var rest := items[1..];
      ToolCallIdsAreCalls(rest);
      assert forall i :: 1 <= i < |items| ==> rest[i - 1] == items[i];
      forall id | exists i :: 0 <= i < |items| && CallsWithId(items[i], id)
        ensures id in ToolCallIds(items)
      {
        var i :| 0 <= i < |items| && CallsWithId(items[i], id);
        if i > 0 {
          assert CallsWithId(rest[i - 1], id);
        }
      }
    }
  }

  /** Every tool call in `items` has an output in `items`. */
  predicate EveryCallAnswered(items: seq<ResponseItem>) {
    forall id :: id in ToolCallIds(items) ==> id in AnsweredCallIds(items)
  }

  /** The missing-call repair of `try_run_turn` as written. */
  function RepairMissingCallsAsWritten(input: seq<ResponseItem>): (prompt: seq<ResponseItem>)
    ensures |prompt| >= |input| && prompt[|prompt| - |input|..] == input
    ensures forall k :: 0 <= k < |prompt| - |input| ==>
      prompt[k].FunctionCallOutput? && prompt[k].output == AbortedPayload
      && prompt[k].callId in ToolCallIds(input) && prompt[k].callId !in CompletedCallIdsAsWritten(input)
    ensures forall id :: id in ToolCallIds(input) && id !in CompletedCallIdsAsWritten(input) ==> AbortedOutput(id) in prompt
    ensures (forall id :: id in ToolCallIds(input) ==> id in CompletedCallIdsAsWritten(input)) ==> prompt == input
  {
    var missing := AbortedOutputs(ToolCallIds(input), CompletedCallIdsAsWritten(input));
    if missing == [] then input
    else
      assert AbortedOutput(missing[0].callId) in missing;
      missing + input
  }

  /**
   * The missing-call repair: an `aborted` output, with success false, for
   * every tool call without an output, placed before the unchanged input.
   */
  function RepairMissingCalls(input: seq<ResponseItem>): (prompt: seq<ResponseItem>)
    ensures |prompt| >= |input| && prompt[|prompt| - |input|..] == input
    ensures forall k :: 0 <= k < |prompt| - |input| ==>
      prompt[k].FunctionCallOutput? && prompt[k].output == AbortedPayload
      && prompt[k].callId in ToolCallIds(input) && prompt[k].callId !in AnsweredCallIds(input)
    ensures forall id :: id in ToolCallIds(input) && id !in AnsweredCallIds(input) ==> AbortedOutput(id) in prompt
    ensures EveryCallAnswered(input) ==> prompt == input
  {
    var missing := AbortedOutputs(ToolCallIds(input), AnsweredCallIds(input));
    if missing == [] then input
    else
      assert AbortedOutput(missing[0].callId) in missing;
      missing + input
  }

  lemma {:induction false} ToolCallIdsAppend(a: seq<ResponseItem>, b: seq<ResponseItem>)
    ensures ToolCallIds(a + b) == ToolCallIds(a) + ToolCallIds(b)
  {
    if a != [] {
      assert (a + b)[1..] == a[1..] + b;
      ToolCallIdsAppend(a[1..], b);
    } else {
      assert a + b == b;
    }
  }

  lemma AnsweredCallIdsAppend(a: seq<ResponseItem>, b: seq<ResponseItem>)
    ensures AnsweredCallIds(a + b) == AnsweredCallIds(a) + AnsweredCallIds(b)
  {
    forall id | id in AnsweredCallIds(a + b) ensures id in AnsweredCallIds(a) + AnsweredCallIds(b) {
      var i :| 0 <= i < |a + b| && AnswersId((a + b)[i], id);
      if i >= |a| {
        assert b[i - |a|] == (a + b)[i];
      } else {
        assert a[i] == (a + b)[i];
      }
    }
    forall id | id in AnsweredCallIds(a) ensures id in AnsweredCallIds(a + b) {
      var i :| 0 <= i < |a| && AnswersId(a[i], id);
      assert (a + b)[i] == a[i];
    }
    forall id | id in AnsweredCallIds(b) ensures id in AnsweredCallIds(a + b) {
      var i :| 0 <= i < |b| && AnswersId(b[i], id);
      assert (a + b)[|a| + i] == b[i];
    }
  }

  /** The output items the repair adds are not tool calls. */
  lemma {:induction false} OutputsHaveNoCallIds(outputs: seq<ResponseItem>)
    requires forall k :: 0 <= k < |outputs| ==> outputs[k].FunctionCallOutput?
    ensures ToolCallIds(outputs) == []
  {
    if outputs != [] {
      OutputsHaveNoCallIds(outputs[1..]);
    }
  }

  /** After the repair every tool call of the prompt has an output. */
  lemma RepairAnswersEveryCall(input: seq<ResponseItem>)
    ensures EveryCallAnswered(RepairMissingCalls(input))
  {
    var missing := AbortedOutputs(ToolCallIds(input), AnsweredCallIds(input));
    if missing != [] {
      OutputsHaveNoCallIds(missing);
      ToolCallIdsAppend(missing, input);
      AnsweredCallIdsAppend(missing, input);
      forall id | id in ToolCallIds(input) && id !in AnsweredCallIds(input)
        ensures id in AnsweredCallIds(missing)
      {
        var k :| 0 <= k < |missing| && missing[k] == AbortedOutput(id);
        assert AnswersId(missing[k], id);
      }
    }
  }

  /** Repairing a repaired prompt changes nothing. */
  lemma RepairIdempotent(input: seq<ResponseItem>)
    ensures RepairMissingCalls(RepairMissingCalls(input)) == RepairMissingCalls(input)
  {
    RepairAnswersEveryCall(input);
  }

  /**
   * As written, a local shell call counts as its own output, so one left
   * without an output is never repaired; the corrected repair answers it.
   */
  lemma LocalShellCallNotRepairedAsWritten(callId: string, action: ShellAction)
    ensures var input := [LocalShellCall(None, Some(callId), action)];
      && RepairMissingCallsAsWritten(input) == input
      && !EveryCallAnswered(RepairMissingCallsAsWritten(input))
      && RepairMissingCalls(input) == [AbortedOutput(callId)] + input
  {
    var input := [LocalShellCall(None, Some(callId), action)];
    assert ToolCallIds(input) == [callId] by {
      assert input[1..] == [];
    }
    assert callId in CompletedCallIdsAsWritten(input) by {
      assert input[0].LocalShellCall? && input[0].shellCallId == Some(callId);
    }
    assert AnsweredCallIds(input) == {};
    assert AbortedOutputs([callId], {}) == [AbortedOutput(callId)] by {
      assert [callId][1..] == [];
    }
  }

  // ---------------------------------------------------------------------
  // Retrying a turn

  /** The errors `run_turn` returns at once instead of retrying. */
  function IsFatalTurnError(e: CodexErr): (fatal: bool)
    ensures fatal <==> e.Interrupted? || e.EnvVar? || e.UsageLimitReached? || e.UsageNotIncluded?
    ensures e.StreamErr? || e.SandboxFailed? || e.OtherErr? ==> !fatal
  {
    e.Interrupted? || e.EnvVar? || e.UsageLimitReached? || e.UsageNotIncluded?
  }

  /**
   * `run_turn`'s retry loop; `attempt(k)` is the outcome of the `k`-th try.
   * Success and the fatal errors end it at once; any other error is retried
   * while fewer than `maxRetries` retries have been made, and then returned.
   */
  method RunTurn<T>(attempt: nat -> Result<T, CodexErr>, maxRetries: nat) returns (result: Result<T, CodexErr>, retries: nat)
    ensures retries <= maxRetries && result == attempt(retries)
    ensures forall k :: 0 <= k < retries ==> attempt(k).Failure? && !IsFatalTurnError(attempt(k).error)
    ensures result.Failure? && !IsFatalTurnError(result.error) ==> retries == maxRetries
  {
    retries := 0;
    while true
      invariant retries <= maxRetries
      invariant forall k :: 0 <= k < retries ==> attempt(k).Failure? && !IsFatalTurnError(attempt(k).error)
      decreases maxRetries - retries
    {
      result := attempt(retries);
      if result.Success? || IsFatalTurnError(result.error) || retries == maxRetries {
        return;
      }
      retries := retries + 1;
    }
  }

  datatype CompactOutcome = CompactCompleted | CompactInterrupted | CompactFailed(error: CodexErr)

  /**
   * `run_compact_task`'s retry loop: only an interruption ends it early
   * (silently); any other error is retried up to `maxRetries` times and then reported.
   */
  method RunCompactTask(attempt: nat -> Result<Unit, CodexErr>, maxRetries: nat) returns (outcome: CompactOutcome, retries: nat)
    ensures retries <= maxRetries
    ensures forall k :: 0 <= k < retries ==> attempt(k).Failure? && !attempt(k).error.Interrupted?
    ensures outcome == CompactCompleted <==> attempt(retries).Success?
    ensures outcome == CompactInterrupted <==> attempt(retries) == Failure(Interrupted)
    ensures outcome.CompactFailed? ==> attempt(retries) == Failure(outcome.error) && retries == maxRetries
  {
    retries := 0;
    while true
      invariant retries <= maxRetries
      invariant forall k :: 0 <= k < retries ==> attempt(k).Failure? && !attempt(k).error.Interrupted?
      decreases maxRetries - retries
    {
      var result := attempt(retries);
      if result.Success? {
        return CompactCompleted, retries;
      } else if result.error.Interrupted? {
        return CompactInterrupted, retries;
      } else if retries < maxRetries {
        retries := retries + 1;
      } else {
        return CompactFailed(result.error), retries;
      }
    }
  }

  // ---------------------------------------------------------------------
  // Routing the items of a turn

  /** The arguments of a shell tool call (`ShellToolCallParams`). */
  datatype ShellCallParams = ShellCallParams(command: seq<string>, workdir: Option<string>, timeoutMs: Option<nat>)

  /** Where an item of the model's output goes. */
  datatype Dispatch =
    | RunShell(callId: string, params: ShellCallParams)
    | UpdatePlan(callId: string, arguments: string)
    | CallMcpTool(callId: string, server: string, tool: string, arguments: string)
    | Reply(callId: string, content: string)

  /** A reply: a function call output with no success flag. */
  function ReplyOutput(d: Dispatch): ResponseInputItem
    requires d.Reply?
  {
    FunctionCallOutputInput(d.callId, FunctionCallOutputPayload(d.content, None))
  }

  /** The call id a response answers; a message answers none. */
  function ResponseCallId(r: ResponseInputItem): Option<string> {
    if r.InputMessage? then None else Some(r.callId)
  }

  /**
   * `handle_function_call`'s dispatch on the function name: `container.exec`
   * and `shell` run a command (or reply with the argument error),
   * `update_plan` updates the plan, a name the MCP manager recognises calls
   * that tool, and anything else is answered as unsupported.
   */
  function DispatchFunctionCall(name: string, arguments: string, callId: string,
                                parseArguments: string -> Result<ShellCallParams, string>,
                                parseToolName: string -> Option<(string, string)>): (d: Dispatch)
    ensures d.callId == callId
    ensures d.RunShell? <==> (name == "container.exec" || name == "shell") && parseArguments(arguments).Success?
    ensures d.RunShell? ==> d.params == parseArguments(arguments).value
    ensures (name == "container.exec" || name == "shell") && parseArguments(arguments).Failure? ==>
      d == Reply(callId, "failed to parse function arguments: " + parseArguments(arguments).error)
    ensures d.UpdatePlan? <==> name == "update_plan"
    ensures d.CallMcpTool? <==> name != "container.exec" && name != "shell" && name != "update_plan" && parseToolName(name).Some?
    ensures d.CallMcpTool? ==> (d.server, d.tool) == parseToolName(name).value && d.arguments == arguments
    ensures name != "container.exec" && name != "shell" && name != "update_plan" && parseToolName(name).None? ==>
      d == Reply(callId, "unsupported call: " + name)
  {
    if name == "container.exec" || name == "shell" then
      match parseArguments(arguments)
      case Success(params) => RunShell(callId, params)
      case Failure(e) => Reply(callId, "failed to parse function arguments: " + e)
    else if name == "update_plan" then
      UpdatePlan(callId, arguments)
    else
      match parseToolName(name)
      case Some((server, tool)) => CallMcpTool(callId, server, tool, arguments)
      case None => Reply(callId, "unsupported call: " + name)
  }

  /**
   * `handle_response_item`: messages, reasoning, stray outputs and unknown
   * items need no answer; a function call is dispatched by name; a local
   * shell call runs under its call id, else its id, else is answered with an
   * error under the empty call id.
   */
  function DispatchResponseItem(item: ResponseItem,
                                parseArguments: string -> Result<ShellCallParams, string>,
                                parseToolName: string -> Option<(string, string)>): (d: Option<Dispatch>)
    ensures d.None? <==> !item.FunctionCall? && !item.LocalShellCall?
    ensures item.FunctionCall? ==>
      d == Some(DispatchFunctionCall(item.name, item.arguments, item.callId, parseArguments, parseToolName))
    ensures item.LocalShellCall? && (item.shellCallId.Some? || item.shellId.Some?) ==>
      d.Some? && d.value.RunShell?
      && d.value.params == ShellCallParams(item.action.command, item.action.workingDirectory, item.action.timeoutMs)
    ensures item.LocalShellCall? && item.shellCallId.None? && item.shellId.Some? ==> d.value.callId == item.shellId.value
    ensures item.LocalShellCall? && item.shellCallId.None? && item.shellId.None? ==>
      d == Some(Reply("", "LocalShellCall without call_id or id"))
    ensures forall id :: CallsWithId(item, id) ==> d.Some? && d.value.callId == id
  {
    match item
    case FunctionCall(name, arguments, callId) =>
      Some(DispatchFunctionCall(name, arguments, callId, parseArguments, parseToolName))
    case LocalShellCall(id, callId, action) =>
      var params := ShellCallParams(action.command, action.workingDirectory, action.timeoutMs);
      if callId.Some? then Some(RunShell(callId.value, params))
      else if id.Some? then Some(RunShell(id.value, params))
      else Some(Reply("", "LocalShellCall without call_id or id"))
    case _ => None
  }

  // ---------------------------------------------------------------------
  // Sorting the output of a turn

  datatype ProcessedResponseItem = ProcessedResponseItem(item: ResponseItem, response: Option<ResponseInputItem>)

  /** An MCP tool call's result as a function call output: its content and flag, or its error with success true. */
  function McpOutputPayload(result: Result<McpCallResult, string>): (payload: FunctionCallOutputPayload)
    ensures result.Success? ==> payload == FunctionCallOutputPayload(result.value.serializedContent, result.value.isError)
    ensures result.Failure? ==> payload == FunctionCallOutputPayload(result.error, Some(true))
  {
    match result
    case Success(r) => FunctionCallOutputPayload(r.serializedContent, r.isError)
    case Failure(e) => FunctionCallOutputPayload(e, Some(true))
  }

  /**
   * What `run_task` records in the history for one processed item: an
   * assistant message or reasoning that got no response is kept; a tool
   * call is kept together with its output; anything else is only logged.
   */
  function RecordedItems(p: ProcessedResponseItem): (items: seq<ResponseItem>)
    ensures |items| <= 2
    ensures |items| == 2 ==> (items[0] == p.item && p.response.Some? && items[1].FunctionCallOutput?
      && ResponseCallId(p.response.value) == Some(items[1].callId))
    ensures |items| == 1 ==> items[0] == p.item && p.response.None?
    ensures p.item.Message? && p.response.None? ==> (items == [p.item] <==> p.item.role == "assistant")
    ensures p.item.Message? && p.response.None? && p.item.role != "assistant" ==> items == []
    ensures p.item.Reasoning? && p.response.None? ==> items == [p.item]
    ensures (p.item.LocalShellCall? || p.item.FunctionCall?) && p.response.Some? && p.response.value.FunctionCallOutputInput? ==>
      items == [p.item, FunctionCallOutput(p.response.value.callId, p.response.value.output)]
    ensures p.item.FunctionCall? && p.response.Some? && p.response.value.McpToolCallOutput? ==>
      items == [p.item, FunctionCallOutput(p.response.value.callId, McpOutputPayload(p.response.value.result))]
    ensures items != [] ==>
      || (p.item.Message? && p.item.role == "assistant" && p.response.None?)
      || (p.item.Reasoning? && p.response.None?)
      || ((p.item.LocalShellCall? || p.item.FunctionCall?) && p.response.Some? && p.response.value.FunctionCallOutputInput?)
      || (p.item.FunctionCall? && p.response.Some? && p.response.value.McpToolCallOutput?)
  {
    match (p.item, p.response)
    case (Message(role, _), None) => if role == "assistant" then [p.item] else []
    case (LocalShellCall(_, _, _), Some(FunctionCallOutputInput(callId, output))) => [p.item, FunctionCallOutput(callId, output)]
    case (FunctionCall(_, _, _), Some(FunctionCallOutputInput(callId, output))) => [p.item, FunctionCallOutput(callId, output)]
    case (FunctionCall(_, _, _), Some(McpToolCallOutput(callId, result))) => [p.item, FunctionCallOutput(callId, McpOutputPayload(result))]
    case (Reasoning(_, _, _), None) => [p.item]
    case _ => []
  }

  /** The history items of a whole turn, in order. */
  function RecordedFrom(output: seq<ProcessedResponseItem>): seq<ResponseItem> {
    if output == [] then [] else RecordedFrom(output[..|output| - 1]) + RecordedItems(output[|output| - 1])
  }

  /** The responses of a whole turn, in order. */
  function ResponsesOf(output: seq<ProcessedResponseItem>): (responses: seq<ResponseInputItem>)
    ensures responses == [] <==> forall i :: 0 <= i < |output| ==> output[i].response.None?
  {
    if output == [] then []
    else
      var last := output[|output| - 1];
      var init := output[..|output| - 1];
      assert forall i :: 0 <= i < |init| ==> init[i] == output[i];
      ResponsesOf(init) + (if last.response.Some? then [last.response.value] else [])
  }

  /**
   * `run_task`'s loop over the processed items of a turn: the items to
   * record in the history and the responses for the next turn; the task is
   * complete when there are no responses, that is when no item needed one.
   */
  method ClassifyTurnOutput(output: seq<ProcessedResponseItem>) returns (toRecord: seq<ResponseItem>, responses: seq<ResponseInputItem>)
    ensures toRecord == RecordedFrom(output)
    ensures responses == ResponsesOf(output)
    ensures responses == [] <==> forall i :: 0 <= i < |output| ==> output[i].response.None?
  {
    toRecord := [];
    responses := [];
    for i := 0 to |output|
      invariant toRecord == RecordedFrom(output[..i])
      invariant responses == ResponsesOf(output[..i])
    {
      assert output[..i + 1][..i] == output[..i];
      var p := output[i];
      toRecord := toRecord + RecordedItems(p);
      if p.response.Some? {
        responses := responses + [p.response.value];
      }
    }
    assert output[..|output|] == output;
  }

  /** Each tool call got a response under its own call id. */
  predicate RespondedUnderOwnId(p: ProcessedResponseItem) {
    forall id :: id in ItemCallIds(p.item) ==> p.response.Some? && ResponseCallId(p.response.value) == Some(id)
  }

  /**
   * A turn whose tool calls were each answered under their own call id
   * records a history in which every tool call has its output, so the
   * missing-call repair leaves it alone.
   */
  lemma {:induction false} RecordedTurnNeedsNoRepair(output: seq<ProcessedResponseItem>)
    requires forall i :: 0 <= i < |output| ==> RespondedUnderOwnId(output[i])
    ensures EveryCallAnswered(RecordedFrom(output))
    ensures RepairMissingCalls(RecordedFrom(output)) == RecordedFrom(output)
  {
    if output != [] {
      var init, last := output[..|output| - 1], output[|output| - 1];
      RecordedTurnNeedsNoRepair(init);
      var a, b := RecordedFrom(init), RecordedItems(last);
      ToolCallIdsAppend(a, b);
      AnsweredCallIdsAppend(a, b);
      ToolCallIdsAreCalls(b);
      forall id | id in ToolCallIds(b) ensures id in AnsweredCallIds(b) {
        var i :| 0 <= i < |b| && CallsWithId(b[i], id);
        assert b[i] == last.item;
        assert id in ItemCallIds(last.item);
        assert AnswersId(b[1], id);
      }
    }
  }

  // ---------------------------------------------------------------------
  // The last assistant message

  /** The text of the last `OutputText` of a message's content. */
  function LastOutputText(content: seq<ContentItem>): (text: Option<string>)
    ensures text.None? <==> forall i :: 0 <= i < |content| ==> !content[i].OutputText?
  {
    if content == [] then None
    else
      var last := content[|content| - 1];
      if last.OutputText? then Some(last.text) else LastOutputText(content[..|content| - 1])
  }

  /** The text found is that of an `OutputText` item with no `OutputText` after it. */
  lemma {:induction false} LastOutputTextIsLast(content: seq<ContentItem>)
    requires LastOutputText(content).Some?
    ensures exists i :: (0 <= i < |content| && content[i] == OutputText(LastOutputText(content).value)
      && forall j :: i < j < |content| ==> !content[j].OutputText?)
  {
    var n := |content| - 1;
    if !content[n].OutputText? {
      var init := content[..n];
      LastOutputTextIsLast(init);
      var i :| 0 <= i < |init| && init[i] == OutputText(LastOutputText(init).value)
        && forall j :: i < j < |init| ==> !init[j].OutputText?;
      assert content[i] == init[i];
      forall j | i < j < |content| ensures !content[j].OutputText? {
        if j < n { assert content[j] == init[j]; }
      }
    }
  }

  /** `item` is an assistant message with some output text. */
  predicate HasAssistantText(item: ResponseItem) {
    item.Message? && item.role == "assistant" && LastOutputText(item.content).Some?
  }

  /**
   * `get_last_assistant_message_from_turn`: the last output text of the
   * latest assistant message that has one; `None` when no assistant message has any.
   */
  function LastAssistantMessage(items: seq<ResponseItem>): (message: Option<string>)
    ensures message.None? <==> forall i :: 0 <= i < |items| ==> !HasAssistantText(items[i])
  {
    if items == [] then None
    else
      var last := items[|items| - 1];
      if HasAssistantText(last) then LastOutputText(last.content)
      else LastAssistantMessage(items[..|items| - 1])
  }

  /** The message found is the last output text of the latest assistant message that has one. */
  lemma {:induction false} LastAssistantMessageIsLatest(items: seq<ResponseItem>)
    requires LastAssistantMessage(items).Some?
    ensures exists i :: (0 <= i < |items| && HasAssistantText(items[i])
      && LastAssistantMessage(items).value == LastOutputText(items[i].content).value
      && forall j :: i < j < |items| ==> !HasAssistantText(items[j]))
  {
    var n := |items| - 1;
    if !HasAssistantText(items[n]) {
      var init := items[..n];
      assert LastAssistantMessage(items) == LastAssistantMessage(init);
      LastAssistantMessageIsLatest(init);
      var i :| 0 <= i < |init| && HasAssistantText(init[i])
        && LastAssistantMessage(init).value == LastOutputText(init[i].content).value
        && forall j :: i < j < |init| ==> !HasAssistantText(init[j]);
      assert items[i] == init[i];
      forall j | i < j < |items| ensures !HasAssistantText(items[j]) {
        if j < n { assert items[j] == init[j]; }
      }
    }
  }
}

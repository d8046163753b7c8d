# Codex agent session core and plugin loading, modelled in Dafny

This project models two parts of the Codex agent core, `codex-rs/core`.

**The agent session (`codex.rs`).**
- A client handle numbers each submission with a wrapping 64-bit counter and queues it for the agent.
- The session holds mutable state:
  - at most one running task;
  - a FIFO of user input injected while a task runs;
  - the command approvals it is waiting for, keyed by submission id;
  - the commands approved for the rest of the session;
  - the conversation history.
- A turn sends the history to the model. Before that, the missing-call repair gives tool calls without an output an `aborted` output. As written, the repair skips local shell calls (see Findings). The model keeps that version and a corrected repair that answers every call; the rest of the model uses the corrected one. A failed turn is retried unless the error is fatal.
- Each item the model returns is routed by kind and name:
  - a shell command;
  - a plan update;
  - an MCP tool;
  - an "unsupported call" reply.
- The turn's output is split into the items recorded in the history and the responses fed back in the next turn. The task ends when a turn needs no response.
- A shell command runs according to the safety verdict: sandboxed, unsandboxed after approval, or not at all. A sandbox failure may be retried without the sandbox once the user approves.

**Plugin loading (`plugins.rs`).**
- Each configured plugin is loaded through a short-circuiting chain:
  - it must be enabled;
  - its root must be a directory;
  - its manifest must be present and valid.
- The manifest gives the plugin's name. The plugin directory gives its skill roots and its MCP server definitions; those definitions are normalised on the way in.
- The active plugins' skill roots are merged sorted and without duplicates. Their MCP servers are merged with the first definition winning.
- A manager caches the load outcome per working directory.

Files and modules:
- `wrappers.dfy`: `Option`, `Result`, `Unit`.
- `orders.dfy`: lexicographic order on sequences, and sorted insertion into a strictly ascending sequence. Sorting and deduplication are modelled by this insertion.
- `text.dfy`: decimal rendering of a number, and whitespace trimming.
- `paths.dfy`:
  - paths as an absolute flag plus a list of names;
  - component-wise ordering (the order `Path` sorts by);
  - join, file name and ancestors;
  - `PathBuf::push` on display strings.
- `plugins.dfy`: everything in `plugins.rs`. The filesystem is a value: a set of directories and a map from file paths to their parsed JSON contents. `PluginsManager` is a class whose cache is a field.
- `protocol.dfy`: the protocol values a session exchanges.
- `session.dfy`:
  - the classes `State`, `Session` and `Codex`;
  - methods that update the session state in place; each method states the whole new state.
- `turn.dfy`:
  - missing-call repair;
  - the two retry loops;
  - routing of response items;
  - sorting a turn's output;
  - the last assistant message.
- `exec.dfy`: the approval and sandbox decisions of `handle_container_exec_with_params` and `handle_sandbox_error`.

The model leaves out anything that talks to the outside world. The model's stream, command execution and the user's decisions appear as inputs. In `RunTurn`, for example, `attempt(k)` is the outcome of the `k`-th try. In `HandleContainerExec`, an `ExecWorld` value carries the safety verdict, the decisions and the run outcomes.

## Model

| member | source | states |
|---|---|---|
| `Plugins.IsActive` | codex-rs/core/src/plugins.rs:36-40 | a plugin is active exactly when it is enabled and has no error |
| `Plugins.ActiveSkillRoots` | codex-rs/core/src/plugins.rs:49-54 | a root is collected exactly when some active plugin lists it |
| `Plugins.EffectiveSkillRoots` | codex-rs/core/src/plugins.rs:48-58 | the result is strictly ascending in path order, so it is sorted and free of duplicates, and it holds exactly the skill roots of the enabled plugins without an error |
| `Plugins.InsertAbsent` | codex-rs/core/src/plugins.rs:62-67 | inserting only absent names keeps every existing entry and adds the new names' definitions: the union in which the existing map wins |
| `Plugins.FirstDefinitionsAreFirst` | codex-rs/core/src/plugins.rs:60-70 | merging the active plugins' servers in list order, an earlier definition winning, keeps exactly the names some active plugin defines, each with the first active definer's definition |
| `Plugins.EffectiveMcpServers` | codex-rs/core/src/plugins.rs:60-70 | the keys are exactly the server names defined by some active plugin; each name maps to the definition of the first active plugin, in list order, that defines it |
| `Plugins.ParseManifest` | codex-rs/core/src/plugins.rs:163-166 | a manifest deserialises exactly from an object whose `name` is a string, or from an array holding exactly one string (the derived sequence form); it keeps that name |
| `Plugins.LoadPluginManifest` | codex-rs/core/src/plugins.rs:275-291 | there is a manifest exactly when `.codex-plugin/plugin.json` under the root exists, reads as JSON and deserialises |
| `Plugins.PluginManifestName` | codex-rs/core/src/plugins.rs:293-300 | a non-blank manifest name is used as is; a blank one is replaced by the root's file name when there is one; the result is blank only if the root's file name is blank or missing |
| `Plugins.DefaultSkillRoots` | codex-rs/core/src/plugins.rs:302-309 | the result is exactly `<root>/skills` when that is a directory, and otherwise empty |
| `Plugins.DefaultMcpConfigPaths` | codex-rs/core/src/plugins.rs:311-320 | the result is exactly `<root>/.mcp.json` when that file exists, and otherwise empty |
| `Plugins.ParseMcpFile` | codex-rs/core/src/plugins.rs:168-173 | the file deserialises exactly when it is an object whose optional `mcpServers` member is an object, or an array that is empty or holds exactly one object (the derived sequence form); a missing member or an empty array gives no servers |
| `Plugins.NormalizePluginMcpServerValue` | codex-rs/core/src/plugins.rs:369-411 | a non-object becomes an empty object; `type` and `oauth` are always removed; a relative string `cwd` becomes the plugin root with `cwd` pushed onto it; every other member is unchanged |
| `Plugins.NormalizePluginMcpServers` | codex-rs/core/src/plugins.rs:343-367 | a server is kept exactly when its normalised definition deserialises, and it is stored normalised |
| `Plugins.LoadMcpServersFromFile` | codex-rs/core/src/plugins.rs:322-341 | a missing, unreadable or malformed file contributes no servers; otherwise the file contributes its accepted, normalised servers |
| `Plugins.InsertAll` | codex-rs/core/src/plugins.rs:260-268 | every entry of a file's servers is inserted, overwriting an earlier definition of the same name; other entries stay |
| `Plugins.LoadMcpServersFromFiles` | codex-rs/core/src/plugins.rs:257-270 | the servers of the config files in order, each file's definitions overriding those of earlier files |
| `Plugins.LoadPlugin` | codex-rs/core/src/plugins.rs:229-273 | a disabled plugin gets no contributions and no error; a root that is not a directory, or a missing or invalid manifest, gives the matching error and no contributions; otherwise the plugin gets its manifest name, its skill roots and the union of its MCP files' servers, a later file overriding an earlier one; the plugin is active exactly when it is enabled, its root is a directory and it has a manifest |
| `Plugins.SortedConfigNames` | codex-rs/core/src/plugins.rs:176-179 | the configured names, strictly ascending, each exactly once |
| `Plugins.LoadPluginsFromLayerStack` | codex-rs/core/src/plugins.rs:175-201 | one record per configured entry, in ascending name order; each record is what `load_plugin` gives for that entry |
| `Plugins.LoadedOutcomeUnique` | codex-rs/core/src/plugins.rs:88-115 | the configuration and the filesystem determine the load outcome, so a cached outcome equals a fresh load while neither has changed |
| `Plugins.PluginNamespaceForSkillPath` | codex-rs/core/src/plugins.rs:203-211 | the result is `None` exactly when no ancestor of the path, the path itself included, has a manifest; otherwise it is the manifest name of the nearest such ancestor |
| `Plugins.PluginsManager.constructor` | codex-rs/core/src/plugins.rs:78-82 | a new manager has an empty cache |
| `Plugins.PluginsManager.CachedOutcomeForCwd` | codex-rs/core/src/plugins.rs:125-130 | the result is the cached outcome for the directory, or `None` when nothing is cached for it |
| `Plugins.PluginsManager.PluginsForLayerStack` | codex-rs/core/src/plugins.rs:88-115 | with the feature off, the empty outcome, which is also cached; without a forced reload and with a cached entry, that entry, with the cache unchanged; otherwise a fresh load, cached for the directory |
| `Plugins.PluginsManager.PluginsForConfig` | codex-rs/core/src/plugins.rs:84-86 | the same as `PluginsForLayerStack` without a forced reload |
| `Plugins.PluginsManager.ClearCache` | codex-rs/core/src/plugins.rs:117-123 | the cache is empty afterwards |
| `Paths.PushStr` | codex-rs/core/src/plugins.rs:401-408 | pushing an absolute path gives that path; pushing a relative one gives the base, then the relative path, with a `/` between them exactly when the base is non-empty and does not already end in `/` |
| `Paths.DisplayJoin` | codex-rs/core/src/plugins.rs:401-408 | joining one component onto a path and displaying it gives the same text as pushing the component onto the displayed path |
| `Paths.FileName` | codex-rs/core/src/plugins.rs:294-296 | the file name is the last normal component, and there is none for a root |
| `Paths.Ancestor` | codex-rs/core/src/plugins.rs:204 | the `k`-th ancestor keeps the path's first `k` names |
| `Text.TrimEmptyIffBlank` | codex-rs/core/src/plugins.rs:297 | a string trims to the empty string exactly when every character is whitespace |
| `Text.DecimalStringInjective` | codex-rs/core/src/codex.rs:175-184 | different counter values give different submission ids |
| `Sessions.Codex.constructor` | codex-rs/core/src/codex.rs:158-163 | the counter starts at 0 and the queue is empty |
| `Sessions.Codex.Submit` | codex-rs/core/src/codex.rs:175-193 | the id is the old counter in decimal; the counter advances modulo 2^64 even when the agent is gone; a live agent gets the submission appended to its queue; a dead agent gives `InternalAgentDied` and nothing is queued |
| `Sessions.SubmissionIdsDistinct` | codex-rs/core/src/codex.rs:175-184 | two submissions fewer than 2^64 apart get different ids |
| `Sessions.State.constructor` | codex-rs/core/src/codex.rs:252-258 | the default state: nothing approved, no task, no pending approvals, no pending input, and the given history |
| `Sessions.State.PartialClone` | codex-rs/core/src/codex.rs:626-632 | the clone is a new state that keeps the approved commands and the history and resets everything else |
| `Sessions.Session.constructor` | codex-rs/core/src/codex.rs:208-240 | the session has the given directory, approval policy and state |
| `Sessions.Session.ResolvePath` | codex-rs/core/src/codex.rs:243-248 | no path gives the session directory; an absolute path is returned unchanged; a relative path gives the session directory followed by that path, with a `/` between them exactly when the directory's text does not already end in one |
| `Sessions.Session.ResolveComponentIsJoin` | codex-rs/core/src/codex.rs:243-248 | resolving a single path component gives the session directory joined with that component |
| `Sessions.Session.SetTask` | codex-rs/core/src/codex.rs:261-267 | the new task becomes current; the task it replaces is returned for aborting; nothing else changes |
| `Sessions.Session.RemoveTask` | codex-rs/core/src/codex.rs:269-276 | the current task is cleared exactly when it belongs to the given submission |
| `Sessions.Session.InjectInput` | codex-rs/core/src/codex.rs:546-554 | while a task runs, the input is appended to the queue as one user message; with no task the input is handed back and nothing changes |
| `Sessions.Session.GetPendingInput` | codex-rs/core/src/codex.rs:556-565 | returns the whole queue in order and leaves it empty |
| `Sessions.Session.RequestCommandApproval` | codex-rs/core/src/codex.rs:286-336 | the request waits under the submission id, replacing an earlier one |
| `Sessions.Session.NotifyApproval` | codex-rs/core/src/codex.rs:338-343 | the waiting approval is removed and returned; when none waits, nothing changes |
| `Sessions.Session.AddApprovedCommand` | codex-rs/core/src/codex.rs:345-348 | the command joins the approved set |
| `Sessions.Session.Abort` | codex-rs/core/src/codex.rs:579-587 | pending approvals and pending input are dropped; the current task is aborted and returned; approved commands and history stay |
| `Sessions.Session.OnUserInput` | codex-rs/core/src/codex.rs:925-940 | input joins the running task; with no task running, a regular task starts for this submission |
| `Sessions.Session.OnCompact` | codex-rs/core/src/codex.rs:1013-1037 | "Start Summarization" joins the running task; with no task running, a compact task starts with the given instructions |
| `Sessions.Session.OnApprovalDecision` | codex-rs/core/src/codex.rs:941-970 | `Abort` aborts the session's work; any other decision answers the approval waiting under the id and changes nothing else |
| `Protocol.UserMessage` | codex-rs/core/src/codex.rs:546-554 | input items become one `user` message whose content mirrors them item for item |
| `Protocol.SandboxTypeName` | codex-rs/core/src/codex.rs:2035-2049 | each sandbox type has its own name: `None`, `MacosSeatbelt` or `LinuxSeccomp`, and each name belongs to exactly one type |
| `Turns.ItemCallIds` | codex-rs/core/src/codex.rs:1361-1373 | an item's call ids are exactly those it calls with: a function call's id, or a local shell call's call id; there is at most one |
| `Turns.ToolCallIds` | codex-rs/core/src/codex.rs:1361-1373 | the collected ids are at most one per item; `ToolCallIdsAreCalls` states which ids they are |
| `Turns.ToolCallIdsAreCalls` | codex-rs/core/src/codex.rs:1361-1373 | the ids collected are exactly those of the tool calls in the items |
| `Turns.AnsweredCallIds` | codex-rs/core/src/codex.rs:1345-1356 | the ids are exactly those that have a function call output |
| `Turns.CompletedCallIdsAsWritten` | codex-rs/core/src/codex.rs:1345-1356 | as written, the completed ids are the output ids plus the local shell calls' own call ids |
| `Turns.AbortedOutputs` | codex-rs/core/src/codex.rs:1361-1388 | an `aborted` output for each given id that is not completed, and only those |
| `Turns.RepairMissingCallsAsWritten` | codex-rs/core/src/codex.rs:1345-1398 | the repair as written: the input is kept unchanged as a suffix; every item added before it is an `aborted` output, with success false, for a tool call whose id is not completed as written; every tool call whose id is not completed as written gets such an output; an input whose call ids are all completed as written is unchanged |
| `Turns.RepairMissingCalls` | codex-rs/core/src/codex.rs:1345-1398 | the corrected repair (see Findings), where only outputs complete a call: the input is kept unchanged as a suffix; every item added before it is an `aborted` output, with success false, for a tool call that has no output; every tool call without an output gets such an output; an input whose calls all have outputs is unchanged |
| `Turns.ToolCallIdsAppend` | codex-rs/core/src/codex.rs:1361-1373 | the call ids of a concatenation are the concatenation of the call ids |
| `Turns.AnsweredCallIdsAppend` | codex-rs/core/src/codex.rs:1345-1356 | the answered ids of a concatenation are the union of the answered ids |
| `Turns.OutputsHaveNoCallIds` | codex-rs/core/src/codex.rs:1389-1398 | the outputs the repair adds contain no tool calls |
| `Turns.RepairAnswersEveryCall` | codex-rs/core/src/codex.rs:1345-1398 | after the repair, every tool call in the prompt has an output |
| `Turns.RepairIdempotent` | codex-rs/core/src/codex.rs:1345-1398 | repairing a repaired prompt changes nothing |
| `Turns.LocalShellCallNotRepairedAsWritten` | codex-rs/core/src/codex.rs:1345-1356 | as written, a prompt holding only a local shell call with a call id and no output is left unrepaired, although that call has no output; the corrected repair adds its `aborted` output |
| `Turns.IsFatalTurnError` | codex-rs/core/src/codex.rs:1292-1297 | an interruption, a missing environment variable, a reached usage limit and usage not included end the turn at once; stream, sandbox and other errors are retryable |
| `Turns.RunTurn` | codex-rs/core/src/codex.rs:1265-1326 | at most `maxRetries` retries are made; every earlier attempt failed with a non-fatal error; the last attempt is returned; a non-fatal failure is returned only once the retries are spent |
| `Turns.RunCompactTask` | codex-rs/core/src/codex.rs:1520-1555 | only an interruption ends the loop early; success completes the task; any other error is retried up to `maxRetries` times and then reported |
| `Turns.DispatchFunctionCall` | codex-rs/core/src/codex.rs:1699-1742 | `container.exec` and `shell` run the parsed command or reply with the argument error; `update_plan` updates the plan; a name the MCP manager parses calls that server's tool; anything else is answered as unsupported; the answer always carries the call's id |
| `Turns.DispatchResponseItem` | codex-rs/core/src/codex.rs:1576-1697 | only function calls and local shell calls are acted on; a local shell call runs under its call id, else its id, else gets an error reply under the empty id; every tool call is answered under its own call id |
| `Turns.McpOutputPayload` | codex-rs/core/src/codex.rs:1176-1197 | an MCP result is recorded with its content and `is_error` flag; an MCP error is recorded as its message with success true |
| `Turns.RecordedItems` | codex-rs/core/src/codex.rs:1143-1222 | an unanswered assistant message or reasoning item is recorded alone, and an unanswered message with another role not at all; a local shell call or function call answered by a function call output is recorded with that output; a function call answered by an MCP result is recorded with the MCP payload as an output; every other pairing records nothing |
| `Turns.ResponsesOf` | codex-rs/core/src/codex.rs:1143-1222 | the turn has no responses exactly when no item got one |
| `Turns.ClassifyTurnOutput` | codex-rs/core/src/codex.rs:1139-1242 | the items recorded and the responses collected, each in turn order; the task completes exactly when no item needed a response |
| `Turns.RecordedTurnNeedsNoRepair` | codex-rs/core/src/codex.rs:1139-1242 | a turn in which every tool call was answered under its own id records a history where every call has an output, so the repair leaves that history unchanged |
| `Turns.LastOutputText` | codex-rs/core/src/codex.rs:2193-2211 | `None` exactly when the content has no output-text item |
| `Turns.LastOutputTextIsLast` | codex-rs/core/src/codex.rs:2193-2211 | the text found is that of an output-text item with no output-text item after it |
| `Turns.LastAssistantMessage` | codex-rs/core/src/codex.rs:2193-2211 | `None` exactly when no assistant message has any output text |
| `Turns.LastAssistantMessageIsLatest` | codex-rs/core/src/codex.rs:2193-2211 | the message found is the last output text of the latest assistant message that has one |
| `Exec.AwaitApproval` | codex-rs/core/src/codex.rs:1899-1923 | the request waits under the submission id until the user's decision arrives, then it is removed; the decision is returned and nothing else changes |
| `Exec.MaybeRunWithUserProfile` | codex-rs/core/src/codex.rs:1786-1796 | with the profile in use and an invocation the user's shell can format, the command runs through that invocation; otherwise it runs as given |
| `Exec.HandleSandboxError` | codex-rs/core/src/codex.rs:2021-2162 | under `Never` and `OnRequest`, and on a timeout, the failure goes back to the model with success false and nothing is asked; otherwise the user is asked, and either kind of approval adds the command to the approved set and retries without the sandbox, the answer being the retry's output or "retry failed", while a refusal answers "exec command rejected by user"; the answer is `SandboxFailureAnswer` |
| `Exec.HandleContainerExec` | codex-rs/core/src/codex.rs:1897-2019 | a rejected command never runs; one needing approval runs unsandboxed only when approved; an auto-approved one runs in the named sandbox; a sandbox failure is answered as `SandboxFailureAnswer` for the first run's sandbox, and is retried unsandboxed exactly when it is put to the user and approved; any other outcome is answered directly; the requested command joins the approved set exactly when approved for the session, and the command as run (wrapped by the user's profile when in use) joins it exactly when retried; an approval is awaited under the submission id, and then removed, exactly when the user is asked; the answer always carries the call's id |

## Left out

- Async tasks, channels, `ctrl_c`, the event stream to the client and user notifications are not modelled. The agent loop is not modelled either. `Submit` appends to a queue instead of a channel, and "the agent is gone" is a flag.
- The streaming model client is not modelled. In `RunTurn` and `RunCompactTask` each attempt's outcome is an input. The backoff delay is not modelled, and neither is building the prompt in `run_turn`.
- The compact task's final history replacement (`keep_last_messages`) is not modelled.
- The conversation history is a plain sequence. The filtering in `record_items` and the rollout recorder are not part of this model.
- `assess_command_safety`, the environment policy and `to_exec_params` are outside this model. Their result enters as `ExecWorld.safety`. `maybe_run_with_user_profile` is modelled by `Exec.MaybeRunWithUserProfile`. The `use_profile` setting and the user shell's formatted invocation (`format_default_shell_invocation`) enter as `ExecWorld.useProfile` and `ExecWorld.shellInvocation`.
- Running a process is not modelled, nor `format_exec_output`. The run outcome and its formatted text enter as `ExecWorld.firstRun` and `ExecWorld.retryRun`. The `Display` texts of errors are also taken as data.
- The `apply_patch` branch of `handle_container_exec_with_params` and the patch approval flow are outside this model. `update_plan` is only routed, and its handling is not modelled.
- The MCP connection manager and the tool call itself are not modelled. Parsing an MCP tool name and parsing shell-call arguments are the `parseToolName` and `parseArguments` parameters.
- `LocalImage` user input is not modelled: its conversion reads a file.
- Of the submission loop, `ConfigureSession`, `Shutdown`, `AddToHistory` and `GetHistoryEntry` are not modelled. `ConfigureSession` is represented only by `State.PartialClone` and the default state.
- `Interrupt` appears only as `Session.Abort`.
- JSON and TOML text parsing are not modelled: files hold JSON values that are already parsed. The derived deserialisation of the manifest and of the MCP file is modelled. Whether a normalised server definition deserialises into `McpServerConfig` is the `parses` parameter.
- The transport and OAuth warnings are not modelled, and neither is the log of duplicate MCP server names.
- `Plugins.LoadPluginsFromLayerStack` keeps the map of seen MCP server names, as the source does. That map only feeds the duplicate-name warning, so no contract mentions it.
- `Turns.McpOutputPayload` takes an MCP result's serialised content as data. The branch where serialising the content fails, which records the error text with success true, is not modelled.
- The plugins feature flag is a boolean in `LayerStack`. The layering of configuration files is outside this model.
- The manager's `RwLock`, and its recovery from a poisoned lock, are not modelled.
- Paths are sequences of normal components with an absolute flag. `.`, `..`, prefixes and non-UTF-8 names are not modelled. `PushStr` models `PathBuf::push` on display strings without normalising repeated separators.
- `sort_unstable` followed by `dedup` is modelled by sorted insertion into a strictly ascending sequence. The result is the same; the algorithm is not.
- `Sessions.Codex.Submit` does not model the atomic counter's concurrent use.
- The integration tests are not part of this model.

## Findings

| source | as written | input that shows it | evidently intended | confidence | as-written member | corrected member |
|---|---|---|---|---|---|---|
| codex-rs/core/src/codex.rs:1345-1356 | `completed_call_ids` collects the call ids of function call outputs and also the call id of every local shell call, so a local shell call always counts as its own output | a prompt holding only a local shell call with some `call_id` and no output | only outputs complete a call, so the shell call gets an `aborted` output like a function call does; such prompts arise when the compact task records items it never handles | medium, not executed | `Turns.LocalShellCallNotRepairedAsWritten` | `Turns.RepairAnswersEveryCall` |

# drift orchestration core in Dafny

drift is an LLM coding agent. A session holds a conversation context, a tool registry, a loop
detector, hooks and an approval policy. The agent runs at most `max_turns` turns. In each turn
it streams the model's reply and appends exactly one assistant message. It then runs the
requested tool calls in order through the registry's pipeline (lookup, validation, before-hook,
confirmation and approval, execution, after-hook) and appends one result per call. Finally it
checks for loops, records token usage and prunes old tool output when the context fills up.

This project models that core and proves what it promises:

- the loop detector's bounded history and its repeat and cycle checks;
- the context store: token accounting, the compaction trigger, replacement by a summary, and
  pruning of old tool output;
- the approval engine's decision per policy;
- the tool registry and its invocation pipeline, with one after-hook on every path;
- the turn loop, with sessions, events and persistence;
- the LLM client's folding of streamed tool-call deltas, and token usage arithmetic;
- token truncation and lexical paths;
- configuration merging and validation;
- error formatting, hooks and the UI helpers;
- the decision logic of the builtin tools: edit_file, read_file, todos, memory, shell,
  git_branch, git_stash, git_commit and the dependency tools.

The module files follow the source's:

| Dafny file | source |
|---|---|
| loop_detection.dfy | core/context/loop_detector.py |
| context.dfy, messages.dfy, compaction.dfy | core/context/manager.py, models.py, compaction.py |
| approval.dfy | core/safety/approval.py, core/safety/models.py |
| registry.dfy, tools_base.dfy, tool_models.dfy | core/tools/registry.py, base.py, models.py |
| agent.dfy, session.dfy, events.dfy, persistence.dfy | core/agent/ |
| llm_models.dfy, llm_client.dfy | core/llm/models.py, core/llm/client.py |
| text.dfy, paths.dfy | core/utils/text.py, core/utils/paths.py |
| config.dfy, config_loader.dfy | core/config/schema.py, core/config/loader.py |
| errors.dfy | core/exceptions.py |
| hooks.dfy | core/hooks/system.py, core/hooks/environment.py |
| ui_helpers.dfy | core/ui/helpers.py |
| edit_file.dfy, read_file.dfy, todo.dfy, memory.dfy, shell.dfy, git_branch.dfy, git_stash.dfy, git_commit.dfy, dependencies.dfy | core/tools/builtin/ |
| workspace.dfy, process.dfy, listing.dfy | what the shell, git and dependency tools share |
| strings.dfy, json.dfy, wrappers.dfy | Python `str` operations, JSON-like values, Option and Result |

Classes model what the source updates in place: the loop detector, the context manager, the
registry, the session, the agent, the hook system, the configuration, and the todos and
memory tools. Loops that update variables are methods. Each method's contract ties its result
or new state to a function, and the lemmas state what the source promises about that function.

Everything outside the core becomes a parameter:

- the tokenizer is a counter `count: string -> nat`;
- the regular-expression classifiers are predicates;
- `Path.resolve()` is an abstract normaliser;
- `json.dumps` and `json.loads`, `str()` of a value, `datetime.now()` and `isoformat`, and
  `uuid4()` are parameters or inputs;
- what the disk holds is an `entry` or `file` input;
- a child process is an oracle `run` that says how the command ended;
- the model's streamed reply is a sequence of chunks or events;
- the confirmation callback is an oracle that answers yes or no;
- running a hook is observed as a trace of the runs a trigger starts.

`async` code is modelled as sequential calls.

## Model

| member | source | states |
|---|---|---|
| LoopDetection.Pushed | core/context/loop_detector.py:55 | appending to the 20-entry deque adds the entry last and drops the oldest when it is full |
| LoopDetection.SignatureParts | core/context/loop_detector.py:76-86 | the signature parts: the action type; for "tool_call" the tool name (default "") then the arguments; for "response" the text (default "") |
| LoopDetection.ToolCallEntriesSorted | core/context/loop_detector.py:82-84 | a tool call's argument parts are "k=v", one per key, in strictly increasing key order |
| LoopDetection.SignatureNamesTool | core/context/loop_detector.py:76-88 | split at "\|", a tool call's signature gives "tool_call" and then the tool's name, so calls of two different (pipe-free) tools never share a signature |
| LoopDetection.DescribesLoopUnique | core/context/loop_detector.py:107-130 | the verdict is a function of the history and thresholds |
| LoopDetection.BuildArgEntries | core/context/loop_detector.py:82-84 | the `for k in sorted(args.keys())` loop builds one entry per sorted key |
| LoopDetection.BuildCallParts | core/context/loop_detector.py:76-84 | the parts of a tool call's signature are built part by part |
| LoopDetection.BuildSignature | core/context/loop_detector.py:76-88 | the `output` list grown part by part and joined by "\|" is `Signature` |
| LoopDetection.ReportsRepeat | core/context/loop_detector.py:111-116 | a history whose newest `max_exact_repeats` entries are equal is reported as a repeat of that entry |
| LoopDetection.ReportsCycle | core/context/loop_detector.py:119-128 | otherwise the smallest cycle length in range whose two newest runs agree is reported |
| LoopDetection.ReportsNothing | core/context/loop_detector.py:107-130 | a history shorter than 2, or with neither a repeat nor a cycle, reports nothing |
| LoopDetection.FindLoop | core/context/loop_detector.py:107-130 | the body of `check_for_loop` returns exactly the verdict `DescribesLoop` gives |
| LoopDetection.SmallestCycle | core/context/loop_detector.py:122-128 | the cycle loop finds the first length from 2 whose two newest runs agree, or reports that none below the bound does |
| LoopDetection.LoopDetector.constructor | core/context/loop_detector.py:48-55 | a new detector has an empty history and the given thresholds |
| LoopDetection.LoopDetector.RecordAction | core/context/loop_detector.py:57-90 | `record_action` appends the action's signature to the bounded history |
| LoopDetection.LoopDetector.CheckForLoop | core/context/loop_detector.py:92-130 | `check_for_loop` returns the verdict `DescribesLoop` gives for the history |
| LoopDetection.LoopDetector.Clear | core/context/loop_detector.py:132-141 | `clear` empties the history |
| LoopDetection.ClearedReportsNothing | core/context/loop_detector.py:107-108 | after `clear()` nothing is reported, whatever the thresholds |
| LoopDetection.FreshHistoryAfterFour | core/context/loop_detector.py:89 | recording A, B, A, B into a fresh history keeps exactly those four |
| LoopDetection.AlternatingFourNotReported | core/context/loop_detector.py:111-130 | with the default thresholds A, B, A, B is not reported |
| LoopDetection.ThreeCycleReported | core/context/loop_detector.py:119-128 | with the default thresholds A, B, C, A, B, C is reported as a cycle of length 3 |
| LoopDetection.CycleByElements | core/context/loop_detector.py:126-127 | the two newest runs agree when they agree position by position |
| LoopDetection.NoCycleAtElement | core/context/loop_detector.py:126-127 | one position where the two newest runs differ rules that cycle length out |
| Messages.ToDict | core/context/models.py:71-82 | the wire form always has "role"; it has "tool_call_id" exactly for a non-empty id, "tool_calls" exactly for a non-empty list and "content" exactly for non-empty content, each with the stored value, and no other key |
| Messages.WireFormReadsBack | core/context/models.py:71-82 | reading the wire form back with the defaults "" and [] gives the stored content, tool calls and role |
| Context.AssistantItem | core/context/manager.py:138-143 | an assistant message stores None content as "" and None tool calls as [], with the token count of the stored content, no call id and not pruned |
| Context.ContinuationContent | core/context/manager.py:274-286 | the first summary message is the fixed restoration header, then the summary verbatim, then the fixed tail |
| Context.SummaryMessages | core/context/manager.py:272-319 | `replace_with_summary` leaves exactly three messages, user, assistant and user, the first embedding the summary, each with its own token count and not pruned |
| Context.CountUsers | core/context/manager.py:340-342 | the user messages counted are among the messages |
| Context.Scan | core/context/manager.py:351-363 | a scan that finds no candidate frees no tokens |
| Context.ScanCandidatesValid | core/context/manager.py:351-363 | every candidate is an unpruned tool result with a call id, and the candidates run newest first |
| Context.Redact | core/context/manager.py:370-373 | a pruned message keeps its role and call links and gets the cleared content, its token count and the pruning time |
| Context.RedactAtIndex | core/context/manager.py:370-374 | redacting the candidates changes exactly the candidate messages, each to its redacted form |
| Context.RedactAtStep | core/context/manager.py:370-374 | redacting one more candidate updates just that message |
| Context.Pruned | core/context/manager.py:340-377 | pruning keeps the number of messages; a zero count means nothing changed; with fewer than two user messages nothing changes and 0 is returned |
| Context.PrunedAt | core/context/manager.py:351-377 | message `i` keeps its role and call links through pruning, and if it changed it was an unpruned tool result and is now its redacted form |
| Context.PruneEffect | core/context/manager.py:351-377 | pruning keeps every message's role and call links and only redacts unpruned tool results |
| Context.CountUsersSameRoles | core/context/manager.py:340-342 | two message lists with the same roles have the same number of user messages |
| Context.RedactedPrefix | core/context/manager.py:351-363 | dropping the newest message keeps two lists related by redaction when that message was no candidate |
| Context.RescanFreesNothing | core/context/manager.py:351-363 | after the candidates of a scan are redacted, scanning again from the same running total frees nothing |
| Context.PruneIdempotent | core/context/manager.py:340-377 | pruning twice with no new messages returns 0 the second time and changes nothing |
| Context.WireMessages | core/context/manager.py:190-203 | `get_messages` sends the system prompt first exactly when it is non-empty, then every stored message's wire form in order |
| Context.WireMessagesStep | core/context/manager.py:200-201 | one more stored message adds exactly its wire form at the end |
| Context.ScanCandidates | core/context/manager.py:347-363 | the newest-first loop accumulating the running total computes exactly the scan's candidates and freed tokens |
| Context.RedactCandidates | core/context/manager.py:370-374 | the rewrite loop redacts exactly the candidates |
| Context.NearlyFull | core/context/manager.py:219-222 | compression is needed exactly when the latest request used more than 0.8 of the context window |
| Context.ContextManager.constructor | core/context/manager.py:65-81 | a new context keeps its prompt, window and tokenizer and starts with no messages and zero latest and total usage |
| Context.ContextManager.MessageCount | core/context/manager.py:84-93 | `message_count` is the number of stored messages |
| Context.ContextManager.AddUserMessage | core/context/manager.py:108-113 | exactly one user message with its token count is appended |
| Context.ContextManager.AddAssistantMessage | core/context/manager.py:138-144 | exactly one assistant message is appended |
| Context.ContextManager.AddToolResult | core/context/manager.py:165-171 | exactly one tool message carrying its call id is appended |
| Context.ContextManager.GetMessages | core/context/manager.py:190-203 | the loop builds exactly the wire messages |
| Context.ContextManager.SetLatestUsage | core/context/manager.py:238 | the latest usage is replaced |
| Context.ContextManager.AddUsage | core/context/manager.py:254 | the total becomes the component-wise sum, so no component decreases |
| Context.ContextManager.ReplaceWithSummary | core/context/manager.py:272-319 | the messages become exactly the three summary messages |
| Context.ContextManager.PruneToolOutputs | core/context/manager.py:340-377 | the messages and the returned count are those pruning defines |
| Context.ContextManager.Clear | core/context/manager.py:387 | no message is left |
| Compaction.Truncated | core/context/compaction.py:79-81 | content within the limit is kept whole; longer content keeps exactly its first `limit` characters followed by the truncation marker (the same rule at lines 87-89 and 107-109) |
| Compaction.CutArguments | core/context/compaction.py:98-99 | argument text within 500 characters is kept, longer text is cut to 500 characters plus "...", so never more than 503 |
| Compaction.ToolCallLines | core/context/compaction.py:93-100 | one `  - name(args)` line per tool call |
| Compaction.Sections | core/context/compaction.py:70-110 | a "system" message contributes no section, and no message more than two |
| Compaction.Transcript | core/context/compaction.py:67-112 | the transcript always opens with the "Here is the conversation that needs to be continued:" header |
| Compaction.SystemMessagesIgnored | core/context/compaction.py:73-74 | dropping the system messages leaves the transcript unchanged |
| Compaction.BuildToolDetails | core/context/compaction.py:93-100 | the loop over an assistant message's tool calls builds exactly one line per call |
| Compaction.MessageSections | core/context/compaction.py:70-110 | the loop body adds exactly the sections the message contributes |
| Compaction.FormatHistory | core/context/compaction.py:67-112 | the single pass over the messages produces exactly the transcript: the header, then every message's sections, joined by the separator |
| Compaction.ReadReply | core/context/compaction.py:159-169 | reading the reply fails exactly when some event of it is an ERROR |
| Compaction.Absorb | core/context/compaction.py:163-169 | one more event leaves the reading failed exactly when it had failed or the event is an ERROR |
| Compaction.ReadReplyNext | core/context/compaction.py:159-169 | the reading of a longer prefix is the reading of the shorter one plus its next event |
| Compaction.CompressResult | core/context/compaction.py:140-179 | `compress` gives a summary and a usage together or neither; neither for fewer than three messages or a reply with an ERROR; a summary it gives is never empty |
| Compaction.Compress | core/context/compaction.py:138-179 | the transcript request is sent exactly when the context has at least three wire messages, and it is the transcript of those messages; the summary and usage are what the reply gives |
| Compaction.ReadEvents | core/context/compaction.py:159-169 | the loop that stops at the first ERROR reads exactly what the whole reply reads |
| Compaction.ReadReplyStaysFailed | core/context/compaction.py:167-169 | once an ERROR has been read, later events change nothing |
| Approval.Context | core/safety/models.py:71-82 | a context built from a name, parameters and the mutating flag keeps them and has the defaults: no affected paths, no command, not dangerous |
| Approval.AssessCommandSafety | core/safety/approval.py:89-121 | YOLO approves every command; otherwise a dangerous command is rejected; NEVER rejects every unsafe command and never asks; AUTO and ON_FAILURE approve what is not dangerous; confirmation is asked exactly for an unclassified command under AUTO_EDIT or ON_REQUEST |
| Approval.CheckApproval | core/safety/approval.py:149-191 | a non-mutating action is approved; a command's verdict stands unless it asks for confirmation; rejection happens exactly for a rejected command; confirmation is asked exactly when a path lies outside cwd or the action is flagged dangerous outside YOLO, once the command verdict fell through |
| Approval.YoloNeverRejects | core/safety/approval.py:89-91 | under YOLO nothing is rejected, and only an action without a command whose paths leave cwd can still ask for confirmation |
| Approval.UnclassifiedCommandFallsThrough | core/safety/approval.py:115-121 | under ON_REQUEST an unclassified command asks for confirmation, yet `check_approval` then approves it when its paths lie inside cwd and it is not flagged dangerous |
| Approval.RequestConfirmation | core/safety/approval.py:219-231 | the answer is the callback's when there is one, and yes when there is none |
| ToolModels.ErrorResult | core/tools/models.py:157-190 | A failed result whose error is the message and whose output is as given. Metadata, truncation, diff and exit code are at their defaults. |
| ToolModels.SuccessResult | core/tools/models.py:192-217 | A successful result with no error and the given output. All other fields are at their defaults. |
| ToolModels.ModelOutputText | core/tools/models.py:219-236 | A success reads as its output. A failure reads as "Error: " plus the error, the output label and the output, with lengths adding up. |
| ToolModels.FailureTextRecoversParts | core/tools/models.py:219-236 | Both the error and the output can be read back from a failure's model text. |
| ToolModels.Confirmation | core/tools/models.py:262-304 | A confirmation carries the tool name, params and description. It has no diff, no paths and no command, and it is not dangerous. |
| ToolBase.KindMutates | core/tools/base.py:148-172 | The base `is_mutating` holds exactly for the kinds other than read and MCP. |
| ToolBase.DefaultConfirmation | core/tools/base.py:174-204 | A non-mutating call asks nothing. A mutating one asks "Execute {name}" with the call's params and nothing else set. |
| ToolBase.BasicTool | core/tools/base.py:148-204 | A tool that keeps the base methods mutates exactly per its kind and confirms with the default request. |
| ToolBase.FormatParamError | core/tools/base.py:137-140 | Every validation message starts with "Parameter '". |
| ToolBase.ValidateParams | core/tools/base.py:111-146 | A non-model schema, or a model that accepts, gives no messages. A crash gives its text alone. A validation error gives one formatted message per error, in order. |
| ToolBase.ParamErrorsMatchFailures | core/tools/base.py:132-142 | A model validation yields no messages exactly when it produced no errors. |
| ToolBase.ToOpenAiSchema | core/tools/base.py:206-255 | The schema holds name, description and parameters. A model gives an object with properties and required. A dict gives its own "parameters" or itself. Any other schema is an error naming the tool. |
| ToolBase.DictSchemaWrappingIsTransparent | core/tools/base.py:240-251 | A dict that wraps its parameters and a dict that is the parameters export the same entry. |
| Registry.Listing | core/tools/registry.py:175-179 | `d.values()` lists each stored tool once, in insertion order |
| Registry.Keep | core/tools/registry.py:181-183 | the allow-list filter keeps only allowed tools, never more than it was given |
| Registry.KeepSplits | core/tools/registry.py:175-183 | filtering the builtins followed by the MCP tools is filtering each and concatenating, so order is kept |
| Registry.KeepKeepsAllowed | core/tools/registry.py:183 | every allowed tool on the list is kept |
| Registry.Resolve | core/tools/registry.py:131-156 | `get` finds a name exactly when a builtin or an MCP tool carries it, and a builtin wins over an MCP tool of the same name |
| Registry.UnregisterUncoversMcp | core/tools/registry.py:106-156 | unregistering a builtin uncovers the MCP tool of the same name |
| Registry.ContextFor | core/tools/registry.py:274-281 | the approval context carries the name, the parameters, `is_mutating` and the confirmation's paths, command and danger |
| Registry.Asked | core/tools/registry.py:290-298 | a confirmation is put to the user only with an approval manager whose decision is NEEDS_CONFIRMATION, and it names the tool and its parameters |
| Registry.Screen | core/tools/registry.py:271-305 | without a manager or a confirmation request the call proceeds; a rejection by the policy or a declined confirmation stops it, the latter exactly when the user declines |
| Registry.NoCallbackFailsOpen | core/tools/registry.py:290-305 | with no confirmation callback the user never refuses: asking fails open |
| Registry.ReadOnlyToolsPass | core/tools/registry.py:271-273 | a non-mutating tool with the base `get_confirmation` passes the approval step under every policy |
| Registry.UnknownTool | core/tools/registry.py:243-249 | an unknown name fails with "Unknown tool: <name>" and the tool name in the metadata |
| Registry.InvalidParams | core/tools/registry.py:251-263 | refused parameters fail with every message joined by "; ", and the metadata names the tool and the errors |
| Registry.Executed | core/tools/registry.py:307-316 | an exception escaping `execute` becomes an "Internal error: " result naming the tool |
| Registry.Outcome | core/tools/registry.py:242-319 | a success means the tool was found, its parameters validated, the approval step let it through and its execute returned that result |
| Registry.Trace | core/tools/registry.py:248-318 | the after-tool hook always runs, last, and the before-tool hook runs exactly when the parameters validated |
| Registry.ToolRegistry.constructor | core/tools/registry.py:54-57 | a new registry holds no tools |
| Registry.ToolRegistry.Register | core/tools/registry.py:71-88 | `register` stores the tool under its name, replacing a builtin of that name in place |
| Registry.ToolRegistry.RegisterMcp | core/tools/registry.py:90-104 | `register_mcp_tool` does the same in the MCP dict |
| Registry.ToolRegistry.Unregister | core/tools/registry.py:106-129 | `unregister` removes a builtin only, and says exactly whether there was one |
| Registry.ToolRegistry.Get | core/tools/registry.py:131-156 | `get` resolves the name as `Resolve` does |
| Registry.ToolRegistry.AvailableOrder | core/tools/registry.py:158-185 | under an allow-list the surviving builtins come before the surviving MCP tools, and every listed tool is allowed |
| Registry.ToolRegistry.GetTools | core/tools/registry.py:158-185 | `get_tools` lists the builtins then the MCP tools, filtered by a non-empty allow-list |
| Registry.ToolRegistry.Invoke | core/tools/registry.py:203-319 | `invoke`: an unknown tool or invalid parameters fail with only the after-hook; otherwise the before-hook runs, the approval step decides whether execute runs, a refusal returns its message, and the after-hook closes every call |
| Events.UsageDump | core/llm/models.py:85-88 | `TokenUsage.model_dump()` holds exactly the four token counts, total_tokens among them |
| Events.Data | core/agent/events.py:81-265 | each event constructor builds its `data` dict: agent_start the message, agent_end the response and the usage (None exactly when absent), agent_error the error and details (an empty dict when none), text events the content, tool_call_start the call id, the name (None when absent) and the arguments, tool_call_complete every field of the result with the diff rendered exactly when there is one |
| Events.ToolCallCompleteKeepsResult | core/agent/events.py:229-265 | a tool_call_complete event loses none of the result's success, output, error, truncated and exit_code fields |
| Sessions.SubagentTool | core/tools/subagents/tool.py:77-122 | a subagent tool is named "subagent_<name>", of kind MEMORY, and mutating for every parameter set, so it always asks for confirmation |
| Sessions.DefaultTools | core/agent/session.py:55-59 | the tools registered are the builtins in order and then one per subagent definition |
| Sessions.Registered | core/tools/registry.py:84-87 | registering keeps every earlier name and adds each registered one |
| Sessions.LastRegistrationWins | core/tools/registry.py:84-87 | the last tool registered under a name is the one the dict holds |
| Sessions.RegistrationLeavesOthers | core/tools/registry.py:84-87 | a name no registered tool carries keeps what the dict held before |
| Sessions.SubagentsReachable | core/agent/session.py:55-59 | with distinct subagent names every subagent is reachable as "subagent_<name>", since subagents are registered after the builtins |
| Sessions.CreateDefaultRegistry | core/agent/session.py:33-61 | `create_default_registry` gives a fresh registry holding the default tools and no MCP tool |
| Sessions.RegisterAll | core/agent/session.py:55-59 | the registration loop registers each tool in order |
| Sessions.StatsDict | core/agent/session.py:223-240 | the `get_stats` dict holds exactly its eight keys with the values reported |
| Sessions.Session.constructor | core/agent/session.py:115-135 | a new session has the default registry, no context manager, turn count 0, `created_at` and `updated_at` from their own clock readings, an empty loop detector with thresholds 3 and 3, the enabled hooks and an approval manager without callback |
| Sessions.Session.Initialize | core/agent/session.py:137-157 | `initialize` makes a fresh, empty context manager over the configured context window |
| Sessions.Session.IncrementTurn | core/agent/session.py:191-207 | `increment_turn` adds exactly one turn, stamps `updated_at` and returns the new count |
| Sessions.Session.Stats | core/agent/session.py:209-240 | message_count is 0 and token_usage {} without a context manager; tools_count counts the available tools and mcp_servers the MCP tools |
| Sessions.Session.GetStats | core/agent/session.py:209-240 | `get_stats` lists the available tools and reports `Stats` |
| AgentLoop.ErrorText | core/agent/agent.py:152-155 | the forwarded error text is never empty: the stream's own error when it has a non-empty one, otherwise "Unknown error occurred." |
| AgentLoop.ReadStream | core/agent/agent.py:137-157 | reading a reply forwards only `text_delta` and `agent_error` events, at most one per stream event, and collects at most one tool call per stream event |
| AgentLoop.ResponseTextIsDeltas | core/agent/agent.py:144-148 | the accumulated response text is exactly the concatenation of the forwarded `text_delta` contents, in order |
| AgentLoop.EveryErrorForwarded | core/agent/agent.py:152-155 | every ERROR stream event yields exactly one `agent_error` and reading goes on past it |
| AgentLoop.ConsumeStream | core/agent/agent.py:137-157 | the `async for` loop over the stream ends with the text, calls, usage and events the fold over the stream defines |
| AgentLoop.TextOrNone | core/agent/agent.py:160 | `response_text or None` is None exactly for the empty text and the text itself otherwise |
| AgentLoop.CallEntries | core/agent/agent.py:161-175 | the assistant message carries no tool-call list exactly when there are no calls, and otherwise one entry per call |
| AgentLoop.EntryReadsBack | core/agent/agent.py:162-170 | the stored entry of a named call shows, in a compaction transcript, the call's name and its `str(arguments)` |
| AgentLoop.Outcomes | core/agent/agent.py:194-213 | the calls of a turn give exactly one result each |
| AgentLoop.OutcomesPerCall | core/agent/agent.py:207-213 | result `i` is what `invoke` returns for call `i` alone, with its name, arguments, cwd and the approval manager |
| AgentLoop.TraceAll | core/agent/agent.py:207-213 | each call runs exactly one after-tool dispatch and at most one before-tool dispatch (none for an unknown tool or invalid parameters), so the trace has between one and two entries per call |
| AgentLoop.CallEvents | core/agent/agent.py:194-219 | a turn's calls yield two events each, each a `tool_call_start` or a `tool_call_complete` |
| AgentLoop.CallEventsPair | core/agent/agent.py:195-219 | call `i` is reported by event `2i`, its start with id, name and arguments, and event `2i+1`, its completion with its result |
| AgentLoop.ToolItems | core/agent/agent.py:221-233 | the results give one tool message each |
| AgentLoop.ToolItemAt | core/agent/agent.py:221-233 | tool message `i` carries the model output of result `i` under the id of call `i` |
| AgentLoop.LoopNote | core/agent/agent.py:235-238 | the loop-breaker user message is added exactly when the detector returned a non-empty description, and at most once |
| AgentLoop.TurnEvents | core/agent/agent.py:140-219 | a turn yields no `agent_start`/`agent_end`, and as many events as the stream forwarded, plus one `text_complete` for a non-empty text, plus two per call |
| AgentLoop.PushedAll | core/context/loop_detector.py:55 | with the append at line 89, recording any number of actions keeps the history within the deque's 20 entries |
| AgentLoop.PushedAllAppend | core/context/loop_detector.py:55 | with the append at line 89, recording two batches of actions one after the other is recording their concatenation |
| AgentLoop.PushedAllKeepsNewest | core/context/loop_detector.py:55 | with the append at line 89, after a turn of at most 20 actions, those actions are the newest entries of the history, in order |
| AgentLoop.CallSignatures | core/agent/agent.py:201-205 | each call records exactly one `tool_call` signature |
| AgentLoop.ResponseSignatures | core/agent/agent.py:177-182 | a turn records at most one `response` signature |
| AgentLoop.TurnLog.Then | core/agent/agent.py:119 | a run extended by one more turn keeps one outcome, verdict and event chunk per turn and one history and ledger per boundary exactly when the run did |
| AgentLoop.FollowedThen | core/agent/agent.py:119-251 | a run that went as the replies, the context and the detector say, extended by one turn that went so too, still went so; its events are the old events followed by the new turn's, and its first history and ledger are unchanged |
| AgentLoop.Recorded | core/agent/agent.py:131-133 | as at lines 185-187 and 247-249, recording a usage leaves the messages alone; without a usage nothing changes; with one, the latest usage is it and the running total grows by its tokens |
| AgentLoop.CompactionOutcome | core/agent/agent.py:123-133 | below the compression threshold the context is untouched; a context that changed was nearly full, held at least three wire messages, and now holds the three messages of a non-empty summary |
| AgentLoop.ClosedMessageAt | core/agent/agent.py:229-238 | after the tool messages are added, earlier messages keep their role and tool calls and the message after the `j`-th earlier one is the tool message answering call `j` |
| AgentLoop.ClosedAnswersEveryCall | core/agent/agent.py:229-251 | closing a turn keeps every earlier message's role and tool calls, then answers the calls in order with one tool message each, then adds at most the loop-breaker note |
| AgentLoop.TurnAnswersEveryCall | core/agent/agent.py:159-251 | a turn appends one assistant message carrying the calls, then one tool message per call answering the calls in order, then at most the loop-breaker note |
| AgentLoop.OpenedEndsWithReply | core/agent/agent.py:159-176 | after the reply is stored, the context is the compacted one plus exactly the assistant message with `response_text or None` and the call entries |
| AgentLoop.TurnUsageGrows | core/agent/agent.py:131-133 | with lines 247-249, the running usage total only grows over a turn |
| AgentLoop.LastTextIsLast | core/agent/agent.py:93-97 | the final response is the content of a `text_complete` event after which no other comes, and is None exactly when there is none |
| AgentLoop.FinalResponse | core/agent/agent.py:91-97 | the forwarding loop of `run` remembers exactly that last complete text |
| AgentLoop.Agent.constructor | core/agent/agent.py:53-61 | the agent keeps the session and its configuration, and the approval manager gets the confirmation callback with nothing else of it changed |
| AgentLoop.Agent.CompactIfNeeded | core/agent/agent.py:123-133 | the context becomes the compaction outcome for the compaction reply |
| AgentLoop.Agent.Summarize | core/agent/agent.py:129-133 | a non-empty summary replaces the history with the summary messages and records its usage |
| AgentLoop.Agent.RecordUsage | core/agent/agent.py:185-187 | as at lines 247-249, `set_latest_usage` and `add_usage` leave the context as the recorded-usage function says |
| AgentLoop.Agent.RunCall | core/agent/agent.py:201-213 | one call records its `tool_call` signature and then gives exactly what the registry's `invoke` gives for it, with the hooks that invoke runs |
| AgentLoop.Agent.RunCalls | core/agent/agent.py:194-227 | the calls loop records one signature per call, returns `invoke`'s result for every call in order, and yields the start/complete pair of each |
| AgentLoop.Agent.AddResults | core/agent/agent.py:229-233 | the messages grow by exactly one tool message per result, in order |
| AgentLoop.Agent.Respond | core/agent/agent.py:120-183 | the first half of a turn counts the turn, compacts if needed, reads the reply, stores the assistant message and records the response action |
| AgentLoop.Agent.Close | core/agent/agent.py:229-251 | the second half of a turn with calls adds the tool messages, asks the detector, adds the loop-breaker note for its verdict, records the usage and prunes |
| AgentLoop.Agent.Quiet | core/agent/agent.py:184-190 | a turn without calls only records the usage and prunes |
| AgentLoop.Agent.Act | core/agent/agent.py:192-251 | a turn with calls runs them all in order, yields their events, and closes the turn with the detector's verdict |
| AgentLoop.Agent.Finish | core/agent/agent.py:177-251 | the turn stops exactly when the reply has no calls, with no verdict; otherwise it acts on the calls; the events are the turn's events |
| AgentLoop.Agent.Turn | core/agent/agent.py:120-251 | one iteration of the loop: it stops exactly when the reply has no tool calls; the results are `invoke`'s for each call; the events, the detector history and the context are those the turn's definitions give |
| AgentLoop.Agent.ReplyResults | core/agent/agent.py:207-213 | a reply's calls run through the session's registry give one result each |
| AgentLoop.Agent.NextTurn | core/agent/agent.py:119-251 | turn `t` of the loop goes as reply `t`, the context and the detector say, stops exactly when reply `t` has no calls, and extends the record of the run by that turn |
| AgentLoop.Agent.Turns | core/agent/agent.py:119-251 | the loop runs between one and `max_turns` turns, every turn but a finishing last one had tool calls, and the events are those of the recorded turns one after the other, from the history and context before the loop to those it leaves |
| AgentLoop.Agent.Advance | core/agent/agent.py:119-251 | one iteration extends the run so far by one turn and its events by that turn's events |
| AgentLoop.Agent.Loop | core/agent/agent.py:105-255 | `_agentic_loop` ends early at the first reply without calls or after `max_turns` turns with the max-turns error; its events are the recorded turns' events in order plus that error, and the recorded run starts from the detector history and context before the loop and ends at those it leaves |
| AgentLoop.Agent.Converse | core/agent/agent.py:89-97 | `run` between its start and end: the user message is added to the context first, then the loop's turns run as the run record says (`Went`: every turn follows the replies, the context and the detector, with its ledger, history and events in order, stopping at the first reply without tool calls or after `max_turns` turns), the context ends at the last turn's ledger, the events are the turns' events plus the max-turns error when the loop did not finish, none is `agent_start`/`agent_end`, and the final response is their last complete text |
| AgentLoop.Agent.Answer | core/agent/agent.py:89-102 | after `agent_start`: the conversation as `Converse` states it, then the after-agent hooks run with the message and `final_response or ""` |
| AgentLoop.Agent.Run | core/agent/agent.py:63-103 | `run` yields `agent_start` first and `agent_end` with the last complete text last, and between them exactly the loop's events over the context with the user message added, turn by turn as the run record says; it runs the before-agent hooks with the user message and the after-agent hooks with the message and `final_response or ""` |
| Persistence.UsageToJson | core/agent/persistence.py:83 | `total_usage.model_dump()` is an object holding exactly the four token counts |
| Persistence.UsageField | core/llm/models.py:85-88 | one `TokenUsage` field: absent is 0, and present it must be a non-negative number |
| Persistence.UsageFromJson | core/agent/persistence.py:107 | `TokenUsage(**data)` fails for a non-object, and an empty object gives the all-zero usage |
| Persistence.UsageRoundTrip | core/agent/persistence.py:83-107 | a dumped usage validates back to itself |
| Persistence.ToDict | core/agent/persistence.py:68-84 | `to_dict` holds exactly the six snapshot keys, with both timestamps in ISO form |
| Persistence.FromDict | core/agent/persistence.py:87-108 | `from_dict` succeeds only on an object holding the six keys, and its timestamps are those that parse from them |
| Persistence.DictRoundTrip | core/agent/persistence.py:68-108 | `from_dict(to_dict(s))` gives back every field of s when the two timestamps read back |
| Persistence.Load | core/agent/persistence.py:155-185 | `load_session` gives None for a missing file or one that does not decode, and otherwise `from_dict` of its content |
| Persistence.SaveThenLoad | core/agent/persistence.py:134-185 | a snapshot saved with `json.dump` and loaded under the name it was saved as comes back whole |
| Persistence.InfoOf | core/agent/persistence.py:204-216 | a file's metadata is kept exactly when it decodes to an object with the four listed keys, and skipped otherwise |
| Persistence.Insert | core/agent/persistence.py:218 | inserting into a newest-first list adds exactly that entry |
| Persistence.InsertKeepsOrder | core/agent/persistence.py:218 | inserting after every entry at least as new keeps the list newest first |
| Persistence.SortNewestFirst | core/agent/persistence.py:218 | the sort by `updated_at` is a permutation of its input |
| Persistence.SortIsNewestFirst | core/agent/persistence.py:218 | the sort leaves the list newest first |
| Persistence.ListedIsSortedPermutation | core/agent/persistence.py:187-219 | a listing holds exactly the readable files' metadata, each once, newest first |
| Persistence.UnreadableSkipped | core/agent/persistence.py:215-216 | a file whose text does not read as session metadata contributes nothing |
| Persistence.Contents | core/agent/persistence.py:203-206 | the texts of the globbed files, in the order they are listed |
| Persistence.PersistenceManager.constructor | core/agent/persistence.py:125-132 | the manager starts from the given session and checkpoint directories |
| Persistence.PersistenceManager.SaveSession | core/agent/persistence.py:134-153 | `save_session` writes the snapshot's dict to "<session_id>.json" and touches no checkpoint |
| Persistence.PersistenceManager.SaveCheckpoint | core/agent/persistence.py:221-247 | `save_checkpoint` returns "<session_id>_<timestamp>" and writes the snapshot under that name, touching no session |
| Persistence.PersistenceManager.ListSessions | core/agent/persistence.py:187-219 | `list_sessions` reads the globbed files in order, keeps the readable metadata, and sorts it |
| LlmModels.Add | core/llm/models.py:90-117 | `TokenUsage.__add__` gives a usage covering both operands, whose total grows by exactly the second operand's total |
| LlmModels.AddCommutes | core/llm/models.py:112-117 | adding usages commutes |
| LlmModels.AddAssociates | core/llm/models.py:112-117 | adding usages associates |
| LlmModels.NoUsageIsIdentity | core/llm/models.py:85-117 | the all-zero default usage is the identity of addition |
| LlmModels.AddCancels | core/llm/models.py:112-117 | the same sum reached from the same start means the same increment |
| LlmModels.SumCoversEach | core/llm/models.py:112-117 | a running total covers every usage that went into it |
| LlmModels.ParseArguments | core/llm/models.py:176-200 | `parse_arguments` passes dicts and other values through, decodes a string, keeps a string that does not decode, and changes a value only by decoding it |
| LlmModels.ToolCallArguments | core/llm/models.py:171-200 | the `dict[str, Any] \| str` field accepts exactly a dict, a string that does not decode, or one that decodes to a dict or a string; any other value (or decoded value) fails validation |
| LlmModels.ToOpenAiMessage | core/llm/models.py:269-291 | a tool result message is sent as role "tool" with its call id and content, and `is_error` is not sent |
| LlmModels.ParseToolCallArguments | core/llm/models.py:294-325 | "" parses to `{}`, decodable text to its value, and anything else to `{"raw_arguments": text}` |
| LlmModels.RawArgumentsRecoverInput | core/llm/models.py:322-325 | when decoding fails the original text can be read back from the result |
| LlmClient.ToolEntry | core/llm/client.py:135-146 | one `_build_tools` entry: a "function" entry with the tool's name, its description or "", and its parameters or an empty object schema |
| LlmClient.BuildTools | core/llm/client.py:116-148 | `_build_tools` gives one entry per tool, in order |
| LlmClient.RequestKeys | core/llm/client.py:190-199 | the request always sends model, messages, stream and temperature, and sends tools and tool_choice exactly when the tool list is non-empty |
| LlmClient.ToUsage | core/llm/client.py:246-257 | the usage of a chunk keeps a given total, and a missing count is 0 |
| LlmClient.DeltaStep | core/llm/client.py:275-305 | after a tool-call delta its index has an entry |
| LlmClient.Buildable | core/llm/client.py:308-317 | how many entries, in first-seen order, build a `ToolCall` before the first whose arguments fail validation |
| LlmClient.Completes | core/llm/client.py:308-317 | one TOOL_CALL_COMPLETE per entry that builds, in first-seen order up to the first that does not, each with its id, name and validated arguments |
| LlmClient.DeltaStepKeeps | core/llm/client.py:275-305 | a delta keeps every entry index in the first-seen order exactly once, adds its index last when it is new, and yields only incremental events |
| LlmClient.FoldKeeps | core/llm/client.py:245-305 | reading all chunks keeps the entries and their order in step and yields only incremental events |
| LlmClient.StreamEndsOnce | core/llm/client.py:308-323 | a stream whose entries all build ends with exactly one MESSAGE_COMPLETE, last, carrying the final finish reason and usage; one with an entry that does not build has no MESSAGE_COMPLETE |
| LlmClient.StreamCompletesInOrder | core/llm/client.py:245-323 | the stream is the incremental events (none of them a completion), then one TOOL_CALL_COMPLETE per entry that builds, in first-seen order, then MESSAGE_COMPLETE unless an entry failed to build |
| LlmClient.RejectionAt | core/llm/client.py:209-215 | on the read stream, `chat_completion` ends with one ERROR carrying the validation text exactly when some entry fails to build, after the completions of the entries before it, and then with no MESSAGE_COMPLETE; otherwise with no ERROR |
| LlmClient.RejectionShape | core/llm/client.py:209-215 | over any chunks: an ERROR with the validation text, last and only once, exactly when an entry does not build, after the completions of the entries before it and with no MESSAGE_COMPLETE; otherwise there is no ERROR at all |
| LlmClient.FailureShape | core/llm/client.py:210-215 | an exception yields exactly one ERROR event, last, with the exception's text, and no completion event at all |
| LlmClient.FoldEntry | core/llm/client.py:275-305 | an index has an entry exactly when some delta carried it; its id and name come from the first such delta and its arguments are all its fragments in order |
| LlmClient.FoldScalars | core/llm/client.py:246-266 | usage comes from the last chunk carrying usage, and the finish reason from the last chunk setting one |
| LlmClient.ApplyDelta | core/llm/client.py:276-305 | the body of the loop over a chunk's tool-call deltas |
| LlmClient.ApplyDeltas | core/llm/client.py:274-305 | the loop over a chunk's tool-call deltas |
| LlmClient.CompleteAll | core/llm/client.py:308-317 | the loop emitting TOOL_CALL_COMPLETE: the completions of the entries that build, and it raises exactly when one does not |
| LlmClient.StreamResponse | core/llm/client.py:217-323 | `_stream_response` over a stream that ends normally yields `StreamEvents`, and raises exactly when an entry's arguments fail validation |
| Text.EstimateTokens | core/utils/text.py:108-122 | The estimate is a quarter of the length rounded down, and never below the minimum count of one. |
| Text.CountTokens | core/utils/text.py:77-106 | Empty text counts nothing. Otherwise the count is the encoder's length, or the estimate when the encoder fails. |
| Text.TruncateByChars | core/utils/text.py:212-246 | The binary search stops at a cut whose prefix fits and whose next longer prefix does not. The suffix is then appended. |
| Text.CutIsLongestFit | core/utils/text.py:236-246 | Under a counter monotone on prefixes, the cut is the longest prefix within the target. |
| Text.CutUnique | core/utils/text.py:236-246 | Under a monotone counter the binary search can stop at only one length. |
| Text.Lines | core/utils/text.py:194 | Splitting on newlines always yields at least one field. |
| Text.LinesCostMonotone | core/utils/text.py:198-204 | A longer run of lines, each counted with its newline, costs at least as much as a shorter one. |
| Text.KeptFrom | core/utils/text.py:198-204 | The loop keeps lines until the first one that would push the running cost over the target. |
| Text.KeptIsLongest | core/utils/text.py:198-204 | The kept lines are the longest prefix of the lines whose cost fits the target. |
| Text.KeepLines | core/utils/text.py:196-204 | The loop returns exactly that longest fitting prefix of the lines. |
| Text.TruncateByLines | core/utils/text.py:171-210 | If any line fits, the result is the kept lines joined by newlines plus the suffix. Otherwise character mode applies. |
| Text.Truncate | core/utils/text.py:124-169 | Text already within the limit is returned unchanged. A target that leaves no room gives the stripped suffix. Otherwise line or character mode applies. |
| Text.JoinedLinesArePrefix | core/utils/text.py:194-210 | Re-joining the first k fields of the split gives back a prefix of the text. |
| Text.TruncatedKeepsPrefix | core/utils/text.py:124-246 | Every truncation result is a prefix of the text followed by the suffix. |
| Paths.JoinPath | core/utils/paths.py:50 | `a / b`: an absolute right operand replaces the left one, and a relative one is appended to it component by component |
| Paths.RelativeTo | core/utils/paths.py:89 | `p.relative_to(base)` is defined exactly when base is a component prefix of p with the same anchor, and base joined with the result gives p back |
| Paths.ResolvePath | core/utils/paths.py:18-50 | an absolute path is resolved on its own, and a relative one is joined onto the resolved base without normalising it |
| Paths.ValidatePathWithinBase | core/utils/paths.py:164-206 | the resolved path is returned exactly when it lies under the resolved base, else a ValidationError on field "path" |
| Paths.RelativePathAlwaysWithin | core/utils/paths.py:46-50 | a relative path never fails validation, since joining keeps the base as a prefix and ".." is not collapsed |
| Paths.DisplayPathRelativeToCwd | core/utils/paths.py:53-92 | the path is shown relative to cwd (the process directory when none is given) when it lies under it, else as it is |
| Config.NewModelConfig | core/config/schema.py:40-80 | a model configuration is built exactly when the temperature lies in [0, 2] and the context window is at least 1, keeping the given fields; otherwise the first violated field is named |
| Config.NewMcpServerConfig | core/config/schema.py:156-217 | a server configuration is accepted exactly when its timeout is non-negative and exactly one of command and url is given (an empty string counts as given); the transport error names the field "transport" |
| Config.NewHookConfig | core/config/schema.py:284-314 | a hook configuration is accepted exactly when its timeout is non-negative and a non-empty command or script is given; the error names the field "hook" |
| Config.Configuration.constructor | core/config/schema.py:361-409 | a default configuration: default model, the given cwd, default shell policy, hooks disabled and none, ON_REQUEST approval, 100 turns, no MCP servers, no allow-list, no instructions, not debugging |
| Config.Configuration.SetModelName | core/config/schema.py:447-457 | the `model_name` setter writes `model.name` and nothing else, and the getter reads back the written name |
| Config.Configuration.SetTemperature | core/config/schema.py:471-491 | an in-range temperature is written; an out-of-range one raises the temperature ValidationError and leaves the old value in place; validity is kept |
| ConfigLoader.Merged | core/config/loader.py:230-241 | the merge has every key of either side; a key only in base keeps its value; an override value wins unless both values are dicts, in which case the two dicts are merged by the same rule |
| ConfigLoader.MergeIdempotent | core/config/loader.py:230-241 | merging a dict with itself gives it back, at every depth |
| ConfigLoader.MergeEmpty | core/config/loader.py:230-241 | an empty base yields the override and an empty override changes nothing |
| ConfigLoader.MergeDicts | core/config/loader.py:230-241 | the copy-and-update loop, recursing where both values are dicts, computes exactly the merge |
| ConfigLoader.LoadConfigDict | core/config/loader.py:279-312 | the dict handed to `Configuration` is the project file merged over the system file, with "cwd" added only when absent and AGENT.MD's non-empty text added only when no file set developer_instructions |
| Errors.LookupFinds | core/exceptions.py:75 | a detail key is found exactly when some entry of the details dictionary carries it |
| Errors.Put | core/exceptions.py:179-183 | `details[k] = v` keeps the keys distinct, makes k map to v and leaves every other key as it was; an existing key keeps its place and a new one goes last |
| Errors.Drift | core/exceptions.py:65-76 | `DriftError(...)` keeps message, code and cause, and its details are the given dictionary or an empty one |
| Errors.ConfigurationError | core/exceptions.py:171-190 | the error has code CONFIGURATION, and config_key and config_file are set in the details exactly when they are non-empty; every other detail is kept |
| Errors.ConnectionError | core/exceptions.py:220-235 | the error has code CONNECTION, and endpoint is set in the details exactly when it is non-empty; every other detail is kept |
| Errors.ApiDetails | core/exceptions.py:272-274 | `status_code` is recorded whenever it is not None, 0 included, and every other detail is kept |
| Errors.ApiError | core/exceptions.py:265-281 | the error has code API and the details of `ApiDetails` |
| Errors.RateLimitError | core/exceptions.py:309-325 | a rate-limit error has code API (not RATE_LIMIT) and status code 429, and records retry_after exactly when it is given |
| Errors.ValidationError | core/exceptions.py:354-368 | the error has code VALIDATION, and field is set in the details exactly when it is non-empty; every other detail is kept |
| Errors.StrShape | core/exceptions.py:78-93 | `str(e)` is "[CODE] message", then " \| Details: k=v, …" exactly when there are details, then " \| Caused by: Type: text" exactly when there is a cause |
| Errors.JoinOptionalParts | core/exceptions.py:87-93 | joining the head with the optional details and cause parts by " \| " puts the separator only before a part that is present |
| Errors.ToDict | core/exceptions.py:112-132 | `to_dict` always holds type, error_code, message and details, the details as the dict of every detail, and holds "cause" with its type and message exactly when there is a cause |
| Errors.DetailsObjectAgrees | core/exceptions.py:118-124 | the dictionary form of the details holds exactly the listed keys, each with its value |
| Hooks.SetIfEffect | core/hooks/environment.py:68-84 | each conditional assignment adds its key exactly when its condition holds, with its value, and leaves every other key as it was |
| Hooks.HookEnvironmentKeys | core/hooks/environment.py:64-86 | the environment holds the process variables, TRIGGER and CWD always, and each optional key exactly when its argument is truthy |
| Hooks.HookEnvironmentValues | core/hooks/environment.py:65-84 | each key set holds its argument: the trigger value, the cwd, the tool name, the JSON of the parameters, the result's model output, the messages and the error text |
| Hooks.HookEnvironmentPassesThrough | core/hooks/environment.py:64 | every process variable that is not an event key reaches the hook unchanged |
| Hooks.AssignIf | core/hooks/environment.py:68-84 | one `if cond: env[k] = v` step |
| Hooks.BuildHookEnvironment | core/hooks/environment.py:19-86 | `build_hook_environment`, assigning key by key into a copy of the process environment, builds `HookEnvironment` |
| Hooks.ForeignVariablesKept | core/hooks/environment.py:64-84 | a variable outside the AI_AGENT_ namespace always reaches the hook unchanged |
| Hooks.EmptyParamsAddNothing | core/hooks/environment.py:71-72 | an empty parameter dict is falsy and adds no TOOL_PARAMS entry |
| Hooks.Enabled | core/hooks/system.py:48-49 | the kept hooks are enabled hooks of the configuration, never more than it lists |
| Hooks.Matching | core/hooks/system.py:71-72 | the hooks a trigger runs carry that trigger and are among the kept hooks |
| Hooks.EnabledKeepsAll | core/hooks/system.py:49 | no enabled hook is dropped |
| Hooks.MatchingKeepsAll | core/hooks/system.py:71-72 | no hook with the trigger is skipped |
| Hooks.FiltersCommute | core/hooks/system.py:48-72 | selecting by trigger and by the enabled flag commute |
| Hooks.Runs | core/hooks/system.py:71-73 | one run per selected hook, in order, each with the environment and the cwd |
| Hooks.HookSystem.constructor | core/hooks/system.py:45-50 | the system keeps no hooks unless hooks are enabled, else the enabled ones in order |
| Hooks.HookSystem.Dispatch | core/hooks/system.py:71-73 | the loop every trigger shares runs each kept hook with the trigger, in order, with the environment |
| Hooks.HookSystem.TriggerBeforeAgent | core/hooks/system.py:52-73 | `trigger_before_agent` runs the before_agent hooks with the user message in the environment |
| Hooks.HookSystem.TriggerAfterAgent | core/hooks/system.py:75-103 | `trigger_after_agent` runs the after_agent hooks with the user message and the response |
| Hooks.HookSystem.TriggerBeforeTool | core/hooks/system.py:105-133 | `trigger_before_tool` runs the before_tool hooks with the tool name and parameters |
| Hooks.HookSystem.TriggerAfterTool | core/hooks/system.py:135-167 | `trigger_after_tool` runs the after_tool hooks, and every run's TOOL_RESULT is the result's model output |
| Hooks.HookSystem.TriggerOnError | core/hooks/system.py:169-190 | `trigger_on_error` runs the on_error hooks with the error text |
| UiHelpers.DisplayPathRelToCwd | core/ui/helpers.py:15-41 | Without a cwd the path is shown as given. Under the cwd it is shown relative to it. Otherwise it is shown as given. |
| UiHelpers.HeaderLength | core/ui/helpers.py:67-72 | The matched header never runs past the text, and a match starts with "Showing lines ". |
| UiHelpers.ParseAll | core/ui/helpers.py:74-80 | A successful parse has one entry per line. |
| UiHelpers.ParseAllSpec | core/ui/helpers.py:74-80 | The lines parse exactly when every one of them does, and then each entry is what its line parses to. |
| UiHelpers.ExtractCode | core/ui/helpers.py:44-87 | The scan over the body's lines computes the extraction function. |
| UiHelpers.ExtractedNone | core/ui/helpers.py:67-87 | The output yields no code exactly when its body has no lines or some line is not numbered. Otherwise the start line is the first line's number. |
| UiHelpers.ParseLineOf | core/ui/helpers.py:76-80 | Blanks, digits, a bar and a rest parse to the digits' value and the rest. |
| UiHelpers.ParseFormatLine | core/ui/helpers.py:76-80 | A line numbered by read_file parses back to its number and its text. |
| UiHelpers.NoHeaderOnNumberedText | core/ui/helpers.py:67-72 | Numbered lines with no header in front have no header to strip. |
| UiHelpers.HeaderOf | core/ui/helpers.py:67-72 | Three digit runs in the header's frame match as a header of the frame's full length. |
| UiHelpers.HeaderRecognised | core/ui/helpers.py:67-72 | The header read_file writes is recognised and stripped whole. |
| UiHelpers.ParseNumbered | core/ui/helpers.py:74-80 | Numbered lines parse back to consecutive numbers and their texts. |
| UiHelpers.ReadBack | core/ui/helpers.py:44-87 | Untruncated read_file output reads back as the first line number shown and the selected lines joined by newlines. |
| UiHelpers.SplitNumbered | core/ui/helpers.py:74 | Numbered lines split back out of their newline join. |
| UiHelpers.Suffix | core/ui/helpers.py:114 | The suffix runs from the last dot to the end of the name. It is empty when there is no dot, or the dot opens or ends the name. |
| UiHelpers.GuessLanguage | core/ui/helpers.py:90-146 | No path gives "text". Any other language comes from a non-empty suffix. |
| UiHelpers.SuffixLower | core/ui/helpers.py:114 | Lower-casing a name and taking its suffix commute. |
| UiHelpers.GuessLanguageIgnoresCase | core/ui/helpers.py:114-146 | Names equal up to case get the same language. |
| UiHelpers.GuessLanguageExamples | core/ui/helpers.py:104-110 | "main.py" is python and "script.js" is javascript. |
| UiHelpers.PreferredOrder | core/ui/helpers.py:174-186 | Each tool's preferred argument order lists no key twice. |
| UiHelpers.PresentKeys | core/ui/helpers.py:188-196 | The keys gathered first are exactly the preferred keys the arguments hold. |
| UiHelpers.Remaining | core/ui/helpers.py:197 | The remaining keys are exactly the argument keys not yet seen, each once. |
| UiHelpers.OrderToolArguments | core/ui/helpers.py:149-200 | The method computes the ordered pairs: the preferred keys present, then the rest. |
| UiHelpers.PreferredPairs | core/ui/helpers.py:188-196 | The first loop collects the present preferred keys, in preferred order, with their values, and the set seen. |
| UiHelpers.AppendPairs | core/ui/helpers.py:197-198 | The extend step appends the remaining keys with their values. |
| UiHelpers.OrderedFacts | core/ui/helpers.py:149-200 | Every argument appears exactly once with its value, and the present preferred keys come first in preferred order. |
| UiHelpers.ThenRemaining | core/ui/helpers.py:197-198 | Distinct keys followed by the others list every argument key once. |
| EditFile.CountZeroIff | core/tools/builtin/edit_file.py:209-212 | `str.count` of a non-empty text is zero exactly when the text does not occur, which is when the no-match error is returned |
| EditFile.ReplaceAllLength | core/tools/builtin/edit_file.py:225-227 | replacing every occurrence keeps the length for equally long texts, and a longer (shorter) replacement lengthens (shortens) any text in which it occurs |
| EditFile.ReplaceAbsent | core/tools/builtin/edit_file.py:225-230 | text without an occurrence comes back unchanged from either replacement |
| EditFile.ReplaceFirstAt | core/tools/builtin/edit_file.py:228-230 | `replace(old, new, 1)` rewrites exactly the leftmost occurrence: the text before it, then the replacement, then the text after it |
| EditFile.ReplaceUnique | core/tools/builtin/edit_file.py:214-230 | with a single occurrence, replacing all and replacing the first agree |
| EditFile.ReplaceBySelf | core/tools/builtin/edit_file.py:232-235 | replacing a text by itself changes nothing, in either mode |
| EditFile.ReplaceAllChanges | core/tools/builtin/edit_file.py:225-235 | a present text replaced by a different one of the same length changes the content |
| EditFile.NoChangeExactlyWhenEqual | core/tools/builtin/edit_file.py:232-235 | where the text occurs, the "No change made" error fires exactly when old_string equals new_string |
| EditFile.Preview | core/tools/builtin/edit_file.py:299 | a suggestion preview is at most 80 characters |
| EditFile.Hits | core/tools/builtin/edit_file.py:297-299 | the hits of a line scan are never more than the lines |
| EditFile.HitsAccepted | core/tools/builtin/edit_file.py:297-299 | each hit names, 1-based, a line the test accepts, with that line's preview |
| EditFile.HitsIncreasing | core/tools/builtin/edit_file.py:297-299 | the hits come in increasing line order |
| EditFile.HitsComplete | core/tools/builtin/edit_file.py:297-299 | every accepted line is among the hits |
| EditFile.Front | core/tools/builtin/edit_file.py:300-301 | the search keeps at most the first three hits, and all of them when there are fewer |
| EditFile.FrontComplete | core/tools/builtin/edit_file.py:297-301 | no accepted line before the last kept hit is skipped, nor any at all when fewer than three were found |
| EditFile.SuggestionsAreHits | core/tools/builtin/edit_file.py:292-301 | the suggestions are at most three lines containing the first search term, each with its line number and preview |
| EditFile.SuggestionsInOrder | core/tools/builtin/edit_file.py:297-301 | the suggestions come in file order |
| EditFile.SuggestionsFirst | core/tools/builtin/edit_file.py:297-301 | no line with the term is passed over before the last suggestion, and all of them are suggested when there are fewer than three |
| EditFile.SimilarLines | core/tools/builtin/edit_file.py:292-301 | the `enumerate` loop that stops at the third hit yields the first three hits |
| EditFile.AppendSuggestions | core/tools/builtin/edit_file.py:305-308 | the loop over the partial matches appends one line per hit to the message |
| EditFile.NoMatchError | core/tools/builtin/edit_file.py:267-322 | `_no_match_error` returns an error result whose message is the "not found" text with the suggestions and the advice |
| EditFile.GetConfirmation | core/tools/builtin/edit_file.py:92-149 | the confirmation is never dangerous, names the resolved path, and shows a new-file diff of new_string for a missing file and otherwise the file's content against what the edit would make of it |
| EditFile.LineDiffNote | core/tools/builtin/edit_file.py:243-251 | the line-count note is empty exactly when the line count is unchanged |
| EditFile.EditExisting | core/tools/builtin/edit_file.py:209-265 | the edit of an existing file: no match, an ambiguous match without replace_all, no change, a failed write, or the edit with its counts and diff |
| EditFile.Replace | core/tools/builtin/edit_file.py:225-265 | the replacement, the no-change check, the write and the success message with the replaced count and line difference |
| EditFile.Execute | core/tools/builtin/edit_file.py:151-265 | a missing file with old_string is an error, with an empty one it is created from new_string, and a failed write of that new file raises; reading an existing file that fails raises; an existing file with an empty old_string is an error; whenever the tool writes, it writes exactly the content its confirmation showed |
| ReadFile.Window | core/tools/builtin/read_file.py:159-164 | the window starts at line `offset` (1-based) and holds `limit` lines, or runs to the end, never past the last line |
| ReadFile.Selected | core/tools/builtin/read_file.py:166 | `lines[start_idx:end_idx]`, which is empty when the window starts past the end |
| ReadFile.FormatLineSplit | core/tools/builtin/read_file.py:169-170 | a shown line is padding spaces, the line number, a bar and the line |
| ReadFile.Numbered | core/tools/builtin/read_file.py:169-170 | one shown line per selected line |
| ReadFile.NumberedAt | core/tools/builtin/read_file.py:169-170 | selected line j is shown with number first + j |
| ReadFile.FormatLines | core/tools/builtin/read_file.py:168-172 | the `enumerate(selected_lines, start=start_idx + 1)` loop builds `Numbered` |
| ReadFile.Header | core/tools/builtin/read_file.py:185-188 | the "Showing lines a-b of c" header is present exactly for a partial view |
| ReadFile.Execute | core/tools/builtin/read_file.py:95-206 | a missing path, a non-file, a file over 10MB and a binary file are errors; a file whose reading fails gives "Failed to read file: " and the message; an empty file reads "File is empty."; otherwise the window's numbered lines are shown, truncated exactly when over 25000 tokens, after the header |
| ReadFile.ShowLines | core/tools/builtin/read_file.py:159-204 | the window, the numbered lines, the truncation with its suffix and the header of a file with lines |
| Todo.Entries | core/tools/builtin/todo.py:119-122 | The listing has one entry line per stored key. |
| Todo.EntriesAt | core/tools/builtin/todo.py:119-122 | Line i of the listing shows the i-th inserted todo, so `list` follows insertion order. |
| Todo.ListingShowsAll | core/tools/builtin/todo.py:116-123 | A non-empty store lists "Todos:" followed by every todo, one per line, in insertion order. |
| Todo.SizeIsOrderLength | core/tools/builtin/todo.py:125-127 | The number of todos equals the length of the insertion order. |
| Todo.Step | core/tools/builtin/todo.py:76-129 | The store stays well formed, and every failed call leaves it unchanged. |
| Todo.AddStores | core/tools/builtin/todo.py:98-105 | `add` (any case) with content stores it under the new id and reports it. A fresh id is appended last. A reused id keeps its place. Other todos are untouched. |
| Todo.AddNeedsContent | core/tools/builtin/todo.py:98-100 | `add` without content fails with the "`content` required" message and changes nothing. |
| Todo.CompleteRemoves | core/tools/builtin/todo.py:106-115 | `complete` of a known id removes exactly that todo and reports its content. |
| Todo.CompleteUnknown | core/tools/builtin/todo.py:106-110 | `complete` with a missing id fails with the "`id` required" message. An unknown id fails with "Todo not found". Either way nothing changes. |
| Todo.ClearReportsCount | core/tools/builtin/todo.py:124-127 | `clear` empties the store and reports how many todos it held. |
| Todo.CapitalisedListIsUnknown | core/tools/builtin/todo.py:116-129 | `list` and `clear` compare case-sensitively, so "List" and "Clear" are unknown actions that change nothing. |
| Todo.TodosTool.constructor | core/tools/builtin/todo.py:72-74 | A new tool starts with no todos. |
| Todo.TodosTool.ListText | core/tools/builtin/todo.py:119-123 | The listing loop builds exactly the listing text of the store. |
| Todo.TodosTool.Execute | core/tools/builtin/todo.py:76-129 | The new store and the result are those `Step` gives for the store before the call. |
| Memory.Loaded | core/tools/builtin/memory.py:77-98 | a missing or unreadable memory file loads as no entries |
| Memory.Step | core/tools/builtin/memory.py:118-206 | a failed action never changes the file |
| Memory.SetStores | core/tools/builtin/memory.py:140-149 | `set` stores the value under the key, keeps every other entry and writes the file |
| Memory.SetNeedsKeyAndValue | core/tools/builtin/memory.py:141-144 | `set` without a key or a value is refused and the file is left alone |
| Memory.GetAfterSet | core/tools/builtin/memory.py:140-167 | `get` after `set` finds the value just stored |
| Memory.GetReports | core/tools/builtin/memory.py:150-167 | `get` reports an entry exactly when the key is stored, with its value, and never changes the file |
| Memory.DeleteRemovesOnly | core/tools/builtin/memory.py:168-178 | `delete` removes the key and nothing else, and an absent key leaves the file untouched |
| Memory.GetAfterDelete | core/tools/builtin/memory.py:150-178 | after `delete`, `get` finds nothing under that key |
| Memory.ListSorted | core/tools/builtin/memory.py:179-198 | `list` shows the entries sorted by key, or says there are none |
| Memory.ClearEmpties | core/tools/builtin/memory.py:199-204 | `clear` reports how many entries there were, and `list` afterwards finds none |
| Memory.UnreadableIsEmpty | core/tools/builtin/memory.py:90-98 | a missing or unreadable file answers every action as an empty store does |
| Memory.CapitalisedDeleteIsUnknown | core/tools/builtin/memory.py:168-206 | only set and get ignore case: "Delete" is an unknown action and changes nothing |
| Memory.MemoryTool.constructor | core/tools/builtin/memory.py:77-98 | the tool starts from the given file |
| Memory.MemoryTool.Save | core/tools/builtin/memory.py:100-116 | `_save_memory` replaces the file with the given entries when the write succeeds, and leaves it and reports failure when it raises |
| Memory.MemoryTool.Execute | core/tools/builtin/memory.py:118-206 | `execute` leaves the file and returns the result that `Step` gives for the file as it was before the call; when a saving action's write raises, the error escapes and the file is unchanged |
| Memory.OnlySavesChange | core/tools/builtin/memory.py:134-206 | only a `set` with key and value, a `delete` of a stored key and a `clear` write the file, and each of those succeeds |
| Listing.Entries | core/tools/builtin/dependencies.py:206-207 | one "  name: version" line per key, in the order given |
| Listing.Lines | core/tools/builtin/dependencies.py:206-207 | the lines of `sorted(d.items())`: one per entry of the dictionary |
| Listing.LinesSorted | core/tools/builtin/dependencies.py:206-207 | the listing shows every entry exactly once, in strictly increasing key order |
| Listing.EntriesComplete | core/tools/builtin/dependencies.py:206-207 | every listed key has its entry line |
| Listing.RenderLines | core/tools/builtin/dependencies.py:205-209 | the loop over the sorted items, joined by line breaks after the heading, renders `Render` |
| Listing.AppendEntries | core/tools/builtin/dependencies.py:206-207 | the loop appends one entry line per key to the lines it was given |
| Json.GetStr | core/context/compaction.py:120-121 | `d.get(key, default)` read as a string: a missing key gives the default and a string value is returned as is |
| Shell.FindBlocked | core/tools/builtin/shell.py:119-121 | the search over the blocked entries finds one exactly when some entry occurs in the text, and what it finds is an entry that occurs |
| Shell.Lowered | core/tools/builtin/shell.py:24-42 | each blocked entry lower-cased, in order |
| Shell.GetConfirmation | core/tools/builtin/shell.py:100-135 | the confirmation is dangerous, and reads "Execute (BLOCKED): ", exactly when a blocked entry occurs in the command as given; it carries the command |
| Shell.NormalisedHasNoCapitals | core/tools/builtin/shell.py:159 | `command.lower().strip()` leaves no capital letter |
| Shell.ChmodEntryNeverMatches | core/tools/builtin/shell.py:35 | as written, the entry "chmod -R 777" can never stop `execute`, since it holds a capital letter and the lowered command has none |
| Shell.ChmodSlipsThrough | core/tools/builtin/shell.py:119-120 | "chmod -R 777" is flagged as dangerous by the confirmation, yet `execute` as written (lines 159-161) does not block it |
| Shell.DangerousIsBlocked | core/tools/builtin/shell.py:159-161 | with the entries lower-cased as well, whatever the confirmation flags as dangerous `execute` refuses |
| Shell.MentionedIsBlocked | core/tools/builtin/shell.py:159-161 | an entry that occurs in a command occurs, lower-cased, in the lowered and stripped command |
| Shell.ShoutedIsBlockedNotDangerous | core/tools/builtin/shell.py:119-120 | "HALT" is not flagged as dangerous, because the confirmation compares case-sensitively, yet the screen `execute` runs as written (lines 159-161) refuses it, and so does the intended screen |
| Shell.WorkingDirectory | core/tools/builtin/shell.py:167-172 | the working directory is `params.cwd`, joined onto the invocation's cwd unless absolute, or the invocation's cwd when none is given |
| Shell.EnvironmentContents | core/tools/builtin/shell.py:234-264 | a variable reaches the child exactly when set_vars names it, or it is in the process environment and not excluded; set_vars wins |
| Shell.DefaultHidesTokens | core/tools/builtin/shell.py:250-259 | under the default policy a variable whose upper-cased name matches "*TOKEN*" is not passed on unless set explicitly |
| Shell.ExcludedIsHidden | core/tools/builtin/shell.py:250-259 | a variable matched by an exclude pattern of a policy that applies them, and not set explicitly, is not passed on |
| Shell.KeptStep | core/tools/builtin/shell.py:251-259 | one more pattern removes exactly the names it matches |
| Shell.BuildEnvironment | core/tools/builtin/shell.py:234-264 | the pattern loop deleting the matching keys, then `env.update(set_vars)`, builds `Environment` |
| Shell.AssembledEmptyIff | core/tools/builtin/shell.py:213-222 | the output is empty exactly when both streams are blank and the command exited with 0 |
| Shell.AssembledStartsWithStdout | core/tools/builtin/shell.py:214-215 | the output begins with the standard output stripped on the right, when that is not blank |
| Shell.AssembledEndsWithExit | core/tools/builtin/shell.py:221-222 | a non-zero exit ends the output with "Exit code: " and the code |
| Shell.Truncated | core/tools/builtin/shell.py:224-225 | output over 100 KiB is cut to its first 100 KiB plus the truncation note, and shorter output is kept |
| Shell.TruncatedIdempotent | core/tools/builtin/shell.py:224-225 | truncating twice is truncating once |
| Shell.Completed | core/tools/builtin/shell.py:227-232 | a finished child succeeds exactly on exit 0, carries stderr as its error exactly otherwise, and `truncated` stays false even when the output was cut |
| Shell.Screen | core/tools/builtin/shell.py:160-161 | the `for blocked in BLOCKED_COMMANDS` loop refuses exactly when some entry occurs in the text |
| Shell.Execute | core/tools/builtin/shell.py:137-232 | `execute` screens the lowered, stripped command against the entries as written; past that it refuses a missing working directory, or else launches bash (cmd.exe on Windows) with the built environment and reports how the child ended |
| Shell.Conclude | core/tools/builtin/shell.py:191-232 | once the child has ended: the timeout error, or the completed result with its output truncated |
| Shell.AssembleOutput | core/tools/builtin/shell.py:213-222 | the step-by-step `output +=` builds `Assembled` |
| Shell.IntendedConfirmation | core/tools/builtin/shell.py:119-135 | the corrected confirmation: dangerous, and reading "Execute (BLOCKED): ", exactly when the intended screen of `execute` refuses the command |
| Shell.IntendedConfirmationWarnsMore | core/tools/builtin/shell.py:119-120 | the corrected confirmation warns about every command the written one flags, and also about "HALT", which the written one lets pass unflagged |
| GitBranch.GetConfirmation | core/tools/builtin/git_branch.py:108-146 | only create, delete and switch ask for confirmation, only delete is dangerous, and the description is the capitalised action with the branch name and the action's warning |
| GitBranch.MutatingIffConfirmation | core/tools/builtin/git_branch.py:91-131 | the tool asks for confirmation exactly when `is_mutating` calls the call mutating |
| GitBranch.DeleteDescription | core/tools/builtin/git_branch.py:132-137 | deleting names the branch and warns that the deletion is permanent |
| GitBranch.SwitchDescription | core/tools/builtin/git_branch.py:132-139 | switching names the branch and warns about uncommitted changes |
| GitBranch.CreateDescription | core/tools/builtin/git_branch.py:132-135 | creating names the branch and carries no warning |
| GitBranch.Execute | core/tools/builtin/git_branch.py:148-346 | `execute` builds its commands as it goes and computes `Execution`: its result and the git commands it runs, in order |
| GitBranch.RepositoryCheckedFirst | core/tools/builtin/git_branch.py:175-186 | a path that is missing, not a directory or not a git repository stops the tool before any command runs |
| GitBranch.NameRequired | core/tools/builtin/git_branch.py:226-256 | create, delete and switch without a branch name fail with "Branch name is required for … action" before any git command runs |
| GitBranch.DeleteFlag | core/tools/builtin/git_branch.py:257-270 | delete runs one `git branch` in the repository whose flag is "-D" exactly when forced and "-d" otherwise, naming the branch last |
| GitBranch.SwitchFlag | core/tools/builtin/git_branch.py:289-300 | switch runs one `git checkout` in the repository, with "-f" exactly when forced, naming the branch last |
| GitBranch.UnknownAction | core/tools/builtin/git_branch.py:334-338 | any other action is an error naming the valid ones, and runs nothing |
| GitBranch.CallsAreGitInRepo | core/tools/builtin/git_branch.py:188-346 | at most two commands run, each of them git in the repository, and success needs the first one to exit with 0 |
| GitBranch.ListNamesCurrent | core/tools/builtin/git_branch.py:191-225 | a listing reports the current branch first, "unknown" when `--show-current` fails, then the output of `git branch -a` |
| GitBranch.CapitalisedCreateRunsUnconfirmed | core/tools/builtin/git_branch.py:105-106 | the action "Create" is not mutating and asks for no confirmation, yet `execute` lower-cases it (line 188) and runs `git branch` to create the branch |
| GitBranch.OnlyDeleteIsAsked | core/safety/approval.py:149-191 | a git_branch confirmation, judged with the tool's `is_mutating` (core/tools/registry.py:271-283), is never rejected, and reaches the user only for "delete" outside YOLO: create and switch are approved without asking |
| GitBranch.CapitalisedDeleteRunsUnconfirmed | core/tools/builtin/git_branch.py:126-131 | the action "Delete" gets no confirmation, while "delete" gets a dangerous one, yet `execute` lower-cases it (line 188) and runs `git branch -d` on the branch |
| GitBranch.GetConfirmationLowered | core/tools/builtin/git_branch.py:125-146 | the corrected `get_confirmation`, which lower-cases the action first: it asks exactly when the lowered action is create, delete or switch, is dangerous exactly for delete, and describes the lowered action |
| GitBranch.LoweredAgreesOnLowerCase | core/tools/builtin/git_branch.py:125-146 | on an action already in lower case the corrected confirmation equals the one written |
| GitBranch.MutatingLoweredIffConfirmation | core/tools/builtin/git_branch.py:105-131 | under the corrected definitions the tool asks for confirmation exactly when it calls the call mutating |
| GitBranch.CapitalisedCreateConfirmedLowered | core/tools/builtin/git_branch.py:126-131 | under the corrected definitions "Create" is mutating and gets a confirmation that is not dangerous |
| GitBranch.CapitalisedDeleteConfirmedLowered | core/tools/builtin/git_branch.py:126-131 | under the corrected definitions "Delete" gets a dangerous confirmation, which `check_approval` puts to the user outside YOLO |
| GitBranch.UnconfirmedOnlyReads | core/tools/builtin/git_branch.py:148-346 | a call to which the corrected `get_confirmation` gives no confirmation runs only `git branch -a` and `git branch --show-current` |
| GitStash.GetConfirmation | core/tools/builtin/git_stash.py:108-147 | every action but "list" asks for confirmation, only drop is dangerous, and the description is the capitalised action with its warning |
| GitStash.MutatingIffConfirmation | core/tools/builtin/git_stash.py:91-128 | the tool asks for confirmation exactly when `is_mutating` calls the call mutating |
| GitStash.DropDescription | core/tools/builtin/git_stash.py:132-136 | dropping names the index, 0 when none is given, and warns that the stash is deleted |
| GitStash.PopDescription | core/tools/builtin/git_stash.py:132-138 | popping carries the pop warning |
| GitStash.ApplyDescription | core/tools/builtin/git_stash.py:132-140 | applying carries the apply warning |
| GitStash.StashRefDefaultsToZero | core/tools/builtin/git_stash.py:247-251 | the stash reference is "stash@{N}" with N the given index, or 0 when none is given |
| GitStash.Execute | core/tools/builtin/git_stash.py:149-336 | `execute` computes `Execution`: its result and the git commands it runs, in order |
| GitStash.Save | core/tools/builtin/git_stash.py:216-245 | the save branch: `git stash push`, with "-m" and the message when given, and the message echoed in the output |
| GitStash.RepositoryCheckedFirst | core/tools/builtin/git_stash.py:176-187 | a path that is missing, not a directory or not a git repository stops the tool before any command runs |
| GitStash.TargetsIndexOrZero | core/tools/builtin/git_stash.py:246-320 | apply, pop and drop run one `git stash <action> stash@{N}`, N the given index or 0, and a success reports that same N as its stash_index |
| GitStash.SaveMessage | core/tools/builtin/git_stash.py:216-245 | save passes "-m" and the message exactly when a message is given, with a 60-second timeout, and a success ends its output with "\nMessage: " and the message |
| GitStash.EmptyListing | core/tools/builtin/git_stash.py:192-214 | an empty listing reads "No stashes found." and counts one line |
| GitStash.UnknownAction | core/tools/builtin/git_stash.py:324-328 | any other action is an error naming the valid ones, and runs nothing |
| GitStash.OnlyDropIsAsked | core/safety/approval.py:149-191 | a git_stash confirmation, judged with the tool's `is_mutating` (core/tools/registry.py:271-283), is never rejected, and reaches the user only for "drop" outside YOLO |
| GitStash.CapitalisedListAsks | core/tools/builtin/git_stash.py:126-131 | the action "List" is mutating and gets a confirmation that is not dangerous (line 128 compares the raw action), which `check_approval` approves without asking, and `execute` lower-cases it (line 189) and only runs `git stash list` |
| GitStash.GetConfirmationLowered | core/tools/builtin/git_stash.py:125-147 | the corrected `get_confirmation`, which lower-cases the action first: it asks exactly when the lowered action is not "list", is dangerous exactly for drop, and describes the lowered action |
| GitStash.LoweredAgreesOnLowerCase | core/tools/builtin/git_stash.py:125-147 | on an action already in lower case the corrected confirmation equals the one written |
| GitStash.MutatingLoweredIffConfirmation | core/tools/builtin/git_stash.py:105-131 | under the corrected definitions the tool asks for confirmation exactly when it calls the call mutating |
| GitStash.CapitalisedListUnconfirmedLowered | core/tools/builtin/git_stash.py:126-131 | under the corrected definitions "List" is not mutating and gets no confirmation |
| GitStash.UnconfirmedOnlyLists | core/tools/builtin/git_stash.py:149-336 | a call in a repository to which the corrected `get_confirmation` gives no confirmation runs `git stash list` and nothing else |
| GitCommit.IsMutating | core/tools/builtin/git_commit.py:112-126 | a commit is always mutating, whatever its parameters |
| GitCommit.DangerousHasPattern | core/tools/builtin/git_commit.py:152-156 | a dangerous message holds one of the dangerous patterns at some place of its lower case |
| GitCommit.DangerousInAnyCase | core/tools/builtin/git_commit.py:152-156 | a pattern written in any mix of cases still makes the message dangerous |
| GitCommit.DangerIgnoresCase | core/tools/builtin/git_commit.py:153-156 | lower-casing the message first changes nothing about its danger |
| GitCommit.ShoutedForceIsDangerous | core/tools/builtin/git_commit.py:22-34 | "FORCE push" is dangerous though the pattern is written "force" |
| GitCommit.DescriptionOpens | core/tools/builtin/git_commit.py:185-189 | the description opens with "Commit changes with message: " and the message, and the notes follow |
| GitCommit.AmendNoted | core/tools/builtin/git_commit.py:186-187 | the notes start with " (" exactly when the commit amends |
| GitCommit.FilesNoted | core/tools/builtin/git_commit.py:188-189 | the notes hold a line break exactly when files are listed, and then end with the comma-separated list |
| GitCommit.ExistingFilesExactly | core/tools/builtin/git_commit.py:160-164 | with files given, a path is affected exactly when it is a listed file, resolved against the repository, that exists |
| GitCommit.KeptExactly | core/tools/builtin/git_commit.py:176-181 | a path is kept exactly when some status line names it and it exists |
| GitCommit.StatusPathsExactly | core/tools/builtin/git_commit.py:176-181 | without files, a path is affected exactly when a non-blank `git status --porcelain` line names it (from column 3, stripped) and it exists |
| GitCommit.ExistingTargets | core/tools/builtin/git_commit.py:160-164 | the loop over the listed files collects exactly the existing ones, in order |
| GitCommit.StatusTargets | core/tools/builtin/git_commit.py:175-181 | the loop over the status lines collects exactly the existing paths they name, in order |
| GitCommit.GetConfirmation | core/tools/builtin/git_commit.py:128-197 | `get_confirmation`, built file by file or line by line, computes `Asking`: the confirmation and the status command it runs |
| GitCommit.AffectedTargets | core/tools/builtin/git_commit.py:158-183 | the affected paths, with a status command run exactly when no files are listed |
| GitCommit.Describe | core/tools/builtin/git_commit.py:185-189 | the description extended note by note is `Description` |
| GitCommit.ConfirmationFacts | core/tools/builtin/git_commit.py:128-197 | every confirmation is dangerous exactly when the message is, lists only paths that exist, and runs git status exactly when no files are listed |
| GitCommit.StopPersists | core/tools/builtin/git_commit.py:241-257 | once staging has stopped at some file, the files after it change nothing |
| GitCommit.StageListed | core/tools/builtin/git_commit.py:241-257 | the staging loop, which returns at the first file that is missing or fails to stage, computes `StageFiles` |
| GitCommit.StageOne | core/tools/builtin/git_commit.py:243-257 | the loop body for one file: "File not found", or a `git add` of its repository-relative path that may fail |
| GitCommit.Commit | core/tools/builtin/git_commit.py:272-329 | the steps after staging: the staged-changes check, the commit built flag by flag, and the hash read |
| GitCommit.Record | core/tools/builtin/git_commit.py:304-329 | reading the commit hash ("unknown" when rev-parse fails) and the result reporting it |
| GitCommit.Execute | core/tools/builtin/git_commit.py:199-334 | `execute` computes `Execution`: its result and the git commands it runs, in order |
| GitCommit.CommitFlags | core/tools/builtin/git_commit.py:284-288 | the commit command starts with `git commit -m <message>` and carries --amend and --allow-empty exactly when asked, in that order |
| GitCommit.StagingAdds | core/tools/builtin/git_commit.py:241-270 | every command staging runs is a `git add` in the repository, at most one per listed file |
| GitCommit.RepositoryCheckedFirst | core/tools/builtin/git_commit.py:226-238 | a failing repository check stops the tool before any command runs |
| GitCommit.MissingFileAborts | core/tools/builtin/git_commit.py:242-245 | a listed file that does not exist ends `execute` with "File not found" after only the adds of the files before it, so nothing is committed |
| GitCommit.NothingStagedNoCommit | core/tools/builtin/git_commit.py:272-282 | with nothing staged and no allow_empty, `execute` fails and runs no commit |
| GitCommit.SuccessMeansCommitted | core/tools/builtin/git_commit.py:272-329 | a success ran the commit with exit code 0 after a check that found staged changes or an allow_empty request, read the hash last, and reports the message |
| GitCommit.StopFails | core/tools/builtin/git_commit.py:241-270 | staging stops only with a failure |
| GitCommit.ShortHashReported | core/tools/builtin/git_commit.py:318-320 | a commit with no output of its own reports "Commit created successfully: " with the first 8 characters of its hash |
| Workspace.ProjectPath | core/tools/builtin/git_branch.py:169-173 | The tools work in the resolved path when one is given, else in the invocation's cwd. |
| Workspace.PathError | core/tools/builtin/dependencies.py:196-201 | There is no error exactly for a directory. A missing path gives "Path does not exist"; a file gives "Path is not a directory". |
| Workspace.RepoError | core/tools/builtin/git_branch.py:175-186 | The git checks pass exactly for a directory holding ".git". The path errors come first, then "Not a git repository". |
| Workspace.Git | core/tools/builtin/git_branch.py:192-198 | The command line is "git" followed by the given arguments. |
| Workspace.Caught | core/tools/builtin/git_branch.py:340-346 | A timeout reports the timed-out message, and any other exception reports the failure prefix with its text. The output is empty. |
| Workspace.Checked | core/tools/builtin/git_branch.py:200-205 | A non-zero exit fails with the standard error appended to the failure prefix, keeping the standard output. Exit 0 gives the success result. An aborted run is caught. |
| Dependencies.Collect | core/tools/builtin/dependencies.py:88-101 | the requirements loop leaves exactly the dictionary `Collected` describes: one entry per named package |
| Dependencies.IgnoredLines | core/tools/builtin/dependencies.py:89-91 | a requirements line is skipped exactly when it is blank or, once stripped, starts with "#" |
| Dependencies.PinnedLine | core/tools/builtin/dependencies.py:93-95 | a line "name==version" maps the stripped name to the stripped version |
| Dependencies.PinnedSplit | core/tools/builtin/dependencies.py:93-95 | any non-comment line that splits on "==" into two parts maps its stripped first part to its stripped second part |
| Dependencies.MinimumSplit | core/tools/builtin/dependencies.py:96-99 | a line that does not split on "==" into two parts but does on ">=" maps its stripped name to its stripped minimum version |
| Dependencies.MinimumLine | core/tools/builtin/dependencies.py:97-99 | a line "name>=version" maps the stripped name to the stripped minimum version |
| Dependencies.BareLine | core/tools/builtin/dependencies.py:100-101 | a line with no "=" names its package by its first word, with version "unknown" |
| Dependencies.CollectedKeys | core/tools/builtin/dependencies.py:88-101 | a package is in the collected dictionary exactly when some line's entry names it |
| Dependencies.CollectedLast | core/tools/builtin/dependencies.py:88-101 | a package's collected version is the one of the last line that names it |
| Dependencies.RequirementsKeys | core/tools/builtin/dependencies.py:84-102 | a package is listed from requirements.txt exactly when some line of the file names it |
| Dependencies.LastWins | core/tools/builtin/dependencies.py:93-101 | a package named on several lines of requirements.txt keeps the version of the last one |
| Dependencies.CollectAll | core/tools/builtin/dependencies.py:113-121 | the pyproject.toml loop leaves what `AllCollected` describes, which is nothing once an entry raises |
| Dependencies.AllCollectedStops | core/tools/builtin/dependencies.py:115-123 | once an entry has raised, the whole pyproject.toml list yields nothing |
| Dependencies.AllCollectedParses | core/tools/builtin/dependencies.py:115-121 | the pyproject.toml loop finishes exactly when no entry raises, and it then builds what the requirements loop builds from the same entries |
| Dependencies.PyProjectParses | core/tools/builtin/dependencies.py:106-123 | the pyproject.toml dependencies yield a dictionary exactly when no entry raises, and that dictionary maps each name to its "==" version or "unknown" |
| Dependencies.BlankEntryRaises | core/tools/builtin/dependencies.py:116-120 | a blank pyproject.toml entry raises (`split()[0]` of nothing), so the file yields nothing |
| Dependencies.PythonDependencies | core/tools/builtin/dependencies.py:69-125 | `_parse_python_dependencies` with its two loops computes `PythonDeps`: requirements.txt first, then pyproject.toml, else None |
| Dependencies.RequirementsFirst | core/tools/builtin/dependencies.py:83-104 | a readable requirements.txt always yields a dictionary, and pyproject.toml is then never consulted |
| Dependencies.Pair | core/tools/builtin/dependencies.py:149-150 | an element of a list given to `dict.update`: a two-item list with a string key, or a two-character string, is a pair; anything else raises |
| Dependencies.PairsKeys | core/tools/builtin/dependencies.py:149-150 | a list of pairs updates exactly when every element is a pair, and then holds exactly the keys some element names |
| Dependencies.PairsLastWins | core/tools/builtin/dependencies.py:149-150 | a key named by several pairs keeps the value of the last one |
| Dependencies.Section | core/tools/builtin/dependencies.py:149-150 | `deps.update(data.get(key, {}))`: a missing key adds nothing, an object adds its entries, a list adds its pairs, a string updates only when empty, and null, a number or a boolean raises |
| Dependencies.PairListsListed | core/tools/builtin/dependencies.py:146-151 | a package.json section written as a list of pairs, or of two-character strings, lists their packages |
| Dependencies.DevOverrides | core/tools/builtin/dependencies.py:146-151 | package.json lists the packages of both sections, and a package in both keeps its devDependencies version |
| Dependencies.Versions | core/tools/builtin/dependencies.py:217-218 | the Node.js listing has the same packages as package.json, and a string version is printed as is |
| Dependencies.ListDependencies | core/tools/builtin/dependencies.py:187-226 | `ListDependenciesTool.execute` with its parsing and listing loops computes `ListDeps` of the resolved project path |
| Dependencies.ListedSorted | core/tools/builtin/dependencies.py:204-211 | a success lists every package exactly once in strictly increasing name order after its heading, and its metadata counts them |
| Dependencies.PythonWins | core/tools/builtin/dependencies.py:202-211 | when Python packages exist they are listed, whatever package.json holds |
| Dependencies.FallsToNode | core/tools/builtin/dependencies.py:213-222 | with no Python package, the Node.js packages are listed when there are any |
| Dependencies.EmptyManifestsFail | core/tools/builtin/dependencies.py:224-226 | manifests that list nothing are reported as "No dependency file found" |
| Dependencies.Caught | core/tools/builtin/dependencies.py:299-305 | the three `except` clauses: "pip not found", "Update check timed out" or "Failed to check updates: " plus the message |
| Dependencies.PipExitCodes | core/tools/builtin/dependencies.py:287-298 | pip succeeds exactly on exit code 0, and shows its output only when it holds "Package" |
| Dependencies.NpmExitCodes | core/tools/builtin/dependencies.py:318-333 | npm succeeds exactly on exit codes 0 and 1: 1 shows the outdated table (or "Some packages are outdated."), 0 reports all up to date |
| Dependencies.PythonChecksFirst | core/tools/builtin/dependencies.py:274-305 | a Python manifest makes pip the only command run, even beside a package.json |
| Dependencies.NoManifestRunsNothing | core/tools/builtin/dependencies.py:342-344 | without any manifest no command runs and the result is "No dependency file found" |

## Left out

- UI rendering (core/ui/formatters.py, tui.py, banner.py, theme.py, console.py) only builds terminal renderables.
- The network and the LLM transport are external: the OpenAI client and its set-up and close (core/llm/client.py:64-114), the non-streaming path `_non_stream_response` (client.py:325 onwards), core/llm/ollama.py, and the web search and fetch tools. Only the chunk folding and the request's tool list are modelled.
- Retry with backoff (core/llm/retry.py) sleeps on float delays and uses exception classes of a library that is not part of this model.
- MCP transport and its concurrent fan-out (core/tools/mcp/) are asynchronous I/O. MCP tools appear only as registry entries. `ToolRegistry.connected_mcp_servers` and `get_schemas` (registry.py:60-69, 187-201) are not modelled.
- Subprocess and filesystem bodies are external: the hook executor, and the tools other than edit_file, read_file, todos, memory, shell, git_branch, git_stash, git_commit and the dependency tools. Each child process is the oracle `run`; what the disk holds is an input.
- The regular expressions of core/safety/patterns.py are the predicates `dangerous` and `safe`.
- Foreign libraries are parameters or are left out:
  - the tiktoken encoder;
  - Pydantic validation and JSON-schema generation;
  - `json` parsing and encoding;
  - difflib's unified diff (`FileDiff.to_diff`);
  - `datetime` and `isoformat`, and `uuid`;
  - symlink-resolving `Path.resolve`;
  - `fnmatch`.
- Dynamic and global registration (core/tools/discovery.py, core/tools/registration/) loads modules at run time.
- Nested agents (core/tools/subagents/) run under a wall-clock deadline. Only their registration as the subagent tool is modelled.
- `asyncio` is not modelled. Every `await` is a sequential call, and `__aenter__`/`__aexit__` of the agent (agent.py:257-299) are not modelled.
- `Configuration.validate`, `api_key` and `base_url`, and the file reads of `load_configuration`, consult the environment and the disk. ConfigLoader.LoadConfigDict takes the parsed files as inputs, and the final `Configuration(**config_dict)` validation (loader.py:314-332) is not modelled.
- `Session._load_memory` (session.py:159-189) reads the memory file from disk, so it is not modelled. The system prompt it feeds is built by core/prompts/builder.py, which is not part of this model.
- Strings.Lower: the case mapping covers ASCII letters only. Python's `str.lower()` is Unicode-wide: KELVIN SIGN (U+212A) lowers to "k", and "Ä" lowers to "ä". The same holds for Strings.Upper, Strings.ToLower and Strings.Capitalize.
- Strings.Strip: whitespace is the ASCII set that `str.isspace()` accepts. Python's `strip()` and `split()` also treat NO-BREAK SPACE (U+00A0) and the other Unicode spaces as blank. In the model, todo or memory content of a lone U+00A0 counts as given, and Strings.Words splits less than `split()` does.
- Shell.Execute: because of the ASCII case mapping, the model runs "mKfs /dev/sda" (with U+212A). shell.py:159-161 lowers that command to "mkfs /dev/sda" and blocks it.
- Persistence.FromDict returns None unless "session_id" is a string, "turn_count" a number and "messages" a list. `from_dict` (persistence.py:101-108) checks none of these types and builds the snapshot from whatever values it finds.
- Persistence.Listed gives Err("TypeError") for two or more sessions whose timestamps are not all strings. persistence.py:218 raises only when the sort compares values of incomparable types, so all-numeric timestamps sort without error. Non-string timestamps are not ordered in this model.
- LlmClient.ToUsage: the raw usage's `cached` is an `Option<nat>` (LlmClient.RawUsage), which cannot distinguish missing prompt-token details from details whose `cached_tokens` is None, and both record 0 cached tokens. In Python the second case fails `TokenUsage` validation (client.py:251-256 against llm/models.py:88) and ends the stream with an error event.
- Errors.ConfigurationError returns a new details list. exceptions.py:179-183 inserts "config_key" and "config_file" into the caller's own `details` dict, so the caller sees its dict changed. That aliasing is not modelled.
- Errors.ConnectionError: the same holds for the in-place insertion of "endpoint" (exceptions.py:227-229).
- Errors.ApiError: the same holds for the in-place insertion of "status_code" (exceptions.py:272-274).
- Errors.RateLimitError: the same holds for the in-place insertion of "retry_after" (exceptions.py:315-317). In addition, `retry_after` is an `Option<int>`: exceptions.py:311 takes a float, whose fractional seconds and `str()` form are not modelled.
- AgentLoop.Agent.RunCall: a tool is a pure record, so state that a tool keeps between calls (the todos store, the memory file) is not threaded through a run. That state is modelled on its own, by Todo.TodosTool and Memory.MemoryTool.
- Memory.MemoryTool.Execute: the file is an `Option<map<string, string>>`. A parsed file without an "entries" key cannot be represented; on such a file `set` raises KeyError (memory.py:140-149). Nor can a file with other top-level keys, which `_save_memory` writes back unchanged.
- Compaction.FieldStr: a name or arguments field that is present but not a string renders as the default ("unknown" or "{}") instead of Python's `str(value)`; a `null` name, for example, renders as "None" in compaction.py:95-96.
- UiHelpers.OrderToolArguments: Python iterates the remaining keys as a `set`, whose order is unspecified. In this model they come in sorted order.
- ReadFile.Execute: the float formatting of file sizes in two error messages is the parameters `megabytes` and `sizeLabel`.
- UiHelpers.ParseLine: `\s` and `\d` in helpers.py:67 and 76 are read as the ASCII blanks and digits. Python's `re` on a `str` also matches Unicode digits (such as "٣") and Unicode spaces, so a numbered line written with them is parsed there and not in the model. The same holds for UiHelpers.HeaderLength.
- AgentLoop.ArgsOf: a call whose arguments stayed a string is invoked with no parameters. Python passes the string itself to `invoke` (agent.py:207-213), whose validation and tool bodies then treat it as a dict and fail in ways this model does not follow. The loop detector skips non-dict arguments (loop_detector.py:82-84), as the model does.
- LlmClient.StreamResponse: the text of the validation error raised for a tool call whose arguments fail validation is the parameter `rejection`.
- Dependencies.Pair: a two-key object inside a list is a pair in Python (its two keys, in insertion order), and a pair whose first item is a number or another hashable value adds that key. A `Json.Obj` keeps no key order and every key of the model is a string, so both are treated as raising.
- Memory.MemoryTool.Save: a write that fails after truncating the file is modelled as leaving the file as it was.
- EditFile.GetConfirmation: reading the existing file to build the diff (edit_file.py:130) is assumed to succeed. A read that raises there escapes `invoke` before `execute` runs, which is not modelled.
- Json.Value: a number is `Num(n: int)`, an integer. A float in tool arguments, in a configuration file or in a saved session cannot be represented, and neither can the results that depend on one.

## Findings

| source | as written | input that shows it | evidently intended | confidence | as-written member | corrected member |
|---|---|---|---|---|---|---|
| core/tools/builtin/shell.py:159-161 | `execute` lowers and strips the command, then looks for each `BLOCKED_COMMANDS` entry as written. The entry "chmod -R 777" (line 35) holds a capital letter, so it can never match. The confirmation flags the command as dangerous, yet `execute` runs it. | "chmod -R 777" | compare against lower-cased entries, so that whatever the confirmation flags is refused (Shell.Blocked) | not executed | Shell.ChmodSlipsThrough | Shell.DangerousIsBlocked |
| core/tools/builtin/shell.py:119-120 | `get_confirmation` searches the raw command case-sensitively, while `execute` lowers it first. A shouted command gets no warning and is then refused. | "HALT" | the confirmation screens the command the way `execute` does (Shell.IntendedConfirmation) | not executed | Shell.ShoutedIsBlockedNotDangerous | Shell.IntendedConfirmationWarnsMore |
| core/tools/builtin/git_branch.py:126-131 | `get_confirmation` (and `is_mutating`, lines 105-106) test the raw action against {"create", "delete", "switch"}, but `execute` lowers it (line 188). The registry only judges a call that gets a confirmation (core/tools/registry.py:271-273), and `check_approval` (core/safety/approval.py:149-191) asks the user only about dangerous ones, that is "delete". "Delete" gets no confirmation, so it skips that question, yet it still deletes the branch. | action "Delete" with a branch name, not forced | `get_confirmation` lowers the action before its test at line 128, as `execute` does (GitBranch.GetConfirmationLowered, under which "Delete" is dangerous and asked outside YOLO) | not executed | GitBranch.CapitalisedDeleteRunsUnconfirmed | GitBranch.CapitalisedDeleteConfirmedLowered, GitBranch.UnconfirmedOnlyReads |
| core/tools/builtin/git_stash.py:126-131 | `get_confirmation` (line 128) and `is_mutating` (lines 105-106) compare the raw action with "list", but `execute` lowers it (line 189). "List" gets a confirmation that is not dangerous and names no command or path, so `check_approval` (core/safety/approval.py:149-191) approves it without asking: the user sees nothing, and the listing is judged as a mutation. | action "List" | `get_confirmation` lowers the action before its comparison at line 128, as `execute` does (GitStash.GetConfirmationLowered, under which "List" gets no confirmation) | not executed | GitStash.CapitalisedListAsks | GitStash.CapitalisedListUnconfirmedLowered, GitStash.UnconfirmedOnlyLists |

Shell.Execute and the GitBranch and GitStash `GetConfirmation` follow the code as written. The corrected definitions sit beside them, with the intended property proved about each.

# Agent runtime: a model and its proofs

This project models the concurrent agent runtime of the SDK and the decision and scheduling code it runs on, and proves what every schedule, every run and every input keeps.

Sequential code that updates variables is modelled as methods and classes proved against specification functions. Concurrent code is modelled as a step relation: one step for each critical section, channel operation, atomic load, cancellation and hook return, with any number of sessions, runs, workers, requests or agents. A property of all interleavings is a lemma about every state of every sequence of steps.

| Modules | Component |
|---|---|
| `Lifecycle`, `Guarantees`, `Shutdown` | sessions, runs, slots, `Session.Close`, `Agent.Close`, and the way to its return |
| `EventStream` | the event channel of a run, `emit`, `emitTerminal`, the owner of the stream |
| `Conversation`, `Assembly` | messages, and the fold of provider events into a message and a list of tool uses |
| `ReadStream` | the reader of a provider stream, its producer and cancellation |
| `TurnLoop` | the turn loop, the history it builds and the requests it sends |
| `Scheduler` | the ordered tool scheduler |
| `Types`, `Permissions`, `Hooks`, `ToolBounds`, `ToolCall` | the policy, the hooks, the static bounds, and one mediated tool call |
| `Accounting`, `AgentTree`, `Budget` | ledger and tracker, the tree of subagents, budget admission |
| `McpConnection` | the gate, poisoning and closing of a stdio connection |
| `Clone` | deep copies on the heap and the isolation they give |
| `Text`, `LineDiff`, `Patch`, `FileEdit` | the diff, its counter, and the edit tool with its line-ending rewrite |

## Where the code and its promises differ

Each difference comes with the exact condition and with an input or execution that shows it.

- The edit tool says that it preserves line endings. In a file with mixed endings it also rewrites lone line feeds outside the replaced text. The text between the matches comes out unchanged if and only if the rewrite is skipped or none of it has a lone line feed (`FileEdit.EditTouchesOnlyMatches`, `FileEdit.MixedFileLosesItsLoneLF`). In a file without lone line feeds that is always so, whatever the new text, unless the old text ends in a carriage return (`FileEdit.CleanFileStaysClean`).
- The diff counter skips a recorded line whose text starts with `++` or `--`, and counts lines of a file name that contains line feeds (`Patch.CountChangesExact`, `Patch.PlusPlusLineIsNotCounted`).
- The wildcard matcher knows a star only at one end of the pattern (`Permissions.WildcardIsGlobExactly`, `Permissions.WildcardMisses`, and for what other patterns match `Permissions.WildcardExactly`).
- With two tool uses of one id, the parsed input of the second reaches the first. Over a whole stream, the side list and the message stay in step if and only if no stop does that kind of harm (`Assembly.StreamInStepExactly`, `Assembly.DuplicateIdMisdirects`).
- A hook's rewritten input counts if and only if no later hook answers with an output, even one that only approves (`Hooks.RewriteSurvivesExactly`, `Hooks.LaterOutputDropsRewrite`).
- The stream reader can return nil although the context has ended. It does so exactly when the stream looks complete to it (`ReadStream.CancelMissedExactly`, `ReadStream.NilAfterCancel`). With a producer that publishes an error whenever the context ends before it closes the events, a nil result means that the events were complete before the context ended (`ReadStream.NilFromTellingProducer`).
- A run leaves an unpaired history if and only if its last turn asked for tools and then either the message could not be emitted or the check before the tools refused (`TurnLoop.PairedAtTheEndExactly`).
- A live run can outlive `Agent.Close` if and only if, when it is called, the SessionStart of the run's session has failed, so that the session is not registered any more (`Shutdown.OutlivesCallExactly`, `Guarantees.FailedStartEscapesClose`). A SessionStart that fails after the call makes no difference (`Shutdown.OutlivesClosingExactly`). Some time before the call, a SessionStart that has not succeeded yet may still fail in time (`Shutdown.OutlivesCloseExactly`).
- The MCP client never looks at the id of a reply. A caller gets its own reply if and only if the server has sent nothing of its own up to that line (`McpConnection.OwnReplyExactly`, `McpConnection.ChattyServerCrossWires`).
- While the gate is free, requests written equal replies read if and only if no read has failed. Failed writes do not matter (`McpConnection.GateFreeMeansBalanced`, `McpConnection.FailedReadLosesBalance`).

## Model

| member | source | states |
|---|---|---|
| Guarantees.SlotConservation | agent/session.go:131-136 | in every reachable state the occupied slots are exactly the runs that hold capacity and have not released it, never more than the capacity, and every running run holds one |
| Guarantees.OneLiveRun | agent/session.go:107-129 | two runs of one session that are not done are the same run, and it is the session's active one |
| Guarantees.SlotReceiveNeverBlocks | agent/run.go:177-181 | the receive that gives back a slot always finds one |
| Guarantees.CompletesOnce | agent/run.go:132-188 | the final critical section has run once for a done run and not at all for any other |
| Guarantees.StartedSession | agent/session.go:72-95 | newSession succeeds only for a registered session whose SessionStart succeeded and which was never closed while that hook ran; after a failed SessionStart the session is closed and out of the map |
| Guarantees.NewSessionSucceedsExactly | agent/session.go:73-95 | at the step at which newSession returns, it returns success if and only if the SessionStart succeeded, the session was not closed while the hook ran, and the agent is open |
| Guarantees.RunBeginsOpen | agent/session.go:131-154 | a run that begins running had capacity, its session and the agent were open, and it was not cancelled |
| Guarantees.RunCanBeginExactly | agent/session.go:137-154 | past the select a run can begin if and only if the agent and its session are open, no Start holds the session, and it is not cancelled |
| Guarantees.Lasting | agent/session.go:107-153 | after the agent is closed, over any number of steps, no run starts running that was not running and no newSession succeeds that had not |
| Guarantees.NoStartAfterClose | agent/session.go:107-132 | once the agent is closed, a session whose lock no Start holds by then gets no run any more |
| Guarantees.CancelBeforeJoin | agent/agent.go:494-500 | while Agent.Close joins, every live run of a session it took down is already cancelled |
| Guarantees.SnapshotStays | agent/agent.go:486-492 | which sessions Agent.Close takes down is fixed by its first step |
| Guarantees.ShutdownComplete | agent/agent.go:484-504 | when Agent.Close returns, only sessions that were not registered when it was called, because their SessionStart had failed, can have a run that is not done; if there are none, every run is done and no slot is held |
| Guarantees.QuietAfterShutdown | agent/agent.go:484-504 | from then on there is no new session, every session that Agent.Close took down stays closed, and every run of such a session had been reserved before and is done |
| Guarantees.NothingAfterShutdown | agent/agent.go:484-504 | if it took all sessions down, no run is ever reserved again and all stay done |
| Shutdown.CloseCanReturn | agent/agent.go:484-504 | from every reachable state, before Agent.Close and at any point within it, there is a way to its return, so no deadlock can prevent it, and on that way nothing moves that belongs to a session it does not take down |
| Shutdown.OutlivesClosingExactly | agent/agent.go:484-504 | once Agent.Close has begun, a live run can outlive it if and only if its session is not in the snapshot |
| Shutdown.OutlivesCallExactly | agent/agent.go:486-492 | in the state in which Agent.Close is called: if and only if the session is not registered any more |
| Shutdown.OutlivesCloseExactly | agent/session.go:72-95 | in a state some time before the call: if and only if the SessionStart of the session has not succeeded yet |
| Guarantees.SessionEndOnce | agent/session.go:239-252 | SessionEnd fires at most once, only after a successful SessionStart returned, on a closed session none of whose runs is live |
| Guarantees.SessionCloseComplete | agent/session.go:226-252 | when Session.Close returns, the session is closed, its start is over, all its runs are done, and SessionEnd has fired and come back if and only if SessionStart had succeeded |
| Guarantees.SessionCloseCancels | agent/session.go:226-245 | Session.Close waits only for runs it has cancelled |
| Guarantees.FailedStartEscapesClose | agent/session.go:74-84 | without that assumption: a reachable state in which Agent.Close has returned and a run is at work |
| Lifecycle.KeepsInv | agent/session.go:107-252 | every step of every participant keeps the six invariants behind the results above |
| EventStream.TerminalDelivery | agent/run.go:85-128 | a drained stream is the emitted events in order with at most one missing, from the last buffer, and then exactly one terminal event |
| EventStream.ReceivedIsPrefix | agent/run.go:109-127 | at every moment what was received is an initial part of that stream |
| EventStream.EmitTerminalTerminates | agent/run.go:229-241 | emitTerminal can always step, needs at most three steps, and no consumer adds any |
| EventStream.OneOwner | agent/run.go:58-83 | once claimed by Events or by Wait the stream keeps that owner |
| EventStream.FirstClaimWins | agent/run.go:58-83 | an unclaimed stream goes to whoever comes first, and a claimed one to nobody else |
| EventStream.EmitsExactly | agent/run.go:109-127 | an event can be emitted if and only if the run is at work and the buffer is not full |
| Conversation.ExtractToolUseBlocks | types/message.go:170-182 | the loop lists the tool-use blocks in order |
| Conversation.ExtractText | types/message.go:185-193 | the loop joins the text blocks in order |
| Conversation.TextsAppend | types/message.go:185-193 | the text of a message in two parts is the text of both, one after the other |
| Conversation.UsesAt | types/message.go:170-182 | every tool-use block is listed, at the place given by the tool uses before it |
| Conversation.UsesUpdate | types/message.go:170-182 | rewriting a block without changing its kind changes the extraction at that place and nowhere else |
| Assembly.Assembler.ProcessStreamEvent | agent/loop.go:353-442 | after each event, in place: every block is the fold of its own opening and its own pieces, and the side list, model, stop reason and usage are those of all events seen |
| Assembly.DeltaExactly | agent/loop.go:377-402 | a delta adds its "text" to the text of its block if its type is "text_delta", its "partial_json" if "input_json_delta", its "thinking" to the thinking if "thinking_delta", and otherwise nothing; other blocks stay |
| Assembly.StreamedBlock | agent/loop.go:377-402 | with the events of other blocks in between in any way, a block ends up with its text followed by all text and input streamed to it, and its thinking followed by all thinking |
| Assembly.StreamedTexts | agent/loop.go:362-402 | a block started and streamed in deltas of one kind holds their texts joined in the field of that kind, and its other field is as it was |
| Assembly.UsageExactly | agent/loop.go:353-361 | model and usage are those of the last message start, with the output tokens reported later added and nothing counted twice |
| Assembly.StopReasonExactly | agent/loop.go:428-442 | the stop reason is the one named last |
| Assembly.SideListIsExtraction | agent/loop.go:368-373 | with distinct ids the side list equals, after every event and for every interleaving, what extraction finds in the message |
| Assembly.SideListHasTheIds | agent/loop.go:368-424 | even with repeated ids, the side list has the ids and names of the extraction, in order |
| Assembly.StopKeepsExtractionExactly | agent/loop.go:411-425 | a stop keeps list and message in step if and only if the first entry with its id is its own, or both inputs already equal the parsed one |
| Assembly.StreamInStepExactly | agent/loop.go:353-442 | for every stream: list and message are in step after every event if and only if every stop that parses meets that condition |
| Assembly.DuplicateIdMisdirects | agent/loop.go:418-424 | a stream with a repeated id after which list and message differ |
| Assembly.PendingText | agent/loop.go:386-417 | until a stop parses it, a block's text is its start text and its own deltas in order, however many stops have failed to parse |
| Assembly.NothingLost | agent/loop.go:411-417 | thinking is never lost, and text that does not parse is never lost |
| Assembly.AssembledInput | agent/loop.go:404-425 | a tool use with any number of stops has, in the message and in the side list, the input parsed at its last successful stop from its text since the one before, and pending are its deltas since |
| ReadStream.NilMeansComplete | agent/loop.go:317-350 | with a producer that publishes its error before it closes the events, nil is returned only if no error was published and every event was processed in order |
| ReadStream.ProcessedInOrder | agent/loop.go:323-337 | whatever is returned, the processed events are an initial part of those sent |
| ReadStream.ReturnsWhatItWasGiven | agent/loop.go:323-350 | an error that is returned was waiting in the error channel or is that of the context, and one that was waiting there is not passed over for nil |
| ReadStream.CancelMissedExactly | agent/loop.go:326-347 | in any execution, the step with which the reader returns under an ended context returns nil if and only if it sees the closed events, no error was ever published, and the error channel it still holds is closed or holds a nil |
| ReadStream.CancelCanBeMissedExactly | agent/loop.go:326-347 | the very next step can miss the ended context if and only if the stream looks complete |
| ReadStream.NilFromTellingProducer | agent/loop.go:326-337 | when nil is returned, the producer had closed its events with all that was processed; if it reports ended contexts, the context had not ended by then |
| ReadStream.NilAfterCancel | agent/loop.go:330-335 | an execution that returns nil under a cancelled context |
| ReadStream.ReaderCanFinish | agent/loop.go:324-336 | the reader never waits for a producer that has closed its events |
| TurnLoop.Run.RunLoop | agent/loop.go:80-312 | from a paired history: messages, cost and turn count at every way out, every turn but the last has tools, and every request to the provider carries a paired history and was admitted on a cost below the limit |
| TurnLoop.Run.TakeTurn | agent/loop.go:108-308 | one admitted turn records the assistant message and its results and both charges, or ends the run with exactly the part it got to |
| TurnLoop.Run.AskModel | agent/loop.go:165-196 | which attempt makes the message, under which model, and every request that reaches the provider, the fallback from an empty message and with the same history, none for an attempt whose context has ended as it starts |
| TurnLoop.Run.UseAnswer | agent/loop.go:202-308 | charge before admission, one assistant message always, results only after admission, success exactly without tool uses |
| TurnLoop.Run.BuildAPIMessages | agent/loop.go:446-496 | the nested loops build the normalized history |
| TurnLoop.Run.EmitResults | agent/loop.go:280-308 | no error exactly when every result could be emitted |
| TurnLoop.HistoryGrowth | agent/loop.go:80-312 | a success after t turns adds 2t messages, running out of turns 1 + 2 * maxTurns, and the count at every other exit |
| TurnLoop.HistoryIsPaired | agent/loop.go:210-278 | any number of complete turns keeps a paired history paired |
| TurnLoop.PairedAtTheEndExactly | agent/loop.go:211-231 | what a run leaves is paired if and only if it is not the case that its last turn asked for tools and its message could not be emitted or its second admission refused |
| TurnLoop.PairedTailExactly | agent/loop.go:211-231 | a history that ends in an assistant message is paired if and only if the rest is and the message has no tool use |
| TurnLoop.BuiltKeepsPairing | agent/loop.go:446-496 | the request is paired if and only if the history is |
| TurnLoop.NormalizedUses | agent/loop.go:458-468 | the provider sees the same ids and names, and an input that is never nil and otherwise the same |
| TurnLoop.BlockReachesProvider | agent/loop.go:446-496 | text, thinking, tool requests, and results with content and error mark reach the provider as they are, and normalizing again changes nothing |
| TurnLoop.RequestTells | agent/loop.go:248-278 | the request after a complete turn ends in the text of that turn and in one block for each tool request, in order, with the error mark and the content of its answer, or else the error text, or else "(no output)" |
| TurnLoop.PromptReachesProvider | agent/loop.go:446-496 | the request of a fresh run ends in its prompt |
| TurnLoop.RequestsExactly | agent/loop.go:165-196 | a turn asks twice if and only if the main model failed under a live context and there is another model to ask; what is used is the stream of the model asked last |
| TurnLoop.ChargeExactly | agent/loop.go:202-207 | a turn is charged for the usage of that stream, at the price of that model |
| TurnLoop.DenialsExactly | agent/loop.go:241-246 | the denials are those of the results that carry one, all of them and in order |
| TurnLoop.BatchAnswers | tools/executor.go:81-103 | the results of any finished schedule of a batch answer its requests one by one, in order |
| TurnLoop.EveryBatchHasResults | tools/executor.go:81-103 | there are such results for every list of requests |
| Scheduler.MutationBarrier | tools/executor.go:81-108 | in every schedule, if either of two requests is not a parallel read, the earlier one has ended before the later one begins |
| Scheduler.OverlapIsParallel | tools/executor.go:81-108 | requests that overlap, and all between them, were answered parallel |
| Scheduler.BoundedConcurrency | tools/executor.go:110-140 | at most maxConcurrency calls are active at any moment |
| Scheduler.BatchComplete | tools/executor.go:81-182 | when the batch returns every slot holds an answer to its own request, every call ended once and began at most once, and no worker is left |
| Scheduler.NeverBegunIsCancelled | tools/executor.go:110-182 | in every finished schedule a call that never began holds the error of the context as its error, as the error of its result, and as the one text of its result, which is marked as an error |
| Scheduler.BegunIsReturned | tools/executor.go:81-150 | whatever the calls return, and in whatever order, each call that began finds in its own slot what it returned |
| Scheduler.SlotGivenExactly | tools/executor.go:120-139 | a waiting call can take a slot if and only if fewer than maxConcurrency are held |
| Scheduler.WorkerBeginsExactly | tools/executor.go:143-150 | a call that was handed to a worker can begin if and only if the context is live |
| Scheduler.SpawnsExactly | tools/executor.go:133-140 | a call can be handed to a worker if and only if a slot was just taken and the context is live |
| Scheduler.WriteOnce | tools/executor.go:110-166 | no step changes a result that has been written |
| Scheduler.RankDecreases | tools/executor.go:81-154 | every step uses up rank, even when the safety predicate changes its mind |
| Scheduler.SchedulesAreFinite | tools/executor.go:81-154 | so no schedule has more steps than the rank of its first state allows |
| Scheduler.NeverStuck | tools/executor.go:110-154 | before the batch has returned some step is possible: no deadlock between slots, cancellation and join |
| Scheduler.CanFinish | tools/executor.go:81-154 | every schedule can be carried on to the end of its batch |
| ToolCall.RunSingle | tools/executor.go:184-322 | at most one invocation, with an input if and only if policy, hooks and recheck let it through; always an answer with the request's id and name and a result; a denial with the policy's reason exactly when the policy denied; for a call that was made, the result it came to; and for every other call which error it gets: unknown tool, failed permission check, or the reason of the hook, of the recheck or of the context, past the failure hooks |
| ToolCall.RunPermitted | tools/executor.go:243-322 | the part after the policy: the tool is called with an input if and only if hooks and recheck pass it and the context is alive, and otherwise the answer says which of them stopped the call |
| ToolCall.Finish | tools/executor.go:277-322 | what the tool returned becomes an answer with a result that is there: a failure never becomes a success, and the hooks after the call can only hide its content or replace the result by a failure |
| ToolCall.PostPreToolFailure | tools/executor.go:324-338 | a failure before the call becomes an answer with that failure, or with the one that the failure hooks put in its place |
| ToolCall.PreHookIsShown | tools/executor.go:243-247 | a hook before the call is shown the event, the tool, and the input that the policy left in force |
| ToolCall.FailureHookIsShown | tools/executor.go:324-338 | a hook for failures is shown a failure before the call as its text and as its error |
| ToolCall.PostHookIsShown | tools/executor.go:289-315 | a hook after a successful call is shown its text and the input it was made with; if it hides the output, the content goes and nothing else |
| ToolCall.PostFailureHookIsShown | tools/executor.go:289-315 | a hook after a failed call is shown the failure, and cannot turn it into a success |
| ToolCall.AgentAllowsExactly | agent/agent.go:281-311 | the agent's first check lets a tool run with an input if and only if both inputs are permitted, the mode asks the host or the original is preapproved, the permission hooks neither failed nor blocked, and the host, shown the input after them, lets it run |
| ToolCall.HookedHostExactly | agent/agent.go:281-311 | what the host behind its permission hooks lets run, and what a failing or blocking hook answers in its place |
| ToolCall.PermissionHookIsShown | agent/agent.go:281-311 | a permission hook is shown the tool and the input that the host is asked about |
| ToolCall.Mediation | tools/executor.go:184-281 | whatever hooks, host, modes and rules do, even when they change between the checks, the input that reaches the tool is permitted by bounds, deny rules, plan mode and preapproval |
| ToolCall.RunAgentTool | agent/agent.go:281-318 | the same for the agent's executor, with at most one call and an answer |
| ToolCall.ToolResultText | tools/executor.go:353-367 | the text blocks joined, or else the error text |
| Permissions.AllowedExactly | permissions/permissions.go:133-202 | the policy lets a tool run with an input if and only if bounds, deny rules and mode permit the original, the callback's answer and the rewritten input as well, and preapproval stands in where the host is not asked |
| Permissions.RuleMatchesExactly | permissions/permissions.go:284-312 | for every pattern on which the matcher is the usual wildcard: a rule matches if and only if its name is the tool or the MCP server of the tool, and it has no pattern, or the command of Bash, the file path of Edit, Write and Read, or the pattern of Glob and Grep matches; other tools match no pattern |
| Permissions.CommandRefusedExactly | permissions/permissions.go:284-328 | a deny rule on the commands that start with a text refuses exactly those, even with every permission bypassed and no host |
| Permissions.WildcardExactly | permissions/permissions.go:314-328 | the meaning of a star at either end, and of patterns without one there |
| Permissions.RepliesAreNormal | permissions/permissions.go:133-202 | every reply has a decision, allow or deny unless it is an error, and a denial has a reason |
| Permissions.BoundsPolicyExactly | agent/agent.go:313-318 | the recheck allows exactly what bounds, deny rules and mode permit |
| Permissions.DenyRulesOnlyRestrict | permissions/permissions.go:146-152 | further deny rules take away exactly what they match and give nothing |
| Permissions.MissingConfigLeavesBounds | permissions/permissions.go:232-244 | without a configuration and a host, exactly the tools in bounds run, with the input they were given |
| Permissions.FirstRuleFound | permissions/permissions.go:246-253 | a rule is found if and only if one matches, and it is the first in order that does |
| Permissions.WildcardIsGlobExactly | permissions/permissions.go:314-328 | the matcher is the usual wildcard for every value if and only if the pattern has no star, or one star at an end |
| Permissions.WildcardMisses | permissions/permissions.go:314-328 | for every other pattern, a value that matches as a wildcard and is refused |
| Permissions.SurvivingExactly | permissions/permissions.go:107-115 | what survives are exactly the rules of tools not named, each as often as it was there, in their order |
| Permissions.Config.SetMode | permissions/permissions.go:29-33 | the policy reads the new mode next, with the same rules |
| Permissions.Config.AddRules | permissions/permissions.go:43-52 | the named list grows at its end, the other list stays, and what the policy reads next has these lists and the same mode |
| Permissions.Config.RemoveRules | permissions/permissions.go:55-68 | the named list loses the rules of the named tools, the other stays, and so the policy reads them |
| Permissions.Config.ReplaceRules | permissions/permissions.go:71-80 | the named list is replaced by a copy, the other stays, and so the policy reads them |
| Hooks.RunHooks | hooks/hooks.go:220-272 | the nested loops with early exits compute the reference result over all answers in firing order |
| Hooks.RunRule | hooks/hooks.go:226-262 | one rule runs its hooks in order up to the first error or block, and no further |
| Hooks.NotBlockedExactly | hooks/hooks.go:220-272 | not failed and not blocked if and only if no hook failed or blocked |
| Hooks.FirstLoudAnswer | hooks/hooks.go:226-262 | the first answer that is an error, a message, or a "block" decides the run, under its own error, message or reason |
| Hooks.FiringOrder | hooks/hooks.go:220-262 | hooks answer rule by rule, without the rules that do not match, legacy hooks before rich ones |
| Hooks.RewriteSurvivesExactly | hooks/hooks.go:247-262 | for every configuration whose run passes: the last rewrite counts if and only if no hook after it answers with an output, and otherwise there is none |
| Hooks.NoRewriteWithoutHook | hooks/hooks.go:247-262 | without a hook that sets one there is no rewrite |
| Hooks.LaterOutputDropsRewrite | hooks/hooks.go:247-262 | two hooks of one rule, the first rewriting and the second approving: the rewrite is lost, and with the first alone it is not |
| ToolBounds.IntersectToolBounds | agent/agent.go:727-746 | no bound on either side leaves the other; two bounds keep the parent's entries that the child names too, in the parent's order |
| ToolBounds.UnionToolBounds | agent/agent.go:748-765 | both lists in order, every name once, nil only for nil and nil |
| ToolBounds.FilterTools | permissions/permissions.go:206-222 | the visible tools are those inside the allow bound and outside the denied names, in order |
| ToolBounds.ChainExactly | agent/agent.go:543-544 | at any depth the allowed names are the intersection of all ancestors' bounds and the denied names their union |
| ToolBounds.ChildExactly | agent/agent.go:543-544 | one spawn: allowed by parent and spawn, denied by either |
| ToolBounds.DescendantsSeeLess | permissions/permissions.go:206-222 | a tool hidden by any ancestor's filter is hidden from every descendant, whatever the registry |
| ToolBounds.DistinctHasNoRepeats | agent/agent.go:748-765 | the union has no repeated name |
| ToolBounds.KeepPlaces | agent/agent.go:727-746 | what two allow bounds share stands in the order of the parent's list |
| ToolBounds.DistinctPrefix | agent/agent.go:748-765 | a union starts with the parent's names, each once |
| Accounting.CostIsLinear | costtracker/tracker.go:244-257 | the cost of a sum of usages is the sum of the costs |
| Accounting.CostInCents | costtracker/tracker.go:50-58 | what each kind of token costs for each model, in whole cents for a million; a model that is not listed costs what sonnet-4-6 costs |
| Accounting.Ledger.Add | costtracker/ledger.go:30-41 | the total, the model's entry and the cost grow, other models stay, and the total remains the sum over the models |
| Accounting.Ledger.Snapshot | costtracker/ledger.go:44-55 | the copying loop returns exactly cost, total and per-model usage |
| Accounting.Tracker.AddUsage | costtracker/tracker.go:61-86 | the model's entry grows by the usage, the total by its cost, and the total remains the cost of the entries |
| Accounting.Tracker.AllModelUsage | costtracker/tracker.go:107-116 | the copying loop returns every entry |
| Accounting.MergeChild | agent/agent.go:571-582 | merging a finished child adds its usage model by model, and its whole cost, to the parent's tracker |
| Accounting.RootRun | agent/agent.go:511-588 | for every finite tree of subagents the growth of the root session's tracker equals the run's ledger, per model in all four counts and in cost |
| AgentTree.TrackerEqualsLedger | agent/agent.go:511-588 | the same for every interleaving of charges, spawns, returns and merges of a tree of any shape, whatever the session's tracker held before the run |
| AgentTree.KeepsConserved | agent/loop.go:202-207 | at every moment the ledger and what the session held before are the sum of what all trackers hold and what is on its way to them |
| Budget.OvershootBound | agent/run.go:272-280 | with at most N turns in flight and charges up to c, every interleaving ends below limit + N * c |
| Budget.OvershootByOption | agent/run.go:262-280 | so both a positive budget and, without one, a positive compatibility field bound the cost |
| Budget.RefusedExactly | agent/run.go:262-280 | a turn is refused if and only if its context has ended or the limit in force is reached, and the refusal names the cause |
| Budget.OvershootIsTight | agent/run.go:272-280 | interleavings come as close to that bound as one likes, for every limit, charge and N |
| Budget.NoAdmissionAfterLimit | agent/run.go:272-280 | once the cost has reached the limit no turn is admitted |
| Budget.ZeroBudgetRunsNothing | agent/run.go:262-280 | a configured budget of zero admits nothing at all |
| Budget.ZeroBudget | agent/run.go:262-270 | a zero budget is a limit, a zero in the compatibility field is none |
| McpConnection.OwnReplyExactly | mcp/client.go:435-481 | for any server, whatever is cancelled, closed or fails: a caller gets the reply to its own request if and only if the server has sent nothing of its own up to that line |
| McpConnection.NoCrossWiring | mcp/client.go:435-481 | so with a server that answers each request once, in order, and sends nothing else, whoever gets a reply gets its own |
| McpConnection.GateFreeMeansBalanced | mcp/client.go:363-433 | in every execution, whenever the gate is free: requests written are replies read plus failed reads, so they equal the replies read if and only if no read has failed; ids on the wire differ |
| McpConnection.FailedReadLosesBalance | mcp/client.go:447-471 | an execution in which the gate is free on an open connection and a request was written whose reply was never read |
| McpConnection.ClosedForGood | mcp/client.go:276-299 | for any server: after closeAndWait has returned no request is active or ever becomes so |
| McpConnection.CancelPoisons | mcp/client.go:363-372 | once a request is cancelled during its exchange, or sees the connection closed: the connection is closing, no request is admitted any more, nothing but the id of that request can still reach the wire and that once at most, and it gets no reply |
| McpConnection.ExchangeEndsExactly | mcp/client.go:447-481 | an exchange can end with a line if and only if its worker has read that line, and with an error if and only if its worker is done |
| McpConnection.ChattyServerCrossWires | mcp/client.go:435-481 | a server with one line of its own: the second caller is given the reply to the first |
| Clone.CloneCollection | agent/session.go:290-321 | for every finite nesting of maps and slices the copy looks the same, and all its objects are new |
| Clone.CloneBlocks | agent/session.go:269-286 | the same for content blocks with nested blocks, inputs and sources |
| Clone.CloneMessages | agent/session.go:254-268 | the same for messages with their blocks and usage |
| Clone.Widen | agent/session.go:290-321 | what a value looks like does not depend on the footprint or depth it is viewed in |
| Clone.Session.constructor | agent/session.go:52-58 | a session's initial history equals the caller's and shares nothing with it |
| Clone.Session.GetMessages | agent/session.go:185-189 | the caller's copy equals the history and is all new |
| Clone.Session.AppendMessage | agent/session.go:191-195 | the history grows by what the message looked like, and takes over no object of the caller |
| Clone.Session.Clear | agent/session.go:199-208 | empties an idle history and leaves a busy one alone |
| Clone.Session.Fork | agent/session.go:212-224 | refused exactly for a closed session, a given history, or when NewSession refuses; otherwise the branch has an equal history and none of this session's objects |
| Clone.SnapshotUnharmed | agent/session.go:185-189 | the messages are taken and everything handed out is overwritten: the history and the next snapshot are what they were |
| Clone.RecordAndEmit | agent/loop.go:210-219 | the recorded, the emitted and the original message look the same and share nothing |
| Clone.EventUnharmed | agent/run.go:109-121 | the consumer overwrites the whole event: the history, the original message with its tool inputs, and the next snapshot are what they were |
| Clone.ToolInputOwned | agent/loop.go:210-239 | a tool overwrites its inputs: history and event do not change |
| Clone.NextWaiterUnharmed | agent/run.go:75-83 | the first caller of Wait overwrites everything it got, and the second still gets the messages of the run |
| Clone.ResultUnharmed | agent/run.go:145-167 | the same from the session on, whose history does not change either |
| LineDiff.Hunks | tools/diff/diff.go:10-75 | the loop terminates; deleting what is recorded as removed from the old text and as added from the new leaves the same lines; no hunks if and only if the texts are equal; each hunk starts in the new text where it starts in the old one, moved by what the hunks before it added and removed, and goes on exactly to the first context line after a change that is its third line or later |
| LineDiff.FindNextMatch | tools/diff/diff.go:127-150 | the nearest match in search order within the window, or else one line further in each text; always progress |
| LineDiff.HasChanges | tools/diff/diff.go:118-125 | true if and only if some line is an addition or a removal |
| LineDiff.CountsBalance | tools/diff/diff.go:10-75 | additions minus removals is the difference of the line counts |
| LineDiff.KeepLine | tools/diff/diff.go:22-37 | an equal line advances both texts, is recorded only after a change, and ends the hunk from its third line on |
| LineDiff.LeadingContext | tools/diff/diff.go:39-53 | a hunk opens with up to three old lines, and starts in the new text where it starts in the old one, moved by what was added and removed before it, and at 1 at least |
| Patch.UnifiedDiff | tools/diff/diff.go:10-104 | the rendered patch of hunks that are a genuine edit, and empty if and only if the contents are equal |
| Patch.WriteHunk | tools/diff/diff.go:81-101 | header and lines of a hunk, with both sides counted |
| Patch.HeaderReads | tools/diff/diff.go:83-97 | the header of a hunk reads back as four numbers: where each side starts, and all its lines but the added, or but the removed ones |
| Patch.DecimalReads | tools/diff/diff.go:97 | numbers are written so that reading the digits gives the number, without leading zeros |
| Patch.CountChanges | tools/diff/diff.go:153-163 | the counting loop against its specification |
| Patch.CountedExactly | tools/diff/diff.go:153-163 | what the counter reports for a rendered patch, for every file name and every list of hunks |
| Patch.CountChangesExact | tools/diff/diff.go:153-163 | the counter reports the recorded number if and only if masked lines and file-name lines cancel |
| Patch.PlusPlusLineIsNotCounted | tools/diff/diff.go:153-163 | an added line that is reported as none, however the diff cuts its hunks |
| Patch.DiffAndCount | tools/diff/diff.go:10-163 | diff and counter together |
| FileEdit.Edit | tools/fileedit.go:119-157 | each error of the matching exactly on its own trigger, and the written content and the number of replacements otherwise |
| FileEdit.QuotesExactly | tools/fileedit.go:203-214 | which characters the comparison after a failed match takes for which |
| FileEdit.RewritesEndingsExactly | tools/fileedit.go:193-201 | line endings are rewritten if and only if more line feeds of the file follow a carriage return than do not, and none of the new text does |
| FileEdit.LineEndingRewrite | tools/fileedit.go:151-156 | the two greedy passes are, for every string, the one-pass rewrite that puts a carriage return before every line feed that lacks one |
| FileEdit.RewriteIsNormalForm | tools/fileedit.go:151-156 | no lone line feed remains, exactly the clean texts are left alone, and a second rewrite changes nothing |
| FileEdit.RewriteKeepsText | tools/fileedit.go:151-156 | line endings are all that changes |
| FileEdit.WrittenInPieces | tools/fileedit.go:144-157 | the gaps between the matches with the old text between them are the content; the gaps as they come out, with the new text as it comes out, are the written text |
| FileEdit.EditTouchesOnlyMatches | tools/fileedit.go:144-157 | every gap comes out unchanged if and only if the rewrite is skipped or no gap, in its place, has a lone line feed |
| FileEdit.CleanFileStaysClean | tools/fileedit.go:144-157 | in a file without lone line feeds every gap comes out unchanged, whatever the new text, if the old text does not end in a carriage return |
| FileEdit.OnePassPieces | tools/fileedit.go:151-156 | the rewrite works piece by piece, each piece knowing only whether a carriage return precedes it |
| FileEdit.ReplaceWeaves | tools/fileedit.go:144-150 | replacing keeps the gaps between the greedy matches and puts the new text between them |
| FileEdit.MixedFileLosesItsLoneLF | tools/fileedit.go:151-156 | a file whose second gap does not come out unchanged |
| Text.ReplacementLength | tools/fileedit.go:144-150 | every counted occurrence, and nothing else, contributes to the length of the result |
| Text.UniqueReplacement | tools/fileedit.go:136-150 | with a single occurrence, replacing one and replacing all agree |
| Text.SplitInjective | tools/diff/diff.go:10-16 | two texts have the same lines if and only if they are equal |

## Left out

- Guarantees.ShutdownComplete: assumes, for its second clause, that no SessionStart hook had failed before the call; `Guarantees.FailedStartEscapesClose` shows that it must.
- Shutdown.CloseCanReturn: the way to the return is one on which hooks return, runs end and a Start that holds the session lock goes on. Agent.Close then also waits for a running initialisation and closes the MCP clients, which is not part of the lifecycle model.
- McpConnection.OwnReplyExactly: the server answers the requests in the order of the wire; once a write has failed no later write succeeds, and once a read has failed no later read.
- ReadStream.NilMeansComplete: like the other results about the reader, assumes a producer that publishes its error before it closes the events, as the Anthropic streaming client does.
- Assembly.SideListIsExtraction: assumes distinct tool ids; for repeated ids `Assembly.StopKeepsExtractionExactly` gives the exact condition. Block indices are natural numbers; a negative index makes the source panic.
- TurnLoop.Run.RunLoop: starts at the prompt. The ways out before it, on an ended context or a failing or blocking UserPromptSubmit hook, append nothing, and that hook may have rewritten the prompt. The cost is this run's own reading of the ledger at admission. Runs that share the ledger may charge it between that check and the request, so the shared cost can have passed the limit by then; `Budget.OvershootBound` covers them all. The batch of tools, the stream and the emission of events enter as their outcomes, each of which has a module of its own; pairing is claimed within one run, from a paired history.
- Guarantees.QuietAfterShutdown: a session is identified by itself, not by its string ID, so the duplicate-ID error of newSession is not modelled; options that fail validation and a context that has ended before Start are not either.
- Clone.Session.Fork: whether NewSession refuses, on a closed agent or a taken ID, is a parameter.
- Clone.ToolInputOwned: assumes that the assembled message shares nothing with the session's history beforehand.
- FileEdit.Edit: the errors that come before the matching, about the path, the file and its staleness, are not modelled.
- Clone.CloneCollection: map keys are strings, Go's static types of maps and slices are not modelled, and a nil list of messages is not told apart from an empty one.
- Ledger and tracker costs are real numbers: floating-point rounding is not modelled.
- Strings are sequences of characters, not of bytes; the modelled code compares and cuts only at ASCII characters.
- A hook's matcher, in the source a list of names and wildcards separated by bars, is an arbitrary predicate on tool names; hook timeouts and the text of wrapped errors are not modelled.
- In-place mutation of an input map by a hook, a host callback or a tool, and registry changes during a batch.
- Real I/O: HTTP, server-sent events, subprocesses, JSON encoding and decoding, the file system, clocks and identifiers. The JSON parser is an arbitrary partial function.
- The OpenAI streaming adapter, which sends every delta under index 0.
- That a patch applies: leading context may repeat lines of the previous hunk. Only removed and added lines are claimed.
- Liveness that depends on providers, tools or hooks honouring their contexts.
- The result subtype and error list of a run, code-change and duration counters, and the cloning of error texts, denials and per-model usage, which copy flat values.
- The stores for todos, teams, schedules, mailboxes, configuration, worktrees and checkpoints, sandboxing, plugins and rate limits: they would add only easy members.

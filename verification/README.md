# Verified model of IaC Studio's tool-execution core

This project models how IaC Studio lets an agent run external tools, and proves what the design promises about it.
Everything is Dafny 4.11; `dafny verify dfyconfig.toml` checks the whole project.

The repository is written in Go. Code that only computes is modelled by functions; objects that change their fields
under a mutex are classes whose methods are proved equal to those functions; and where several callers interleave, the
same functions are the steps of a state machine. A *run* of a machine is any sequence of actions, so a theorem about all
sequences is a theorem about all interleavings of any number of callers, crashes and failures included.

## What is modelled

**Approval-gated tool execution.** `AgentRuns` and `AgentRunStore` are the run store: runs, single-use approval gates
and an audit log, bounded by eviction. `Routing` is the policy decision, `ApprovalBinding` and `Framing` the keyed
binding of an approval to one exact operation. `ToolExecution` is the protocol of concurrent executions over that store
with a program counter per caller; `ToolExecutionSafety` is its inductive invariant, `ToolExecutionTheorems` the results
about every run, `ToolExecutionOutcomes` what the trace holds for each outcome a caller is told. `Executor` is the
straight-line code, proved to do what the protocol's steps do when nothing interferes; `ExecutorTheorems` says what that
is: what each decision leaves on its run, exactly when the tool is called, and exactly what the caller is told.

`RunEffects` and `RoutingAnswers` write out what the run store's calls and the decisions come to, value by value: the
status, the gate, the entry and the error of every call; modes, risks, reasons and approval kinds as tables.

**Retries.** `Attempts` is the idempotency table on top (coalescing, bounded replay, release after an approval-required
outcome, panics). `AttemptsSafety` holds the table's invariant, `AttemptsTheorems` single flight and replay agreement,
`AttemptsRequests` what every request is answered, read off the trace, and `AttemptStore` the table as shared mutable
records.

`RetriedExecution` puts the two together as the API does: the callback of an attempt is one guarded execution.
`RetriedExecutionTheorems` proves over all interleavings of both what separates two invocations under one key,
`RetriedOutcomes` what a retry is told and exactly when it executes the operation again.

**External servers.** `Lifecycle`, `LifecycleSafety`, `LifecycleTheorems`, `LifecycleVetting` and `LifecycleTwice` are
starting, stopping and reaping processes with the launch and the stop outside the lock; `LifecycleAnswers` is what each
locked section answers, `LifecycleStore` the sections themselves. `Firewall`, `Allowlists`, `AllowlistEditor` and
`InventoryStore` are tool discovery, the allowlist and the two-sighting rule; `FirewallHistory` reads the inventory off
the discoveries and edits that made it; `TrustedTools` is the authorizer asking that firewall. `RpcSession` is the
bounded JSON-RPC reader,
`Utf8` the two truncations, `PatchPaths` the check of a proposed path.

**Durable state.** `PolicyFile`, `PolicyProcesses` and `PolicyStore` are the policy file shared by processes;
`SecretMigration`, `SecretLoads` and `SecretManager` the migration of locally stored connection secrets; `PlanGate`,
`PlanGateSafety`, `PlanGateAnswers` and `PlanGateStore` the consumable plan of a directory. `Blast` and `BlastAnalyzer`
are the two-level graph walk.

`Text` and `Wrappers` hold Go's string operations and the failure values, `Traces` what it means that every event of a
trace obeys a law about the events before it.

## What the proofs found

Where a promise does not hold for all inputs the model keeps the code, and the exact condition is proved.

- `SetStatus` can leave a live run waiting with nothing pending, or not waiting with a gate pending. Every other call
  keeps "waiting exactly while pending"; `SetStatus` keeps it exactly when it ends the run or names the status its gates
  call for. Over histories: all stored runs wait as they should after every call exactly when every `SetStatus` did.
- The two truncations agree on every valid UTF-8 text, and in general exactly when the scanned prefix is valid.
- A server id is looked up trimmed, but the lifecycle maps are keyed by the caller's spelling, and the HTTP handler
  passes the path value on as it is. At most one live process per server, among those that `Start` launched, holds for
  ids spelled without outer white space; every other spelling lets a second process of the same server run beside the
  first.
- The default launcher ignores the result of its own stop when the caller's context ends, so it can report a failure
  for a process that lives on. The same bound holds when no launch does that; for every known id a run in which one
  launch does it once ends with that server running twice.
- Both bounds, and the vetting of launches, are about the launcher that `Start` calls. `DiscoverTools`
  (internal/mcpairlock/tools.go:126-152) and the health probe (internal/mcpairlock/registry.go:200-245) run the same
  command outside the lifecycle maps and whatever the attestation verdict says.
- The secret migration settles in one step exactly when every connection with non-blank secrets has a non-blank id and
  a non-blank secret that its auth method names. For any other file it reports, and writes, a migration on every later
  load: the store name is set by the write and taken back by the next load.
- A discovery that cannot read the inventory starts over and, once saved, forgets every other server and the persisted
  allowlist. Discoveries and allowlist edits lose nothing as long as that does not happen.
- Four entries of the field-name table of the blast analyzer can never apply, because their names lack the three
  endings the caller checks first.

## Modelling notes

- Strings are sequences of Unicode scalar values; strings that are not valid UTF-8 occur only as bytes, in `Utf8`.
- HMAC-SHA-256, SHA-256 and AES-GCM are ideal: a digest or an envelope is the term of its inputs. Framing, lengths and
  byte order are modelled in full, lengths up to 2^64 - 1.
- The run counter is 64 bits wide in the source; theorems over runs of the store assume fewer than 2^64 creations.
- A callback, a tool, a launcher, a process, an evaluator, a clock, a random nonce and every I/O error is an arbitrary
  choice of the environment at each step.
- A `*Run` that the Go code changes under the lock is the entry of the `runs` map here.
- In the tool-execution protocol an invocation is at most once per approval, not exactly once: a spent gate may be
  followed by a failed re-check. The run may change between the re-check and the invocation; safety is stated at the
  re-check.

## Model

| member | source | states |
|---|---|---|
| AgentRuns.LifecycleInvariant | internal/agentruns/store.go:249-290 | Over every sequence of store calls: terminal exactly with a completion time, canceled flag exactly with canceled status, a rejected gate only in a failed run, a decision time exactly on decided gates, and the store holds exactly the last maxRuns created runs, in order, without duplicates |
| AgentRuns.RunsOnlyEvolve | internal/agentruns/store.go:606-627 | Over every sequence of calls a stored run only evolves: terminal runs never change, gates are decided once, cleared bindings never return, logs and patches only grow; an id handed out and evicted never names a run again |
| AgentRuns.MutateKeeps | internal/agentruns/store.go:329-525 | Every successful operation starts from a live run and leaves a lawful, evolved one |
| AgentRuns.UpdateTouchesOneRun | internal/agentruns/store.go:606-619 | A failed call changes nothing; a successful one changes exactly the named, live run |
| AgentRuns.CreateKeeps | internal/agentruns/store.go:249-290 | Creation keeps the store's laws, evicts oldest first and never reuses an id |
| AgentRuns.OneEvictionSuffices | internal/agentruns/store.go:621-627 | The eviction loop removes at most the single oldest run |
| AgentRuns.WaitingMeansPending | internal/agentruns/store.go:351-525 | Every operation but SetStatus keeps a live run waiting exactly while a gate is pending |
| AgentRuns.SetStatusKeepsWaitingExactlyWhen | internal/agentruns/store.go:329-349 | SetStatus keeps that exactly when it ends the run or names the status the gates call for |
| AgentRuns.SetStatusCanBreakWaiting | internal/agentruns/store.go:329-349 | A concrete call that breaks it |
| AgentRuns.RunsWaitWhilePendingExactlyWhen | internal/agentruns/store.go:329-525 | Over every sequence of calls, all stored runs wait exactly while a gate of theirs is pending after each call, if and only if every status that was set ended its run or was the one its gates called for at that moment |
| AgentRuns.RunIdInjective | internal/agentruns/store.go:261-290 | Ids printed from different counters differ |
| RunEffects.CallsDoWhatTheySay | internal/agentruns/store.go:329-525 | Every successful call, value by value: a failure leaves the run Failed with the cut message, its completion time and one audit entry; a cancellation leaves it Canceled and flagged; a status call leaves the named status; an approval request opens one pending gate and makes the run wait; the approval of the last pending gate leaves it Running with a start time; a rejection leaves it Failed with its error; a consumption clears one binding; everything else stays |
| RunEffects.CallsAreRefusedExactlyWhen | internal/agentruns/store.go:329-525 | Each error of each call, and exactly the input or the state of the run it stands for |
| RunEffects.CreateDoesWhatItSays | internal/agentruns/store.go:249-290 | A creation succeeds exactly with a project, a prompt and a known or absent mode, and the new run has exactly the trimmed and cut fields, Queued and empty |
| AgentRunStore.RunStore.Create | internal/agentruns/store.go:249-290 | The locked section validates, counts, inserts and evicts as specified; errors change nothing |
| AgentRunStore.RunStore.SetStatus | internal/agentruns/store.go:329-349 | The new state and result are those of the specified status change |
| AgentRunStore.RunStore.Cancel | internal/agentruns/store.go:351-364 | The new state and result are those of the specified cancellation |
| AgentRunStore.RunStore.Fail | internal/agentruns/store.go:366-384 | The new state and result are those of the specified failure; what that leaves on the run is RunEffects.CallsDoWhatTheySay |
| AgentRunStore.RunStore.AddLog | internal/agentruns/store.go:424-438 | The new state and result are those of the specified log entry, refused on pending approvals when asked to |
| AgentRunStore.RunStore.ConsumeApprovalBinding | internal/agentruns/store.go:400-422 | Spends exactly the first gate of that id, once, with its audit entry, or changes nothing |
| AgentRunStore.RunStore.AddPatch | internal/agentruns/store.go:440-457 | The new state and result are those of the specified patch, under its cleaned path; an unsafe path is an error and changes nothing |
| PatchPaths.AcceptedPathsStayInside | internal/agentruns/store.go:582-600 | An accepted patch path is relative and has no empty, dot or parent segment: exactly the named segments of the trimmed input, in order |
| PatchPaths.AcceptedExactlyWhenSafe | internal/agentruns/store.go:582-600 | A path is required, and accepted exactly if its trimmed form has no backslash, drive prefix or leading slash, no parent segment between its slashes, and some segment that is not empty or a dot |
| Text.TrimSpaceDropsTheEnds | internal/agentruns/store.go:582-586 | Trimming drops white space at the two ends and nothing else |
| AgentRunStore.RunStore.AddApproval | internal/agentruns/store.go:459-482 | The new state and result are those of the specified pending gate |
| AgentRunStore.RunStore.DecideApproval | internal/agentruns/store.go:484-525 | The new state and result are those of the specified decision, including failing the run on rejection |
| AgentRunStore.RunStore.EvictLocked | internal/agentruns/store.go:621-627 | The loop evicts oldest first until the limit holds |
| Utf8.DecodeUndoesEncode | internal/agentruns/store.go:746-761 | Encoding yields valid UTF-8 that decodes back (sections 3 and 4 of RFC 3629) |
| Utf8.EncodeUndoesDecode | internal/agentruns/store.go:746-761 | Every valid byte sequence is the encoding of its decoding |
| Utf8.SafePrefixLength | internal/agentruns/store.go:746-761 | The rune-start scan returns the last rune boundary within the limit |
| Utf8.Truncate | internal/agentruns/store.go:736-744 | The run store's truncation, dots included |
| Utf8.TruncateBounds | internal/agentruns/store.go:736-744 | It never exceeds a positive limit, keeps valid text valid and short text unchanged |
| Utf8.TruncateKeepsTheMost | internal/agentruns/store.go:736-744 | Cut valid text keeps the longest prefix of whole characters that leaves room for the dots |
| Utf8.TruncateRefinesText | internal/agentruns/store.go:736-744 | On encoded text it is truncation by whole characters |
| Utf8.BackOff | internal/mcpairlock/tool_call.go:231-240 | The back-off loop returns the longest valid prefix within the limit |
| Utf8.TruncationsAgreeExactlyWhen | internal/mcpairlock/tool_call.go:231-240 | The longest valid prefix is the scanned prefix exactly when the scanned prefix is valid |
| Utf8.TruncationsAgreeOnValid | internal/mcpairlock/tool_call.go:231-240 | On valid text both truncations agree and the back-off takes at most three steps |
| Utf8.TruncationsDifferOnMalformed | internal/agentruns/store.go:746-761 | A malformed input on which they differ |
| Framing.FrameInjective | internal/agentrouting/approval_binding.go:105-110 | Equal length-prefixed framings come from equal field lists, big-endian arithmetic included, for all field lengths below 2^64 |
| Framing.FrameLayout | internal/agentrouting/approval_binding.go:105-110 | Each field stands behind its length in eight big-endian bytes, and the next one follows |
| Framing.FrameNotInjectiveBeyondBound | internal/agentrouting/approval_binding.go:105-110 | The bound is needed: a field of 2^64 bytes collides with its own content |
| Framing.BigEndianRoundTrip | internal/agentrouting/approval_binding.go:105-110 | Big-endian digits give the number back within their width |
| Framing.WriteFields | internal/agentrouting/approval_binding.go:51-66 | The loop over the fields writes the prefix and the framing |
| ApprovalBinding.NewToolApprovalBinding | internal/agentrouting/approval_binding.go:30-67 | A binding is made exactly for a long enough key and a valid run id, request and call |
| ApprovalBinding.Matches | internal/agentrouting/approval_binding.go:89-103 | A gate's binding matches an operation exactly if it is the binding of that operation under this key |
| ApprovalBinding.BindingInjective | internal/agentrouting/approval_binding.go:30-67 | Equal bindings mean the same key and all nine fields equal |
| ApprovalBinding.RetryFingerprintInjective | internal/api/agent_tool_execution_idempotency.go:225-259 | Equal retry fingerprints mean equal requests and arguments up to the server-resolved risk |
| Routing.FirstMatchIsFirst | internal/agentrouting/policy.go:170-177 | The match is the first matching rule, and there is none exactly when no rule matches |
| Routing.AllowedExactlyWhen | internal/agentrouting/authorizer.go:55-98 | For any evaluator answer, allowed exactly when an allow rule without approval is first to match and the firewall says allowed about this tool; then the risk is read-only |
| Routing.ApprovalExactlyWhen | internal/agentrouting/decision.go:117-138 | Approval is asked for exactly when an allow rule decides and the firewall or the rule wants approval, of a request that passes the preflight; which modes pass with which risks is RoutingAnswers.ModesBoundRisks |
| Routing.AuthorizeShape | internal/agentrouting/authorizer.go:55-98 | Every decision is consistent and the preflight reasons mean what they say |
| Routing.RecorderAcceptsAuthorize | internal/agentrouting/run_recorder.go:117-187 | On a valid request every authorizer decision passes the recorder's checks and its approval kind exists |
| Routing.AuthorizeIsEvaluate | internal/agentrouting/decision.go:99-138 | With an entry that names the tool and agrees on its risk the live authorization equals the pure evaluation |
| Routing.RecordCheckIsSound | internal/agentrouting/run_recorder.go:117-187 | Whatever passes the recorder's checks is a valid decision, allowed only for read-only risk |
| RoutingAnswers.ModesBoundRisks | internal/agentrouting/decision.go:140-161 | Whatever policy and firewall say: a decision that is not a denial has, in read-only mode, read-only risk, in propose-only mode read-only or generate-code risk, and in no mode unknown risk; mode_risk_mismatch is the reason exactly for valid requests outside that table |
| RoutingAnswers.RecorderBoundsRisks | internal/agentrouting/run_recorder.go:117-187 | What passes the recorder keeps to the same table, whoever decided |
| RoutingAnswers.RecorderAcceptsExactlyWhen | internal/agentrouting/run_recorder.go:117-187 | Exactly which decisions the recorder lets through for which requests |
| RoutingAnswers.RecorderRefusesWith | internal/agentrouting/run_recorder.go:117-160 | Whether the recorder objects to the run id, the request or the decision, and exactly when |
| RoutingAnswers.DecisionShapes | internal/agentrouting/decision.go:54-97 | The three shapes of a consistent decision, flags and reasons written out |
| RoutingAnswers.InvalidExactlyWhenNotWellPut | internal/agentrouting/policy.go:66-83 | A request is invalid exactly if a name is missing or padded, or mode or risk is unknown |
| RoutingAnswers.PolicyIsValidExactlyWhenSound | internal/agentrouting/policy.go:85-161 | A policy is valid exactly if each rule is complete and a plain denial, an allowance of reading, or an allowance of another known risk that asks for approval |
| RoutingAnswers.PolicyReasons | internal/agentrouting/authorizer.go:55-98 | Each reason that does not ask the firewall, and exactly when it is given |
| RoutingAnswers.FirewallReasons | internal/agentrouting/authorizer.go:55-98 | Each reason that comes from the firewall where an allow rule decides, and exactly when it is given |
| RoutingAnswers.OnlyItsOwnRuleAdmits | internal/agentrouting/policy.go:131-177 | Only a rule about exactly this request admits it, and only if no earlier one denies it |
| RoutingAnswers.KindsAreTabled | internal/agentrouting/run_recorder.go:200-215 | The approval kind of every risk, and none for the others |
| ToolExecutionTheorems.AtMostOncePerApproval | internal/agentrouting/executor.go:66-136 | In every interleaving the invocations of one exact operation that needed approval are at most as many as the approvals of gates bound to exactly that operation |
| ToolExecutionTheorems.GatesAreNotShared | internal/agentrouting/run_recorder.go:75-115 | Two invocations never rest on one gate |
| ToolExecutionTheorems.ApprovedInvocationHistory | internal/agentrouting/router.go:77-123 | An approval-backed invocation is preceded, in order, by creation, approval and consumption of one gate by its own caller, all under the binding of exactly its operation |
| ToolExecutionTheorems.ApprovalsAreOfOneOperation | internal/agentrouting/approval_binding.go:89-103 | The binding an invocation used is that of a call exactly when it is that call |
| ToolExecutionTheorems.EveryInvocationIsAudited | internal/agentrouting/executor.go:104-123 | Every invocation has its own earlier audit entry and an earlier re-check that saw its run active before it ended; anything but read-only risk went through a gate |
| ToolExecutionTheorems.RunIdsAreNeverReused | internal/agentruns/store.go:265-290 | No run id is created twice, evictions or not, and no caller invokes twice |
| ToolExecutionTheorems.Reachable | internal/agentrouting/executor.go:66-136 | The inductive invariant holds after every sequence of actions |
| ToolExecutionOutcomes.OutcomesHaveHappened | internal/agentrouting/executor.go:66-136 | In every interleaving what a caller is told has happened: a denial only after its run ended, an approval still missing only after a gate was created on its run under its own binding, an execution only after its own invocation |
| ToolExecutionSafety.ThreadStepKeeps | internal/agentrouting/run_recorder.go:94-115 | Every atomic step of a caller working from a stale copy of its run keeps the invariant |
| ToolExecutionSafety.CommitKeeps | internal/agentruns/store.go:606-619 | Every change of the store by anybody keeps the invariant |
| ToolExecutionSafety.NothingHappensTwice | internal/agentruns/store.go:400-422 | No gate is created, approved or consumed twice in one trace |
| ToolExecutionSafety.GuardStepKeeps | internal/api/agent_tool_executions.go:187-208 | The active-run guard of the API is one more step that keeps the invariant |
| Executor.ToolExecutor.RecordApprovedToolCall | internal/agentrouting/run_recorder.go:75-115 | Spends the first approved gate with exactly this binding, or leaves the store alone; a short key, an invalid operation and a run out of scope are errors |
| Executor.ToolExecutor.RecordDecision | internal/agentrouting/run_recorder.go:117-187 | Applies the one mutation of the decision, or none on any failed check; what each decision leaves on the run is ExecutorTheorems.RecordingsLeave |
| Executor.ToolExecutor.RouteToolCall | internal/agentrouting/router.go:77-123 | Leaves exactly the store and the route of the specified routing: refused, one approval spent, or one decision recorded |
| Executor.RouteStepsAre | internal/agentrouting/router.go:77-123 | Undisturbed, the protocol's routing steps leave exactly that store and that route, and invoke nothing |
| ExecutorTheorems.RecordingsLeave | internal/agentrouting/run_recorder.go:117-187 | A recorded denial leaves the run Failed with a completion time and the denial as its error; a recorded request for approval leaves it waiting with exactly one more gate, pending, of the kind of its risk and under the binding of its operation; a recorded allowance is one audit entry and nothing else; a failed recording changes nothing |
| ExecutorTheorems.RecordsExactlyWhen | internal/agentrouting/run_recorder.go:117-187 | A decision is recorded exactly on a live run in scope, an approval only for a risk that has a kind, an allowance only while nothing waits for approval |
| Executor.ToolExecutor.Execute | internal/agentrouting/executor.go:66-136 | Undisturbed, it does what the protocol's steps do and calls the tool exactly when they invoke, wherever between the steps the context ends |
| ExecutorTheorems.ToolIsCalledExactlyWhen | internal/agentrouting/executor.go:66-136 | Undisturbed, the tool is called exactly if the operation can be bound, its run is active and in scope, and it is allowed outright or approved by a gate of exactly this operation, and the context is open until then |
| ExecutorTheorems.ExecutionReportsExactly | internal/agentrouting/executor.go:66-136 | And it reports success exactly if the tool was called and answered well, and exactly the denial or missing approval that could be recorded |
| ExecutorTheorems.GuardAdmitsExactlyWhen | internal/api/agent_tool_executions.go:187-208 | In any interleaving an execution gets past the guard exactly if its run is there, not canceled, queued or running, and has no pending gate; otherwise it is refused and nothing else changes |
| AttemptsTheorems.TableInvariant | internal/api/agent_tool_execution_idempotency.go:89-167 | In every reachable state completed is duplicate-free and exactly the finished keys, every other entry has exactly one running owner, the entries stay within the limit, and no done channel is closed twice |
| AttemptsTheorems.SingleFlight | internal/api/agent_tool_execution_idempotency.go:89-127 | Between two callbacks of one key the first has ended, and it failed, asked for approval or was evicted in between |
| AttemptsTheorems.DifferentOperationWaitsForTheKey | internal/api/agent_tool_execution_idempotency.go:90-94 | A different operation runs under a key only after an error or an eviction cleared the key |
| AttemptsTheorems.RetainedIsTheLastStart | internal/api/agent_tool_execution_idempotency.go:89-127 | No callback of a key started after the attempt its entry holds |
| AttemptsTheorems.WaitersGetTheOwnersAnswer | internal/api/agent_tool_execution_idempotency.go:211-223 | Every replay is the one answer its owner published, for the same key and fingerprint |
| AttemptsTheorems.SharersAskForTheSameOperation | internal/api/agent_tool_execution_idempotency.go:225-259 | Owner and waiter asked for the same operation, up to the server-resolved risk |
| AttemptsTheorems.EvictionSparesAttemptsInFlight | internal/api/agent_tool_execution_idempotency.go:191-198 | Every attempt of an evicted key had already ended |
| AttemptsRequests.HeldKeyAnswers | internal/api/agent_tool_execution_idempotency.go:89-104 | In every reachable state, read off the trace: a request for a held key whose last attempt is of another operation conflicts; one of the same operation whose last answer was that approval is required starts anew, under a new number, and its caller runs; any other one waits for that very attempt |
| AttemptsRequests.FreeKeyAnswers | internal/api/agent_tool_execution_idempotency.go:117-128 | A request for a key that is not held starts exactly if fewer keys are held than the limit, or else a finished one is, and then the one that finished first is evicted; otherwise there is no capacity |
| AttemptsRequests.KeysAreChecked | internal/api/agent_tool_execution_idempotency.go:62-88 | Exactly the keys of one to 128 printable characters without spaces are accepted |
| AttemptsRequests.UnacceptableIsRefused | internal/api/agent_tool_execution_idempotency.go:62-88 | A bad key, then a bad request, is refused with its own error and changes nothing else |
| AttemptsRequests.JudgesExactly | internal/api/agent_tool_execution_idempotency.go:129-189 | What the owner publishes of each callback: its consistent result, its error, a panic, or that it was inconsistent |
| AttemptsRequests.OwnerIsTold | internal/api/agent_tool_execution_idempotency.go:129-167 | Completing an attempt tells the owner, and the trace, that answer, and frees the key exactly on an error |
| AttemptsRequests.WaiterIsTold | internal/api/agent_tool_execution_idempotency.go:104-116 | A waiter sleeps until its attempt has ended and is then told the one answer the trace shows for it, as a replay |
| AttemptsRequests.WaiterGivesUp | internal/api/agent_tool_execution_idempotency.go:107-115 | A waiter whose context ends is told so, and nobody else notices |
| AttemptsTheorems.StepKeeps | internal/api/agent_tool_execution_idempotency.go:62-170 | Every request, completion, panic, wake-up and give-up keeps table, records, trace and callers in order |
| RetriedExecutionTheorems.InvocationsUnderOneKeyAreSeparated | internal/api/agent_tool_executions.go:61-75 | In every interleaving of retries and executions: between two invocations under one run and idempotency key, with an approval or without, the first attempt failed or its key was evicted |
| RetriedExecutionTheorems.InvocationLiesInItsAttempt | internal/api/agent_tool_execution_idempotency.go:129-170 | An invocation lies between the start and the end of its attempt, and an attempt invokes at most once |
| RetriedExecutionTheorems.ExecutionsAreARun | internal/api/agent_tool_executions.go:61-75 | Seen without the table every run is a run of the execution protocol, so its theorems hold there too |
| RetriedOutcomes.TableIsARun | internal/api/agent_tool_executions.go:61-75 | Seen without the executions every run is a run of the retry table, so its theorems hold there too |
| RetriedOutcomes.CompletionPublishes | internal/api/agent_tool_executions.go:61-75 | An attempt ends only when its execution has, with the recorded decision, the valid result of the tool, or a failure |
| RetriedOutcomes.RetryExecutesExactlyWhen | internal/api/agent_tool_execution_idempotency.go:89-104 | A retry under a held key executes the operation once more exactly if the attempt that holds it was of this operation and had asked for approval |
| RetriedExecutionTheorems.StepKeeps | internal/api/agent_tool_execution_idempotency.go:62-170 | Every step of the table, of an execution and of anyone else keeps the joint invariant |
| AttemptsSafety.OneEvictionMakesRoom | internal/api/agent_tool_execution_idempotency.go:191-198 | Making room takes at most one eviction, of the oldest finished key; there is room unless all keys are in flight |
| AttemptsSafety.BeginKeeps | internal/api/agent_tool_execution_idempotency.go:89-127 | The first locked section keeps the table's invariant in each of its cases |
| AttemptsSafety.FinishKeeps | internal/api/agent_tool_execution_idempotency.go:148-167 | The second locked section keeps it, for success, error and panic |
| AttemptStore.Store.Begin | internal/api/agent_tool_execution_idempotency.go:89-127 | On shared records: conflict, wait, own or full exactly as specified, with the very record to wait for; which it is, read off the trace, are AttemptsRequests.HeldKeyAnswers and FreeKeyAnswers |
| AttemptStore.Store.Finish | internal/api/agent_tool_execution_idempotency.go:130-167 | Publishes the outcome in the shared record and keeps or drops the entry as specified |
| AttemptStore.Store.MakeRoomLocked | internal/api/agent_tool_execution_idempotency.go:191-198 | The eviction loop as specified, and whether there is room |
| AttemptStore.Store.RemoveCompletedKeyLocked | internal/api/agent_tool_execution_idempotency.go:200-209 | The in-place filter drops exactly that key and keeps the order |
| AttemptStore.Entry.ReplayExecution | internal/api/agent_tool_execution_idempotency.go:211-223 | What a waiter reads from the record |
| LifecycleTheorems.OneLivePerServer | internal/mcpairlock/lifecycle.go:63-167 | In every run whose starts spell ids plainly and whose launchers abandon no live process, at most one process per server is alive |
| LifecycleTheorems.OneLivePerId | internal/mcpairlock/lifecycle.go:63-281 | Under one spelling two live processes that no launcher abandoned are the same, in every reachable state |
| LifecycleTwice.OtherSpellingsRunTwice | internal/mcpairlock/lifecycle.go:63-110 | Every other spelling of a known id has a run with two live processes of its server on record |
| LifecycleTwice.AbandonedProcessesRunTwice | internal/mcpairlock/lifecycle.go:484-488 | From any well-formed state with an abandoned live process whose id is idle, a start leads to two live processes of its server |
| LifecycleTwice.OneAbandonedLaunchRunsTwice | internal/mcpairlock/lifecycle.go:484-488 | For every known id, some run from the start in which one launch was reported as failed over its live process has that server running twice |
| LifecycleTheorems.MapsAreExclusive | internal/mcpairlock/lifecycle.go:83-109 | starting, running and stopping are pairwise disjoint; a starting or stopping id belongs to exactly one caller |
| LifecycleTheorems.LiveProcessesAreTracked | internal/mcpairlock/lifecycle.go:150-164 | A live process is on record or in the hands of the start that is launching it |
| LifecycleTheorems.FailedStopRestores | internal/mcpairlock/lifecycle.go:367-379 | A failed stop of a live process puts the very same record back and touches no other id |
| LifecycleTheorems.SuccessfulStopMeansExited | internal/mcpairlock/lifecycle.go:412-441 | A stop reported as successful is of a process that has exited |
| LifecycleVetting.LaunchesAreVetted | internal/mcpairlock/lifecycle.go:189-210 | The launcher ran only on a fingerprint the same start saw ready and approved in its preflight and again, still approved, in the re-validation after it |
| LifecycleAnswers.LookReaps | internal/mcpairlock/lifecycle.go:381-392 | Every query of a server whose process has exited moves it to the exits with the time and the reason, and changes nothing else |
| LifecycleAnswers.StartIsAnswered | internal/mcpairlock/lifecycle.go:63-82 | A server that is starting, stopping, or running with a live process is reported as such, with what is on record; any other start goes to the preflight |
| LifecycleAnswers.PreflightReports | internal/mcpairlock/lifecycle.go:189-210 | The preflight reports the fingerprint it saw, and Approved exactly if that is the approved one of the server |
| LifecycleAnswers.ClaimIsAnswered | internal/mcpairlock/lifecycle.go:83-109 | A server is claimed exactly if it is free, ready and approved; every other start is told why and leaves no claim |
| LifecycleAnswers.VerificationIsAnswered | internal/mcpairlock/lifecycle.go:189-210 | A launch goes ahead exactly if the executable is the one of the preflight and approved now |
| LifecycleAnswers.LaunchIsRecorded | internal/mcpairlock/lifecycle.go:150-166 | The claim goes in every case; exactly a launched process goes on record, and its server has no exit any more |
| LifecycleAnswers.StopRefusalsTell | internal/mcpairlock/lifecycle.go:232-255 | Which refusal a stop meets, by the maps |
| LifecycleAnswers.StopIsAnswered | internal/mcpairlock/lifecycle.go:232-255 | A stop takes exactly a live server that nobody is starting or stopping |
| LifecycleAnswers.StopIsSettled | internal/mcpairlock/lifecycle.go:257-281 | A stopped server is left with the exit "stopped by user"; after a failed stop a live one is back on record and an exited one has its own reason |
| LifecycleSafety.StepKeeps | internal/mcpairlock/lifecycle.go:63-281 | Every atomic step keeps the invariant of maps, processes and callers |
| LifecycleStore.Store.ClaimLocked | internal/mcpairlock/lifecycle.go:84-109 | The claiming section reaps, tells starting, running, stopping, unready and unapproved servers apart with the time it reports for them, and claims otherwise |
| LifecycleStore.Store.CommitLocked | internal/mcpairlock/lifecycle.go:151-166 | The committing section drops the claim and records the launched process |
| LifecycleStore.Store.BeginStopLocked | internal/mcpairlock/lifecycle.go:232-255 | The stopping section tells its three refusals apart and otherwise moves exactly the running record |
| LifecycleStore.Store.SettleStopLocked | internal/mcpairlock/lifecycle.go:259-279 | The settling section records the exit or restores the record |
| LifecycleStore.Store.ReapLocked | internal/mcpairlock/lifecycle.go:381-392 | An exited server moves from running to exits, others stay |
| Firewall.AllowedExactlyWhenSeenTwice | internal/mcpairlock/tools.go:164-221 | Over all histories, allowed exactly for a read-only tool whose schema hash matched in the last two consecutive persisted discoveries of its server, whatever the allowlists |
| Firewall.DecisionsAreConsistent | internal/mcpairlock/tools.go:322-378 | Status, the two flags, the repeated risk and the untrusted-output mark of every decision tell one story |
| Firewall.ReportedIsEvaluated | internal/mcpairlock/tools.go:164-221 | What a discovery reports of a tool it saw is what an evaluation outside any project says of it afterwards |
| TrustedTools.AllowedExactlyWhenTrusted | internal/agentrouting/authorizer.go:55-98 | Over every history of the firewall a request is allowed outright exactly when an allow rule without approval decides and the last two persisted discoveries of its server saw its tool with one schema and, by the later, read-only |
| TrustedTools.FirewallAnswersAreValid | internal/agentrouting/authorizer.go:55-98 | No answer of the firewall is ever refused as unavailable, about another tool or inconsistent |
| Firewall.AllowlistingOnlyUnblocks | internal/mcpairlock/tools.go:322-378 | Allowlists decide between blocked and approval, never about allowed |
| Firewall.InterleavingLosesNothing | internal/mcpairlock/tools.go:558-573 | Interleaved discoveries and edits end in the discoveries' inventory with the edits' allowlist, as long as no discovery starts over |
| Firewall.StartingOverForgets | internal/mcpairlock/tools.go:165-169 | A saved discovery after a failed load forgets all other servers and the allowlist, and every tool is new |
| Firewall.InventoryFollowsDiscoveries | internal/mcpairlock/tools.go:173-218 | The persisted records of a server are what its last discovery saw, description included; new, changed or known exactly by the discovery before |
| FirewallHistory.SeenIsTheLast | internal/mcpairlock/tools.go:173-200 | Of several tools with one trimmed name the last one reported is the one seen; a blank name is not seen |
| FirewallHistory.DiscoveryIsRecorded | internal/mcpairlock/tools.go:164-221 | A saved discovery leaves exactly the tools it saw, with its time, and the other servers as they were |
| FirewallHistory.EntryIsTheLastSighting | internal/mcpairlock/tools.go:386-417 | Over every history an evaluated tool is as its server's last discovery saw it, and unknown and not allowed if that did not see it |
| FirewallHistory.LastEditDecides | internal/mcpairlock/tools.go:286-311 | Over every history the persisted allowlist holds an entry exactly if the last saved edit of it, since the inventory last started over, allowed it |
| FirewallHistory.AllowlistedExactlyWhenLastAllowed | internal/mcpairlock/tools.go:380-417 | Over every history a tool counts as allowlisted exactly if it is configured so or the last saved edit of it, for everyone or for this project, allowed it |
| Allowlists.AddedHas | internal/mcpairlock/tools.go:818-838 | Adding adds exactly the trimmed entry; a blank tool adds nothing |
| Allowlists.RemovedHas | internal/mcpairlock/tools.go:840-853 | Removing removes exactly the trimmed entry of that scope |
| AllowlistEditor.Editor.AddAllowlistTool | internal/mcpairlock/tools.go:818-838 | The edit in place is the specified one |
| AllowlistEditor.Editor.RemoveAllowlistTool | internal/mcpairlock/tools.go:840-853 | The edit in place is the specified one |
| AllowlistEditor.Editor.MergeAllowlist | internal/mcpairlock/tools.go:802-816 | For every iteration order the merge holds exactly the old entries and the trimmed ones of the source; a blank project becomes server-wide |
| AllowlistEditor.RemoveString | internal/mcpairlock/tools.go:881-892 | The filter loop keeps all but the trimmed matches, in order |
| InventoryStore.Store.PersistDiscoveredTools | internal/mcpairlock/tools.go:164-221 | One discovery updates the file as specified and reports every tool with its decision; a failed save changes nothing |
| InventoryStore.Store.SetToolAllowlist | internal/mcpairlock/tools.go:286-311 | One edit updates the file as specified and returns the entry that then holds, decision included; a blank name and a failed load or save return none |
| InventoryStore.Store.EvaluateTool | internal/mcpairlock/tools.go:270-282 | The entry of the tool, decision included, from the file and the configured allowlist |
| PolicyProcesses.DurableIsEveryCommitInOrder | internal/agentrouting/policy_store_persistence.go:148-173 | In every reachable state, mid-save and after crashes, a lock-free load gives exactly the commits so far in lock order, all valid |
| PolicyProcesses.FoldIsTheLastCommit | internal/agentrouting/policy_store_persistence.go:164-172 | No update is lost: a scope holds its last commit |
| PolicyProcesses.CommitsAreSerialized | internal/agentrouting/policy_store_persistence.go:154-168 | At most one process holds the lock, and what it is about to write builds on everything committed |
| PolicyProcesses.MemoryIsAPrefix | internal/agentrouting/policy_store.go:71-82 | A process's memory is the durable map as of some commit |
| PolicyProcesses.FinishedSaveIsSeen | internal/agentrouting/policy_store.go:75-82 | A finished save is durable and in the saver's memory, which never moves back |
| PolicyProcesses.UndisturbedSaveCommits | internal/agentrouting/policy_store_persistence.go:148-173 | From every reachable state with the lock free, a save nobody disturbs commits exactly its own change on top of all others, durably and in memory, and frees the lock |
| PolicyProcesses.StepKeeps | internal/agentrouting/policy_store_persistence.go:200-239 | Every step, failure and crash keeps the invariant |
| PolicyFile.PersistedLoadsBack | internal/agentrouting/policy_store_persistence.go:89-146 | Loading a persisted store of valid policies gives back the same map |
| PolicyFile.SnapshotIsCanonical | internal/agentrouting/policy_store_persistence.go:117-133 | One map has one sorted snapshot, whatever the iteration order |
| PolicyFile.LoadedIsValid | internal/agentrouting/policy_store_persistence.go:89-115 | Entries load exactly if each is valid and inside its scope and no scope repeats |
| PolicyFile.FileLoadsExactlyWhen | internal/agentrouting/policy_store_persistence.go:55-115 | A file loads exactly if it is missing or decodes strictly as version 1 with valid entries and no scope twice |
| PolicyFile.StoredPolicyKeepsToItsScope | internal/agentrouting/policy_store_persistence.go:102-115 | A policy that may be stored under a scope never admits a request from outside it |
| PolicyFile.ScopeLessIsStrictTotal | internal/agentrouting/policy_store_persistence.go:128-133 | The sort order is a strict total order on scopes |
| PolicyFile.Load | internal/agentrouting/policy_store_persistence.go:55-100 | The loading loop as specified, errors included |
| PolicyFile.Snapshot | internal/agentrouting/policy_store_persistence.go:117-133 | The collecting loop and the sort give the map's snapshot |
| PolicyStore.Store.Open | internal/agentrouting/policy_store_persistence.go:38-53 | Opening a store takes the file's policies into memory, or fails with the file's error |
| PolicyStore.Store.Save | internal/agentrouting/policy_store.go:44-83 | A save makes the durable map with the entry changed durable and then the memory; errors change nothing; it succeeds whenever policy and file are good |
| PolicyStore.Store.Get | internal/agentrouting/policy_store.go:86-101 | Exactly the policy of the exact scope |
| SecretMigration.MigrationSettlesAtOnceOrNever | internal/cloudconnections/connections.go:401-484 | After one write-back every later load returns the same non-blank secrets and references and reports a migration exactly when some connection holds secrets without a reference |
| SecretMigration.ReloadOne | internal/cloudconnections/connections.go:523-586 | Store then load of one connection: same non-blank secrets, references and store, settled exactly under the condition |
| SecretMigration.NamedSecretsSettle | internal/cloudconnections/connections.go:986-1000 | Non-blank ids and secret names that all belong to the method are enough |
| SecretMigration.StraySecretNeverSettles | internal/cloudconnections/connections.go:958-984 | A concrete connection that is written back at every load |
| SecretMigration.SavedLoadsBack | internal/cloudconnections/local_encrypted_store.go:60-130 | What is saved loads back without needing a migration |
| SecretLoads.LoadsExactlyWhenOpen | internal/cloudconnections/local_encrypted_store.go:93-130 | A connection loads exactly if the key opens each of its envelopes; the error tells a missing key from a wrong one |
| SecretLoads.LoadReturns | internal/cloudconnections/connections.go:557-586 | What a load returns, value by value: secrets unsealed, one reference for each secret the method names, the store name that goes with them; and it asks for a write-back exactly if a secret was plain text or reference or store differ |
| SecretLoads.StoreWrites | internal/cloudconnections/connections.go:523-555 | What a write-back stores of any connection: an envelope for each secret that is not blank, and for each field of the method the reference of its secret or else the trimmed one it had |
| SecretLoads.ReferencesTellApart | internal/cloudconnections/connections.go:986-1000 | No two connections share a reference, and no two fields of one do |
| SecretManager.SaveLocal | internal/cloudconnections/local_encrypted_store.go:60-91 | Every non-blank secret is sealed, in any iteration order |
| SecretManager.LoadLocal | internal/cloudconnections/local_encrypted_store.go:93-130 | Every non-blank secret is opened or found to be plain, or the load fails, in any iteration order |
| SecretManager.ApplySecretReferenceDefaults | internal/cloudconnections/connections.go:958-984 | One connection's references are fixed in place, no other is touched |
| SecretManager.LoadConnectionSecrets | internal/cloudconnections/connections.go:557-586 | All connections are decrypted in place, or the first failure is returned |
| SecretManager.StoreConnectionSecrets | internal/cloudconnections/connections.go:523-555 | All connections are sealed into fresh records |
| SecretManager.Manager.LoadSnapshot | internal/cloudconnections/connections.go:401-416 | The two passes are the load of the whole file |
| SecretManager.Manager.PersistMigration | internal/cloudconnections/connections.go:441-456 | The file is written back exactly when the load asked for it and the write succeeds; a failed load or write is the error |
| PlanGateSafety.EachPlanAuthorizesOneMutation | internal/api/router.go:1774-1869 | Two executions of gated mutating commands are backed by two different records, each consumed by that very run and command |
| PlanGateSafety.ConsumeSucceedsExactlyWhen | internal/api/plan_gate.go:118-159 | A consumption succeeds exactly for the latest untouched record with the same tool, environment, connection and hash, less than an hour old, of a plan command that serves the mutation, pair by pair |
| PlanGateSafety.RecordsAreConsumedOnce | internal/api/plan_gate.go:118-127 | No record backs two consumptions |
| PlanGateSafety.OnlyPlansAllowMutations | internal/api/plan_gate.go:161-173 | Whatever the tool, only plan-producing commands are good for a mutation |
| PlanGateSafety.AllowsExactlyTheServed | internal/api/plan_gate.go:161-173 | Which plan command is good for which mutation, as an if-and-only-if: ansible check for apply and playbook; pulumi plan or preview for apply, up, destroy and refresh; terraform and opentofu plan for apply and destroy; any planning command for another tool |
| PlanGateAnswers.RejectedExactlyWhen | internal/api/plan_gate.go:129-159 | Each rejection, and exactly when a command meets it, read off the trace |
| PlanGateAnswers.ClearedExactlyWhen | internal/api/router.go:1774-1834 | The first look refuses a gated mutation exactly if no plan covers it or approval, risk or policies are against it |
| PlanGateAnswers.AdmittedExactlyWhen | internal/api/router.go:1834-1869 | The last look admits a gated mutation exactly if a plan covers it, and uses that plan up |
| PlanGateAnswers.StartDropsExactlyWhen | internal/api/router.go:1834-1869 | A planning command drops the plan of its directory before it starts; no other command does |
| PlanGateAnswers.FinishRecordsExactlyWhen | internal/api/router.go:1870-1915 | A run leaves a plan behind exactly if it made one and succeeded, of its own command, tool, environment and connection |
| PlanGateAnswers.ChangeDropsPlan | internal/api/plan_gate.go:47-74 | A change of a file takes the plan of its directory with it |
| PlanGateAnswers.RecordedPlanCovers | internal/api/plan_gate.go:84-159 | Once a plan is recorded and its directory left alone, it covers the command it serves for an hour |
| PlanGateSafety.StepKeeps | internal/api/router.go:1834-1915 | Every step of every request and every file change keeps the gate equal to its trace |
| PlanGateStore.Gate.InvalidatePlan | internal/api/plan_gate.go:47-53 | Exactly the given paths lose their plan |
| PlanGateStore.Gate.RecordCommandPlan | internal/api/plan_gate.go:84-103 | The path's plan is replaced by the new record |
| PlanGateStore.Gate.ValidatePlanForCommand | internal/api/plan_gate.go:129-159 | The checks in the source's order, with its rejections; which plan serves which command is PlanGateSafety.AllowsExactlyTheServed |
| PlanGateStore.Gate.ConsumePlanForCommand | internal/api/plan_gate.go:118-127 | The plan goes exactly when the check passes |
| RpcSession.SessionSucceedsExactlyWhen | internal/mcpairlock/tool_call_codec.go:55-102 | A session has an outcome exactly when both requests are written and its two responses are the first non-skippable lines, among the first 32 lines and 4 MiB, the first naming protocol 2025-06-18; and the outcome is the fault of the second, or exactly its text parts in order and its error flag |
| RpcSession.ReadsExactlyArrivals | internal/mcpairlock/tool_call_codec.go:163-220 | The reader returns a reply exactly when it is the first other line with the expected id and exactly one of result or error (section 5 of JSON-RPC 2.0), within both budgets |
| RpcSession.FailsExactlyWhen | internal/mcpairlock/tool_call_codec.go:163-220 | The reader fails exactly where, and exactly as, the first line it cannot skip, a budget, the context or the stream says, error by error |
| RpcSession.SkipsExactly | internal/mcpairlock/tool_call_codec.go:179-193 | Only blank lines and notifications (section 4.1 of JSON-RPC 2.0) are skipped |
| RpcSession.AcceptsExactly | internal/mcpairlock/tool_call_codec.go:195-217 | A line is accepted exactly with the right version, id and exactly one of result or error object |
| RpcSession.Reader.ReadResponse | internal/mcpairlock/tool_call_codec.go:163-220 | The loop over shared counters, which ends on every stream, leaves cursor and budgets as specified |
| RpcSession.RunToolCallSession | internal/mcpairlock/tool_call_codec.go:55-102 | The session as specified: an ended context or a failed write ends it where the source does, and both reads share one pair of budgets |
| Blast.DistanceTwo | internal/blast/blast.go:158-185 | Distance two is a reference to distance one from neither the target nor distance one |
| BlastAnalyzer.Analyze | internal/blast/blast.go:122-205 | On any graph, cycles included, direct impact is exactly distance one and indirect exactly distance two, each listed once, never the target, with the field of an edge to the target or to a direct impact; the total is their number, and the severity is low for none, medium to two, high to five and critical above |
| BlastAnalyzer.BuildGraph | internal/blast/blast.go:60-119 | For every iteration order the two maps hold exactly the edges the properties give, each as often under its source as under its target |
| BlastAnalyzer.ReferencesAreProperties | internal/blast/blast.go:74-116 | A resource refers to another exactly by a property whose text holds the other's address and a dot, or whose name ends in _id, _ids or _arn and stands for the other's kind; and never to itself |
| BlastAnalyzer.ByAddressIsTheLast | internal/blast/blast.go:66-72 | Of several resources with one address the last counts |
| Blast.UnusedInferences | internal/blast/blast.go:229-261 | Four table entries never give an edge |

## Left out

- ToolExecutionTheorems.AtMostOncePerApproval: is at most once and not exactly once, because a spent gate may be followed by a failed re-check or a crash; that is how the source behaves.
- Redaction patterns and secret detection: texts are taken as already redacted, so the credential checks of the run store, the binding and the tool result are not modelled.
- AgentRunStore.RunStore.Create: does not model the keyed hash of the prompt, a field that only passes through; nor are the read-only listings of runs.
- ApprovalBinding.NewToolApprovalBinding: of the checks on the arguments (a JSON object, free of credentials) only the one for an empty value is modelled.
- SecretManager.LoadConnectionSecrets: only connections kept in the file itself; the branches for external and for unsupported secret stores are not modelled.
- SecretManager.StoreConnectionSecrets: the same, and sealing does not fail.
- SecretManager.Manager.LoadSnapshot: the same, and the file can be read; a file that cannot be read or parsed is an error before any of this.
- SecretManager.Manager.PersistMigration: sealing does not fail.
- PlanGateStore.Gate.RecordCommandPlan: the hash over the plan files and the displayed times are inputs.
- RpcSession.RunToolCallSession: the validation of the request before the session starts is not modelled.
- InventoryStore.Store.PersistDiscoveredTools: the entries are in the order of the probe; the sorting for display and the list of checks are not modelled.
- LifecycleTheorems.OneLivePerServer: is about processes that `Start` launched; those of tool discovery and of the health probe are in no map.
- Go's `%q` quoting in audit messages is written as plain double quotes.
- `NewToolCallResult` apart from its truncation: the replacement of invalid bytes, the redaction and the final trim.
- The attestation store: its optimistic load, compare and replace is a simpler relative of the policy store and promises less, no atomicity across instances; only the verdict it feeds to the launch gate is modelled.
- The route idempotency store: the sibling of the execution attempts without release and panic handling.
- Connections kept in an external secret store, and the saving, deleting and testing of connections; the encryption key is the same before and after a migration.
- `planHash`: its fields are terminated and not length-prefixed, so no injectivity is claimed; a hash is an arbitrary string.
- The risk classification of tools by keywords, warnings and type names of the blast result, the status texts and check lists of servers.
- The lookup of a server before a tool is discovered or evaluated: only known servers are modelled there.
- A policy snapshot over the size limit is one of the failures a save may have before the file is replaced.
- Real processes, pipes, timeouts, file permissions, symbolic links and directory syncs; the durability of a rename after a power loss.
- HTTP handlers other than the guard and the plan-gated run request, the web interface, AI providers, cost estimates, code generation, import and drift.

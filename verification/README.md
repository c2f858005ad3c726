# SandboxGEN controller: a verified model

SandboxGEN drives untrusted language-model agents around a malware sandbox. The agents propose;
deterministic controller code decides. This project models that controller code in Dafny and proves
what it keeps for every behaviour of the agents, the model provider, the sandbox backend and the clock.

| files | what they model |
|---|---|
| `SpecPolicy.dfy`, `EnvSpec.dfy`, `SchemaFacts.dfy` | the shared environment specification: dotted paths, ownership and role tables, the value schema and what it keeps, and the store, once as a JSON value and once as dictionaries updated in place |
| `SharedSpec.dfy`, `MirroredSpec.dfy`, `AttemptStore.dfy` | that store when dictionaries are shared inside it: which values a write can change, and what every run of writes keeps once live dictionaries are mirrored |
| `RunContext.dfy` | the run ledger: pinned sample, task receipts, route confirmations, report digests, VM lease and journal |
| `ReportValidation.dfy`, `ReportRules.dfy` | the Analyst's report: its normal form, and when it is complete |
| `Attempt.dfy`, `Executor.dfy`, `Analyst.dfy`, `Orchestrator.dfy` | one attempt from Scout to the success record, and the loop over attempts; the Analyst runs the agent loop below |
| `TextSearch.dfy`, `BracketText.dfy`, `ToolCallScanner.dfy`, `ToolCallRoundTrip.dfy`, `StringNormaliser.dfy` | finding JSON calls in a reply, a JSON printer (strings as in section 7 of RFC 8259), and the repair of literal newlines and tabs |
| `LlmClient.dfy`, `RetryFacts.dfy`, `RetryRules.dfy` | one logical model request: attempts, waits, token budget, counters, and what each failure leads to |
| `ContextWindow.dfy`, `AgentLoop.dfy`, `StageFacts.dfy`, `StageActs.dfy` | the bounded loop of one agent stage, over the same client and any world its tools act on |
| `StraceLog.dfy`, `StraceFacts.dfy`, `SampleTree.dfy` | the system-call log and the process tree |
| `ByteStrings.dfy`, `Pcap.dfy`, `PcapFacts.dfy`, `PcapRoundTrip.dfy` | the two capture readers and a capture writer |
| `Verdict.dfy`, `Submission.dfy`, `SubmissionRules.dfy` | the verdict on a run, the plan a submission is accepted with, and which submissions are |

Code that updates state is a class or a method with a loop, and its contract equates the new state with a
function of the old one (`RunContext`, `EnvironmentSpec`, `LLMClient`, `Loop`, the scanner, the log and
capture readers); the properties are lemmas about those functions, over all inputs and all runs. The
attempt (`AttemptState`, `ExecutorAgent`, `Orchestrator`) is proved directly by its methods' contracts.
What the outside does is a parameter that every statement ranges over: lists of agent actions, a function
from attempt number to provider reply and elapsed times, fetched reports, guest logs. The laws speak of that
outside and of literal names, statuses and bytes, not of the functions the code is written with.

Findings, where the code differs from what its comments suggest or is stronger than it needs to be:

- `sandbox.actual` is controller-owned, but a submission stores the live `monitors` and `environment`
  dictionaries in it, so an accepted agent write below `monitors` also changes the owned path
  (`MirroredMonitorsFollowTheAgent`, `MonitorsWritesAreAccepted`). `AgentsNeverChangeOwned` is about the
  document as a value. For the stored document `FactOutlivesWrites` gives the exact condition, on the values
  shown: the walk avoids the written slot and the written dictionary is no part of the value.
  `OwnedFactsOutliveRuns` derives from it that over every run, mirror writes included, every owned path apart
  from the mirrors keeps its value, and `OwnPartsOfMirrorsSurvive` which values below a mirror still do.
- Cutting a system call in two is invisible exactly when no earlier half of the same process is still
  held (`CutCallIsJoined`); `HeldHalfTellsThemApart` shows that the condition is needed.
- The two capture readers agree on a kind of Ethernet frame exactly when the IP version nibble is the one
  its EtherType stands for (`AgreeExactlyWhenNibbleMatches`); the comment calls them the same parser.
- The ownership test of `check_write` never decides for a known role: the role tables already keep away
  from everything owned (`OwnershipTestIsRedundant`).
- The backend treats a request for the route `none` as one without a route: the same plan, which records
  `drop`, and no warning about it (`RouteNoneIsReplacedSilently`). Every other accepted route is the one in
  effect (`RouteInEffectUnlessNone`).
- A typed field keeps its type only against writes of its own path. Whoever may write it may also write one
  level below it, and so leave a dictionary in its place by an accepted write (`WritersCanReplace`,
  `TimeoutCanBeReplaced`). `FieldAfterWrite` gives the exact condition for one write and `FieldsKeepTheirShape`
  carries it over runs.
- The flag that stops the one retry after an empty report is the Executor agent's own to write
  (`RetryFlagIsTheAgents`); with the flag set, `Certify` asks for no second run.
- The backend recomputes the Windows verdict from the package named in the report. It is the collector's
  verdict for all records and runs exactly when that package is of the launch's class, a library in both or
  in neither (`VerdictsAgreeExactlyForTheClass`).

## Model

| member | source | states |
|---|---|---|
| `SpecPolicy.SegmentPrefixIsDottedPrefix` | src/core/spec_policy.py:383-385 | the raw string-prefix test of the ACL is the segment-prefix relation the store walks by |
| `SpecPolicy.PermittedNeverTouchesOwned` | src/core/spec_policy.py:53-187 | a key some role's table permits is never an owned path, nor an ancestor or descendant of one |
| `SpecPolicy.WritableNeverTouchesOwned` | src/core/spec_policy.py:346-389 | the same for what `check_write` lets a role write, as strings and as segment paths |
| `SpecPolicy.OwnershipTestIsRedundant` | src/core/spec_policy.py:365-389 | for a known role a key is writable exactly when the role's table permits it |
| `SchemaFacts.AcceptedWrites` | src/core/spec_policy.py:346-418 | a write is accepted if and only if the key has one to six parts of admissible characters and at most 160 characters, the role may write it, and the value is null or of the type, the words and the range of exactly that field, with nothing more than eight steps inside, no list over 2048 and no text over 65536 |
| `SchemaFacts.FieldAfterWrite` | src/core/env_spec.py:249-255 | after an accepted write a field is of its shape if and only if the write puts nothing else in its place and, when it lies elsewhere, it was of its shape before |
| `SchemaFacts.FieldsKeepTheirShape` | src/core/spec_policy.py:346-418 | over every run of writes a typed field keeps its shape while no call reaches below it, or over it with something of another shape inside |
| `SchemaFacts.AppendsAccumulate` | src/core/env_spec.py:272-289 | over a run of accepted appends the values come to stand behind the held ones, in order |
| `SchemaFacts.WritersCanReplace` | src/core/spec_policy.py:365-389 | a role that may write a typed field may write one level below it, which puts a dictionary in its place: of the typed fields only the two dictionaries keep their shape then |
| `SchemaFacts.TimeoutCanBeReplaced` | src/core/spec_policy.py:346-418 | the Architect can leave a dictionary where the submission's timeout is |
| `SchemaFacts.RetryFlagIsTheAgents` | src/core/spec_policy.py:171-180 | the Executor agent may set the flag that a retry was made |
| `SpecDocument.WriteLaws` | src/core/env_spec.py:222-260 | a written value is read back, and every path that is not the same node, an ancestor or a descendant reads as before |
| `SpecDocument.AgentStepKeepsOwned` | src/core/env_spec.py:232-289 | on the document as a value, no `set` or `append` of an agent, accepted or refused, changes a controller-owned path |
| `SpecDocument.AgentsNeverChangeOwned` | src/core/spec_policy.py:53-187 | noninterference on the document as a value: after any sequence of agent writes with any keys and values, every owned path reads as before (the stored document is the subject of `MirroredSpec`) |
| `EnvSpec.EnvironmentSpec.Get` | src/core/env_spec.py:222-230 | the loop reads the slot the dotted walk from the root leads to |
| `EnvSpec.EnvironmentSpec.Set` | src/core/env_spec.py:232-260 | a refused write changes neither document nor log; an accepted one is the in-place dotted write, and is logged |
| `EnvSpec.EnvironmentSpec.Append` | src/core/env_spec.py:272-289 | a non-list present value is refused; otherwise the whole extended list is checked and set, and refusal changes nothing |
| `EnvSpec.StoreReadIsGet` | src/core/env_spec.py:222-230 | reading through the dictionaries reads the JSON value they show |
| `EnvSpec.StoreWriteIsPut` | src/core/env_spec.py:249-255 | on an unshared document the in-place write is the dotted write on values, keeps the document unshared, and touches no dictionary outside it |
| `EnvSpec.InPlaceWriteKeepsOwned` | src/core/env_spec.py:249-255 | noninterference of the in-place store on an unshared document |
| `SharedSpec.OneSlotChanges` | src/core/env_spec.py:249-255 | in any document, shared or not, a write assigns one slot of one existing dictionary and nothing else |
| `SharedSpec.FactOutlivesWrites` | src/core/env_spec.py:249-255 | in any document the value shown at a path, or its absence, outlives every write to a key, of plain values and of dictionaries handed over, if and only if the walk to it does not read the assigned slot along the key and the written dictionary is no part of the value |
| `MirroredSpec.OwnedFactsOutliveRuns` | src/core/agent_loop.py:1639-1648 | noninterference of the stored document: over every run of agent writes and of writes that store live parts of the document in the mirrors, every owned path apart from the mirrors, present or missing, keeps its value, and dictionaries stay shared below the mirrors only |
| `MirroredSpec.OwnPartsOfMirrorsSurvive` | src/core/agent_loop.py:1639-1648 | a value below a mirror survives every permitted write when no dictionary it is read through there or made of is reached outside the mirrors |
| `MirroredSpec.MirroredMonitorsFollowTheAgent` | src/core/agent_loop.py:1643-1648 | when the mirror holds the live dictionary, an accepted Executor write to `monitors.` + name is what the owned path `sandbox.actual.proposed_monitors.` + name then reads |
| `MirroredSpec.MonitorsWritesAreAccepted` | src/core/spec_policy.py:346-389 | such writes are accepted, for every admissible name of at most 100 characters |
| `MirroredSpec.MonitorsAreWritable` | src/core/spec_policy.py:171-180 | the Executor may write every path below `monitors` |
| `MirroredSpec.MirrorIsOwned` | src/core/spec_policy.py:92-98 | every path below the mirror is controller-owned |
| `AttemptStore.TrackedFactsOutliveRuns` | src/core/agent_loop.py:1639-1648 | over every such run the quality record, the artefact's task and the failure flag keep their values in the stored document |
| `RunContext.RunContext.Bind` | src/core/run_context.py:282-335 | a second binding, an unopenable or a non-regular file is refused without effect; otherwise the sample is bound and journalled |
| `RunContext.RunContext.SetRoute` | src/core/run_context.py:380-395 | only a valid route becomes the policy, with its journal entry |
| `RunContext.RunContext.AddTask` | src/core/run_context.py:403-450 | a task is recorded, for the bound sample, only with an integer identifier in range, new, within the limit and with a valid route |
| `RunContext.AdmissibleTaskIsRecorded` | src/core/run_context.py:403-450 | a task is recorded if and only if its identifier is an integer in 1..2147483647 and new, fewer than eight tasks are recorded, the route is one of the six and a sample is bound; it then comes last, and only tasks and journal change |
| `RunContext.TasksAreTheAdmitted` | src/core/run_context.py:403-450 | after any run of operations the recorded identifiers are the former ones and then, in order, each submitted one that was admissible as it came |
| `RunContext.RunContext.ConfirmRoute` | src/core/run_context.py:452-474 | a confirmation says whether the route read back is the one the receipt was submitted with |
| `RunContext.RunContext.RequireTask` | src/core/run_context.py:487-501 | exactly the owned tasks are found |
| `RunContext.RunContext.AddReport` | src/core/run_context.py:512-544 | a readable report of an owned task replaces that task's digest |
| `RunContext.RunContext.AcquireLease` | src/core/run_context.py:561-575 | a lease is refused exactly while another is unexpired |
| `RunContext.RunContext.ReleaseLease` | src/core/run_context.py:592-596 | a held lease is released and journalled, a missing one changes nothing |
| `RunContext.StepKeepsSound` | src/core/run_context.py:282-596 | every operation, accepted or refused, keeps at most eight distinct in-range tasks of the one bound sample, and every confirmation and report keyed by an owned task |
| `RunContext.JournalRebuildsLedger` | src/core/run_context.py:271-278 | after any sequence of operations, folding the journal rebuilds sample, route policy, tasks, confirmations, report digests and held VM |
| `RunContext.FreshLedgerIsSound` | src/core/run_context.py:250-278 | so it is for every run of operations on a new ledger |
| `RunContext.OneEventPerAcceptedOperation` | src/core/run_context.py:271-278 | an operation either changes nothing or appends exactly one event |
| `RunContext.LeaseIsExclusive` | src/core/run_context.py:561-596 | until released or expired a held lease survives every operation, only its machine passes the check, and every acquisition is refused |
| `RunContext.NewestIsNewest` | src/core/run_context.py:546-556 | the verified report exists exactly when some target matched, and is then a newest matching one |
| `RunContext.RecordedReportIsVerified` | src/core/run_context.py:512-556 | a later matching report becomes the verified one; one that does not match never does and displaces only its own task's |
| `ReportValidation.NormalizeReport` | src/core/report_validation.py:35-58 | the loop over a copy computes the normal form |
| `ReportValidation.NormalizeIsStable` | src/core/report_validation.py:35-58 | normalising twice is normalising once, and only `iocs` is touched |
| `ReportValidation.LabelsNeverFailAReport` | src/core/report_validation.py:35-98 | after normalisation a descriptive label never makes an unknown-type problem |
| `ReportValidation.CompleteReportNamesTask` | src/core/report_validation.py:101-123 | a complete report names the expected task, and the delivered file is the same report up to normalisation, as JSON values compare (1, 1.0 and true are one) |
| `ReportRules.CompleteReports` | src/core/report_validation.py:61-123 | a report is complete if and only if it and the delivered file each have a classification, one of the four confidences, a list of behaviours, indicators with any text label and a value that is not blank, technique identifiers and the expected task, and the two are alike at every place in normal form |
| `ReportRules.SameExactlyWhenAlike` | src/core/report_validation.py:120-121 | two values compare equal if and only if at every place of the one they are alike: one number, one text, lists of one length, dictionaries of the same names |
| `ReportRules.RelabelledIoc` | src/core/report_validation.py:35-58 | an indicator with an unknown label keeps it as `raw_type`, becomes `other`, and is otherwise unchanged; any other one is left alone |
| `Attempt.AgentKeepsFacts` | src/core/spec_policy.py:346-389 | no agent write changes the quality record, the artefact task, the failure flag or the promoted report |
| `Attempt.HashesMatch` | src/core/qemu_backend.py:474-478 | two hashes match if and only if one is expected and they are the same characters, but for blanks around them and the case of letters |
| `Attempt.AttemptState.RecordReceipt` | src/core/agent_loop.py:1555-1630 | a submission adds a receipt if and only if a sample is bound and the identifier is admissible: for that sample, under the controller's route, with the route read back |
| `Attempt.AttemptState.AgentStage` | src/core/agent_loop.py:1002-1020 | whatever tools a role's agent calls in whatever order, the facts, sample, reports and policy stay; a role without `cape_submit` leaves the ledger alone and the specification as its accepted writes in order make it; with it, the new receipts are exactly the admissible submissions in order |
| `Executor.ExecutorAgent.Persist` | src/agents/executor.py:680-755 | an exception leaves it exactly when the schema refuses one of its notes; otherwise the quality record is the fetched one with the hash comparison, a verified one means that the task is owned and record and artefact entry are about it, and a matching stored report is the ledger's verified one |
| `Executor.ExecutorAgent.AttemptCorrection` | src/agents/executor.py:578-620 | each failure type is tried at most three times, counted when tried, and counts as mended exactly when its fix did its work |
| `Executor.ExecutorAgent.CorrectionLoop` | src/agents/executor.py:841-873 | rounds happen only while no task exists and leave every tracked fact as it was; each run of the agent follows a mended round, and without a task the loop stops early only after a round that is not mended or whose kind was tried three times |
| `Executor.ExecutorAgent.Certify` | src/agents/executor.py:880-975 | without an exception the agent runs again, with the flag set and relaxed timing, if and only if the first report is of a valid execution but without signal or not the sample's and the flag was not set; the stage finishes if and only if the deciding report (the new task's, else the first) matches and is of a valid execution; a matching first report with signal and accepted notes finishes with that task and the ledger's tasks unchanged; an exception means a refused controller write |
| `Executor.ExecutorAgent.Retry` | src/agents/executor.py:916-943 | after the one retry a verified record is still certified for the task it is returned with |
| `Executor.ExecutorAgent.Run` | src/agents/executor.py:776-975 | without an exception the stage either fails with the flag set or ends certified for one owned task with a valid execution; a first run that submits, asks for no adjustment and gets a good stored report ends certified for its last receipt's task |
| `Executor.ExecutorAgent.RunStage` | src/agents/executor.py:759-774 | the same under the VM lease, which is granted when none is held and released on every way out |
| `Orchestrator.OnlyNamedModesGetANetwork` | src/orchestrator.py:355-364 | fail closed: only the proposals `fakenet`, `nat` and `internet` lead to a route with a network, every other one to `drop`, and a list or dictionary cannot be looked up |
| `Analyst.AnalystStage` | src/agents/analyst.py:450-474 | the Analyst's agent loop, over specification and delivered report: where it ends and whether it is finished is what the specified loop gives; the tracked facts and the ledger stay, and a stage that ends finished leaves a complete report for the task it expects |
| `Orchestrator.PromoteNetworkPolicy` | src/orchestrator.py:349-394 | the route fixed before any task is the decided mode's route if the backend supports it, else `drop` if that is supported, else another supported route; mode, route and any downgrade are noted; it raises only without a mode, a supported route or one the ledger knows, or on a refused write |
| `Orchestrator.PromoteReport` | src/orchestrator.py:396-425 | a report is promoted if and only if the Analyst finished, it is complete for the ledger's verified task and the schema takes it and the notes; it is then in normal form |
| `Orchestrator.Prepare` | src/orchestrator.py:431-483 | everything before the first submission; with a pinned sample, a supported proposal and a plan without errors it succeeds, and the specification is what the accepted writes of controller, Scout and Architect make of it |
| `Orchestrator.PromotedReportIsEvidence` | src/orchestrator.py:431-539 | a report complete for both the artefact's and the ledger's task makes the two one task, with all evidence for it |
| `Orchestrator.RunAttempt` | src/orchestrator.py:431-545 | a success record is written only with all its evidence: task submitted by this attempt for the pinned sample, matching report hash, confirmed route, a quality record that says verified, with signal and not an invalid execution, and one task in ledger, artefact, quality record and promoted report. And a favourable attempt ends in one, for its last receipt's task: pinned sample, supported proposal, plan without errors, good first report over the decided route, and an Analyst that reports on that task |
| `Orchestrator.Run` | src/orchestrator.py:550-582 | each attempt has fresh state, the loop stops at the first success, success carries that attempt's evidence, and a favourable attempt is a success unless an earlier one was |
| `BracketText.PrintIsNested` | src/core/agent_loop.py:797-852 | every printed JSON array or object is one balanced bracketed text in the scanner's sense |
| `ToolCallScanner.ScanJsonObjects` | src/core/agent_loop.py:797-852 | the loop over one response returns the slices the automaton marks, and whether anything was left incomplete |
| `ToolCallScanner.ScanIsSound` | src/core/agent_loop.py:807-852 | on every input the extracted and skipped slices are ordered and disjoint, each extracted one opens with a bracket closed exactly at its end, and depth is zero exactly when no slice is open |
| `ToolCallRoundTrip.ScanUndoesPrinting` | src/core/agent_loop.py:797-852 | a response of bracketed texts, tagged or not, and `<invoke` regions, between prose, gives exactly those texts in order and nothing from inside a region; a region without end hides exactly the rest; incomplete exactly when some prose opens a bracket |
| `ToolCallRoundTrip.JsonSurvivesScanning` | src/core/agent_loop.py:797-852 | so come back any JSON objects and arrays, tagged or not, each with its own prose, regions and layout, whatever tags, braces or quotes their strings hold |
| `StringNormaliser.NormalizeJsonStrings` | src/core/agent_loop.py:854-891 | the two-flag loop computes the character-wise repair |
| `StringNormaliser.UnchangedExactlyWhenClean` | src/core/agent_loop.py:854-891 | a text is left alone if and only if no string in it holds an unescaped literal newline or tab |
| `StringNormaliser.NormaliseTwice` | src/core/agent_loop.py:854-891 | the repair is idempotent |
| `StringNormaliser.NormaliseUndoesRelax` | src/core/agent_loop.py:854-891 | with no backslash outside strings, writing escapes literally and repairing gives the text back |
| `StringNormaliser.RelaxedJsonIsRepaired` | src/core/agent_loop.py:854-891 | every JSON text with its newlines and tabs written literally is repaired to itself |
| `StringNormaliser.NormaliseKeepsObject` | src/core/agent_loop.py:745-751 | the repair keeps an extracted object one balanced bracketed text |
| `StringNormaliser.RepairedCallIsOneCall` | src/core/agent_loop.py:745-852 | a repaired call, tagged again, is scanned as exactly that one call, completely |
| `LlmClient.ClassifyError` | src/core/llm_backend.py:144-173 | quota texts come first, and a client-error status is otherwise fatal, 429 a rate limit |
| `LlmClient.ReadTimeout` | src/core/llm_backend.py:299-304 | the read timeout is the configured one up to the reference budget, beyond it grows in proportion by a quarter more, and is never over the cap |
| `LlmClient.Delay` | src/core/llm_backend.py:424-433 | a wait is at least the base and the provider's wish, and without a wish at most the base limit plus five seconds |
| `LlmClient.LLMClient.WaitForRetry` | src/core/llm_backend.py:424-441 | the wait taken, or the request given up when it would use up the budget |
| `LlmClient.LLMClient.Try` | src/core/llm_backend.py:443-521 | one turn of the loop is the specified attempt, counters and metadata included |
| `LlmClient.LLMClient.Chat` | src/core/llm_backend.py:397-522 | a bad argument changes nothing; otherwise the whole request is the specified run of attempts, and it ends |
| `RetryFacts.RequestsAreAccountedFor` | src/core/llm_backend.py:405-522 | on every exit requests = accepted + transport errors + empty replies, requests - retries = 1 if an attempt started, counters grew by what the trace shows, and a text is returned exactly on an accepted reply |
| `RetryFacts.RequestsKeepTheDeadline` | src/core/llm_backend.py:306-316 | every attempt starts before the deadline with timeouts within the time left, every wait is shorter than the time left, and waits and provider time fit in the elapsed time, the waits under the budget |
| `RetryFacts.BudgetGrowsWithEmptyReplies` | src/core/llm_backend.py:412-518 | after k empty replies a request asks for min(m * 2^k, max(m, 16384)) tokens, attempts are numbered in order, and nothing follows an ending event |
| `RetryFacts.FatalStatusEndsTheRequest` | src/core/llm_backend.py:475-480 | an error with a fatal status and no quota text is the last event |
| `RetryRules.KindsAreThese` | src/core/llm_backend.py:129-173 | a failure speaks of a quota, is a rate limit, is never retried or is retried as its status, type name and text say, status by status |
| `RetryRules.EveryTraceIsTheRightOne` | src/core/llm_backend.py:397-522 | every request, event by event: a failure that is not the last attempt ends it exactly when it is fatal, or speaks of a quota and no wait is configured; every other failure and every empty reply is followed by the wait above and the next attempt, or by giving up when the wait does not fit; the outcome and the metadata are those of the last event |
| `RetryRules.BaseDoubles` | src/core/llm_backend.py:424-433 | the base wait after attempt k is 15 seconds for a rate limit and 5 otherwise, times 2^(k-1), at most 120 and 60 |
| `RetryFacts.UsageIsAccountedFor` | src/core/llm_backend.py:443-522 | latency and replies without usage are exactly those of the attempts made |
| `ContextWindow.TrimMessages` | src/core/agent_loop.py:442-474 | the loop that drops the oldest middle messages computes the trimmed conversation |
| `ContextWindow.TrimFits` | src/core/agent_loop.py:431-474 | every conversation is trimmed to at most 60000 characters, and trimming again changes nothing |
| `ContextWindow.TrimKeepsEnds` | src/core/agent_loop.py:451-470 | first and last six messages survive with the longest fitting end of the middle, or with the placeholder; only if that is too long are exactly the messages over 7500 characters cut |
| `AgentLoop.Loop.Chat` | src/core/agent_loop.py:367-397 | one logical request with the retained budget, over the client above |
| `AgentLoop.Loop.RecoverProtocolError` | src/core/agent_loop.py:593-632 | the budget doubles, capped, only after a truncated reply |
| `AgentLoop.Loop.ExecuteTool` | src/core/agent_loop.py:993-1173 | a call that fails its check or is not the role's runs nothing; finish is accepted only when the validator finds nothing missing |
| `AgentLoop.Loop.RunTools` | src/core/agent_loop.py:530-564 | the calls of a reply run in order, none after an accepted finish, early and non-final tools refused |
| `AgentLoop.Loop.Finalize` | src/core/agent_loop.py:642-719 | forced finalisation is three turns at most over the finalisation tools |
| `AgentLoop.Loop.Iteration` | src/core/agent_loop.py:505-576 | one iteration: trim, checkpoint, ask, then repair or run the calls |
| `AgentLoop.Loop.RunStage` | src/core/agent_loop.py:478-591 | the whole stage is the specified run of iterations under the wall-time and iteration limits |
| `StageFacts.FinishedMeansComplete` | src/core/agent_loop.py:1164-1173 | a stage that ends finished leaves a world in which its validator finds nothing missing |
| `StageFacts.StageKeepsWorld` | src/core/agent_loop.py:478-719 | what every tool call keeps of the world, a whole stage keeps, forced finalisation included |
| `StageFacts.EveryStageIsKept` | src/core/agent_loop.py:478-719 | finish is accepted once, last, and normally not before the minimum iteration; only allowed tools run; budgets never shrink and stay within 16384; at most iterations + 3 requests; no request is over the context limit; finalisation is forced for stalling exactly after the allowed number of unusable replies in a row |
| `StageFacts.ProviderAttemptsAreBounded` | src/core/llm_backend.py:443-462 | the provider sees at most (iterations + 3) times the attempt limit |
| `StageActs.ReplyIsActedOn` | src/core/agent_loop.py:530-564 | of a reply exactly the calls that are checked, allowed, in phase, not finish and before an accepted finish run, in order, each on the world the ones before left and with the tool's answer among the results |
| `StageActs.EveryReplyIsActedOn` | src/core/agent_loop.py:478-719 | the world at the end of every stage is the fold of the tools over the logged calls; every request is followed by a reply the provider gave unless the client raised; after a usable one stand exactly the calls that should run on the world it found; and the stage ends before its limits only by finishing or by an exception |
| `StageActs.IterationTellsTheModel` | src/core/agent_loop.py:505-632 | after a usable reply the model is told the answers of its calls; after another one how to repair it, with a doubled budget, capped, if and only if the provider cut the reply short |
| `StageActs.FinalTurnTellsTheModel` | src/core/agent_loop.py:642-719 | forced finalisation tells the model why and asks with at least 8192 tokens, up to the cap; each of its turns tells what an iteration tells, under the rules of the final phase |
| `StraceLog.Observe` | src/sandbox_infra/qemu/detonate.py:94-156 | the branches of the loop body add exactly the specified record of one call |
| `StraceLog.ParseStrace` | src/sandbox_infra/qemu/detonate.py:46-166 | the loop over the lines computes the record of the log |
| `StraceLog.RunIsReplayOfCalls` | src/sandbox_infra/qemu/detonate.py:68-93 | however processes interleave, the record is that of the completed calls in order |
| `StraceLog.PlainLinesAreCalls` | src/sandbox_infra/qemu/detonate.py:68-93 | in a log of whole lines every line that reads as a call is one, in order |
| `StraceLog.CutCallIsJoined` | src/sandbox_infra/qemu/detonate.py:73-83 | a call cut in two around lines of other processes gives the joined line's record, and the same parser state if and only if no half of that process was held |
| `StraceLog.CutAnywhereInALog` | src/sandbox_infra/qemu/detonate.py:73-83 | then the whole log's record is the same cut or joined, whatever follows |
| `StraceLog.HeldHalfTellsThemApart` | src/sandbox_infra/qemu/detonate.py:73-83 | with a held half that a later line completes, the two logs count different calls |
| `StraceFacts.NothingIsLost` | src/sandbox_infra/qemu/detonate.py:89-156 | calls = completed calls = sum over processes, each process counted exactly, kept plus truncated events = tracked calls |
| `StraceFacts.KeptEventsAreTheFirst` | src/sandbox_infra/qemu/detonate.py:152-156 | the kept events are those of the first 2000 tracked calls, in order, each with its process, call, target, descriptor and outcome |
| `StraceFacts.FileSetsAreExact` | src/sandbox_infra/qemu/detonate.py:94-115 | each file set holds exactly the files of the calls of the names it is about: written those of write, writev, pwrite64 and pwritev that moved bytes, and so on for every set |
| `StraceFacts.WrittenWasAttempted` | src/sandbox_infra/qemu/detonate.py:94-115 | written and opened-for-writing files are among the attempted ones |
| `StraceFacts.ExecutedWasAttempted` | src/sandbox_infra/qemu/detonate.py:116-122 | executed images are those of the execve and execveat calls that succeeded, in order, and a subsequence of the attempted ones |
| `StraceFacts.ImageIsLastExec` | src/sandbox_infra/qemu/detonate.py:94-122 | a process's image is that of its last successful exec, and missing exactly without one |
| `StraceFacts.ExecEventOfCall` | src/sandbox_infra/qemu/detonate.py:116-122 | each exec call has its event, in order |
| `StraceFacts.LabelIffChain` | src/sandbox_infra/qemu/detonate.py:94-139 | a descriptor is labelled tcp or udp if and only if a chain of successful duplications, none disturbed, leads back to a socket call of the same process with the literal arguments of that kind |
| `StraceFacts.ConnectionLabelHasProvenance` | src/sandbox_infra/qemu/detonate.py:141-151 | each connect call with an address has its event, with destination and established as the call says, labelled as its annotation says, and without one as tcp or udp exactly with such a chain |
| `SampleTree.SampleTreeOf` | src/sandbox_infra/qemu/win_detonate.py:164-189 | the fixpoint loop ends and returns exactly the pids reachable from the roots by parent links, cycles allowed |
| `SampleTree.OrderDoesNotMatter` | src/sandbox_infra/qemu/win_detonate.py:182-189 | the tree does not depend on the order or repetition of the records |
| `SampleTree.NoRootNoTree` | src/sandbox_infra/qemu/win_detonate.py:164-189 | the tree is empty exactly when no record is a root |
| `Pcap.LinuxParse` | src/sandbox_infra/qemu/detonate.py:187-256 | total on every byte string, and computes what the Linux reader sees packet by packet |
| `Pcap.WindowsParse` | src/sandbox_infra/qemu/win_detonate.py:258-315 | the same for the Windows reader |
| `PcapFacts.AgreeExactlyWhenNibbleMatches` | src/sandbox_infra/qemu/detonate.py:228-247 | the readers agree on all frames of an EtherType and version nibble if and only if the two match |
| `PcapFacts.ReadersAgree` | src/sandbox_infra/qemu/win_detonate.py:301-315 | on every Ethernet capture whose nibbles match, both report the same |
| `PcapFacts.CollectionSummarises` | src/sandbox_infra/qemu/detonate.py:218-226 | the findings are the distinct names in first-asked order and the set of SYN targets |
| `PcapRoundTrip.CapturesReadBack` | src/sandbox_infra/qemu/detonate.py:187-256 | a written capture, in either byte order, of Ethernet frames, either Linux cooked form or bare IP packets, is read as its distinct query names in first-seen order and its SYN-without-ACK targets; the Windows reader reads the same of Ethernet frames and nothing of the others |
| `PcapRoundTrip.OtherLinksReadNothing` | src/sandbox_infra/qemu/detonate.py:243-256 | of any other link type nothing is read |
| `Verdict.LinuxRoots` | src/sandbox_infra/qemu/detonate.py:169-176 | the loop collects exactly the processes of successful execs of the sample or of its interpreter on it |
| `Verdict.LinuxVerdictsAgree` | src/core/qemu_backend.py:489-495 | the backend's verdict on a shaped Linux report is the collector's, and says: a root exec was seen, the guest reported, and without error |
| `Verdict.ValidRunExecutedTheSample` | src/sandbox_infra/qemu/detonate.py:169-184 | a run is valid if and only if the guest reported without error and the log completes a successful execve or execveat of the sample, or of its interpreter with the sample as the third quoted string |
| `Verdict.WindowsVerdictsAgree` | src/core/qemu_backend.py:496-512 | for all process records and guest runs, with the launch's name and a package of its class, the backend's verdict is the collector's |
| `Verdict.RootsAreRealSamples` | src/sandbox_infra/qemu/win_detonate.py:164-181 | the collector's roots are the backend's real samples, for a library only those the loader of its architecture started with the launch's command line |
| `Verdict.ValidWindowsRun` | src/sandbox_infra/qemu/win_detonate.py:220-230 | a Windows run is valid if and only if some record is a root of the launch, the launcher's version is 1, no launch, wait or export failed, and at least four fifths of the time were waited |
| `Verdict.VerdictsAgreeExactlyForTheClass` | src/core/qemu_backend.py:503-508 | with the package a report names, the two verdicts agree on all records and runs if and only if that package is of the launch's class: `dll` in both or in neither |
| `Verdict.InvalidRunHasNoSignal` | src/core/qemu_backend.py:513-516 | a run its collector calls invalid never has signal |
| `Verdict.ValidRunHasSignal` | src/core/qemu_backend.py:480-516 | a shaped Linux report has signal if and only if its run was valid |
| `Verdict.ValidReportHasSignal` | src/core/qemu_backend.py:480-516 | a report of a valid Windows run has signal; one of a valid Linux run lacks it exactly without processes, signatures, network events and score |
| `Verdict.UnshapedReportsHaveNoSignal` | src/sandbox_infra/qemu/detonate.py:289-297 | nor does the report of a guest that was never ready or returned nothing |
| `Submission.ParseTokens` | src/core/qemu_backend.py:273-280 | the loop reads the option tokens and refuses exactly on a repeated key |
| `SubmissionRules.TokensAreTheAsked` | src/core/qemu_backend.py:217-225 | the option text is readable if and only if no two pieces that ask for something have one key, and its tokens are exactly those asked for |
| `SubmissionRules.AcceptedRequests` | src/core/qemu_backend.py:163-304 | a request is accepted if and only if, by its bytes and suffix, the sample is a runnable ELF file, a Windows file on a host with a Windows guest, or a script; platform, machine and package are open or that guest's; the route is open, `drop` or `none`; the timeout is in 1..1800; the options repeat no key; and a Windows file has a known header, the package of its library flag and an entry exactly for a library. It then goes to that guest, under that package, name and time |
| `SubmissionRules.GuestSettings` | src/core/qemu_backend.py:229-239 | every accepted plan records its guest's fixed settings: platform, machine, isolation, memory, processors, monitors and interpreter |
| `Submission.AcceptedPlanIsOffered` | src/core/qemu_backend.py:194-239 | an accepted plan names a listed machine, an offered package, a supported route and a timeout in 1..1800, and what was asked for of machine, platform, package and timeout is in effect |
| `Submission.AcceptedLaunchFitsTheFile` | src/core/qemu_backend.py:241-304 | an accepted Windows launch has the architecture of the file's header, the package of its library flag, and an admissible entry point exactly for a library |
| `SubmissionRules.ExportsAreThese` | src/core/qemu_backend.py:282-290 | an entry point is a name of letters, digits, `_`, `?`, `@` and `$` that begins with no digit, or `#` and a number from 1 to 65535 in decimal |
| `Submission.NoticesOfAnAcceptedPlan` | src/core/qemu_backend.py:206-231 | the warnings are exactly: each requested token but the applied function, each memory, tags or priority setting that is set, and a request for the enforcement the guest's kind does not have |
| `Submission.RouteNoneIsReplacedSilently` | src/core/qemu_backend.py:202-231 | asking for the route `none` gives the very plan, warnings included, of asking for no route, and it records `drop` |
| `Submission.RouteInEffectUnlessNone` | src/core/qemu_backend.py:202-231 | the route an accepted request asks for, if any, is in effect if and only if it is not `none` |
| `Submission.AcceptedPlanIsAFixedPoint` | src/core/qemu_backend.py:163-304 | asking again for the effective settings with the same function is accepted with the same effective plan, name and launch, and leaves nothing unapplied |
| `Submission.FunctionTokenReadsBack` | src/core/qemu_backend.py:273-291 | an admissible export name survives splitting, stripping and partitioning of the option text |
| `Submission.TasksSayHowTheyEnded` | src/core/qemu_backend.py:306-377 | a recorded task is done exactly with a report, failed exactly without one, and pending without a route when the detonation raised; its route is the report's or `drop` |
| `Submission.QemuCapeClient.SubmitFile` | src/core/qemu_backend.py:306-377 | a refused request changes nothing; an accepted one takes a new identifier and, unless staging the sample raises first, is recorded with its effective plan, every other task untouched |

## Left out

- Subprocesses, HTTP and SDK calls, file operations and hashing: their results are parameters; a hash is an opaque text.
- Regular expressions and JSON and XML decoding: system-call lines are tokenised by a parameter, tool calls are decoded by a parameter, and Sysmon events arrive as process records.
- `str.isalnum`, `\w`, lower-casing and white space beyond ASCII: parameters with the few laws a proof needs as preconditions (`SaneSpaces`, `LowersPaths`, `Sane`).
- EnvSpec.EnvironmentSpec.Set: list elements are held by value, so an agent that keeps a reference to a stored list element is not modelled; `check_write` measures depth and width but its node count is not enforced by the code and not modelled.
- `EnvironmentSpec.update`, `save`, `load` and the write log's rendering: no caller among the agents' tools, or plain output.
- Attempt.AttemptState.AgentStage: the specification is a value here. `AttemptStore.TrackedFactsOutliveRuns` covers three of the tracked facts in the stored document; the fourth, `report`, shares its nested objects with `analysis.report`, and no agent runs after it is promoted.
- MirroredSpec.OwnedFactsOutliveRuns: the controller's writes to keys other than the mirrors, which are meant to change the facts there, are not steps of these runs.
- Attempt.AttemptState.AgentStage: `write_file` is followed for the delivered report only; the code refuses no other file name but the agent trace, so a file named like the success record can be written by an agent's tool, and the record proved about is the controller's.
- RunContext.RecordedReportIsVerified: clock readings are assumed to increase strictly, because the code breaks a tie of time stamps by dictionary order; several readings inside one operation are one reading.
- RunContext facts, manifest and prompt blocks, and the lock around operations: projections, and a single-threaded caller.
- Orchestrator.RunAttempt: the favourable attempt that must succeed has a pinned sample, a supported route and a first report that needs neither correction nor retry; after a retry only `Executor.ExecutorAgent.Certify` says which report decides.
- Executor.ExecutorAgent.ApplyFix: whether a host-side fix works is a parameter.
- LlmClient.LLMClient.Chat: token and cost totals of `get_usage`, the trace callback's own failure, and exceptions that are not `Exception` are not modelled; a wait may last longer than asked but never shorter.
- AgentLoop.Loop.ExecuteTool: tools other than finish are one function of the world, and the refusal of network tools is part of it; a validator that raises counts as finding something missing.
- Analyst.AnalystStage: what a call says (key, value, delivered file) and what tools other than the specification and file writes answer are parameters; Scout, Architect and Executor run as lists of actions, because the success record rests on no completion check of theirs.
- ReportValidation.CompleteReportNamesTask: a not-a-number value, which Python finds different from itself, is not a JSON value here.
- StraceLog.ParseStrace: the sorting of the summary lists, the cut to 200 read files and the integer form of a pid are not modelled.
- Pcap.LinuxParse: the sorting of the targets and the record type of a name are left out; labels are decoded byte by byte and compression pointers are read as lengths, as the code does.
- PcapRoundTrip.CapturesReadBack: the writer emits uncompressed names of labels of 1 to 63 bytes and no IPv6 extension headers.
- Verdict.WindowsVerdictsAgree: the launch pattern is a parameter, the waited seconds are a real or missing, and the network filters that shape the other evidence are left out.
- Submission.AcceptedPlanIsOffered: the forbidden Windows file names are one test of the name; a request entry of a type the code cannot split raises, and counts as refused.
- Background behaviour counts (`_shape_attributed_behavior`), capability texts, and the legacy CAPE client: easy members or plumbing.
- The in-guest agents, preprocessing, prompts, logging, redaction and report rendering.

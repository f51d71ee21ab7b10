# RelayFlow: a verified model

RelayFlow runs user-defined workflows: a list of TRANSFORM, FILTER and HTTP_REQUEST steps, started by a webhook or by
hand, queued, and executed by workers that retry a failed job and resume where it stopped. This project models the parts
that can go subtly wrong and proves what holds of them, under faults at any awaited call and under every interleaving.

## What is modelled

**Faults.** Every awaited call (a read, a write, the outside call of a step) is one atomic step that ends in one of five
ways: it works; it throws without its effect; it throws although its effect is in place; the process dies before it; the
process dies after it (`Faults`).

**Engine and delivery loop** (`Machine`, `Invariant`, `Resume`, `StopWindow`, `Statuses`, `Repeats`, `Work`, `Once`, `Again`,
`Retry`, `Fate`, `Strands`, `Records`, `Isolation`). One
delivery of one job is a machine with one state per awaited call of `process` and `execute`. A run is any sequence of
deliveries and calls, each with its fault and reply. The proofs hold of every reachable state. `EngineService` holds the
same code in its own imperative form, and its methods are proved to leave the tables and to end as the machine does on the
same tape of faults.

**Admission and editing** (`Admission`, `Idempotency`, `Capacity`, `Conservation`, `Origins`, `Edits`, `Spent`,
`SpentRuns`, `Versions`, `Tokens`, `Trimming`). Any number of
requests are program counters over shared tables: webhook calls, manual runs, workflow creation, edits, activation and
pausing. One event is one awaited call of one request, a move of the queue, or a write by a worker. `AdmissionService`
holds the services in imperative form; each method is proved to end, and to leave the tables, as its request in the machine
does, whatever the rest of the system does between its calls.

**From one to the other** (`Handover`). A job that was added reaches the worker as its machine expects it, and end to end a
workflow runs the steps of the version it was asked to run.

**Kernels** (`Paths`, `Template`, `Steps`, `RateLimit`, `SafeFetch`). The path resolver, the template scanner, the three
kinds of steps, the fixed-window rate limiter and the redirect loop.

## What the proofs found

* **A stop can be forgotten.** Nothing stored says that a filter stopped the walk; only its SUCCEEDED row is there. A fault
  after that write and before the job completes makes the next delivery walk on past the filter. `StopWindow.StopIsForgotten`
  builds such a run for every workflow whose first step is a filter that stops. `Resume.AgreesIff` gives the exact
  condition: a run that succeeds ends in the uninterrupted walk if and only if its last delivery did not begin with a
  recorded stop that has steps behind it. The window lasts until the queue has completed the job, so losing the execution's
  SUCCEEDED write or dying right after it is inside it too.
* **A step is executed again exactly when its success was not recorded** when an earlier delivery ended
  (`Again.ExecutedAgainIff`). "Previously successful steps are not executed again" (repository `README.md:234`) is true of
  recorded successes. It is not true of every step that did run: `Again.DoneTwice` builds, for any workflow with a retry left,
  a run whose first step returns, is refused its SUCCEEDED write, is recorded FAILED, and is executed once more.
* **Repeated step ids are skipped silently.** The schema does not demand distinct ids. In any workflow, under any faults, a
  step that has the id of an earlier one is never started (`Repeats.RepeatedIdIsSkipped`); where every step's row has ended
  SUCCEEDED, every step was executed if and only if the ids are distinct (`Repeats.AllCalledIffDistinct`).
  Distinct ids is therefore an assumption of the resume theorems.
* **The row of a job that is over can say anything, for ever.** `process` can throw on the last attempt in three places: at the
  read of the execution, at its RUNNING write, both outside the `try`, and at or behind the report. What the row then says is
  `Fate.ExhaustedRunShows`: FAILED if the report was written, or an earlier report of a last attempt, whose worker died on it,
  still stands; QUEUED if no status was ever written; RUNNING if the RUNNING write or the report of an earlier attempt was the
  last; and SUCCEEDED if a SUCCEEDED write that threw, or whose worker died, was the last. `Strands` builds the last three for
  any number of attempts, `Strands.SucceededThoughUsedUp` for any workflow with distinct ids.
* **SUCCEEDED does not mean that the job completed**, nor FAILED that it is over. An execution is SUCCEEDED exactly when its
  last status write was that of SUCCEEDED, and its job is complete if and only if that write was answered
  (`Fate.SucceededIff`); it is FAILED exactly when the last was the report of a last attempt (`Fate.FailedIff`).
* **A key can be spent on an execution that never runs.** An execution gets a job in some continuation if and only if it has one
  or a request is about to add it (`Spent.GetsAJobIff`). All others, and they are exactly those whose request stopped, or could
  not queue them, without the job having been added after all (`Spent.OutOfReachIff`), spend their key: every later request
  with it is answered with an execution no worker will run (`Spent.KeyIsSpent`). One that was marked shows as FAILED; a
  stranded one stays QUEUED for ever (`Spent.StrandedForGood`). `SpentRuns.KeyCanBeSpent` brings both about wherever a call with
  a new key can come in, and `SpentRuns.SomeKeyIsSpent` from empty tables.
* **The queue bound overshoots by exactly one less than the number of admissions in flight**: 999 + K, and it is reached.
* **The rate limiter is slightly better and slightly worse than it looks.** m windows' length admits at most
  (m + 1) * limit - 1, one below the usual bound, and that is reached. A caller who waits `retryAfterSeconds` may be up to
  half a second early, because Redis rounds the remaining time to the nearest second; `RateLimit.RetryAfterIsEnough` says
  exactly when the wait suffices, which on a whole-second clock is always, and `RateLimit.RetryAfterIsTooShort` is a case in
  which it does not. Redis itself is not part of this model. The model
  assumes that a key is gone at the instant it expires; were it kept for that instant, windows would be a millisecond longer and
  the wait would suffice exactly when the time left rounds up, which the same lemma states.
* **An edit keeps a webhook's token exactly when the token stored at its write is the one it read**
  (`Tokens.EditKeepsTokenIff`), so always when nobody else wrote a definition in between (`Tokens.TokenSurvivesEdit`). An edit
  that read a manual workflow draws a token and replaces whatever was stored meanwhile; `Tokens.StaleEditsReplaceToken` shows
  two edits that do this to each other.

## Model

| member | source | states |
|---|---|---|
| Paths.ResolveInputPath | libs/workflow-engine/src/workflow-engine.service.ts:455-473 | the resolver loop computes the segment-by-segment lookup, undefined below anything but an object |
| Paths.ResolveComposes | libs/workflow-engine/src/workflow-engine.service.ts:455-473 | reading p.q is reading q in the object found at p, and undefined when there is no object at p |
| Paths.JoinUndoesSplit | libs/workflow-engine/src/workflow-engine.service.ts:456 | joining the segments of any path gives the path back |
| Paths.SplitUndoesJoin | libs/workflow-engine/src/workflow-engine.service.ts:456 | splitting joined dot-free segments gives the segments back |
| Paths.ResolvesWhatItReads | libs/workflow-engine/src/workflow-engine.service.ts:455-473 | the resolver returns a value exactly when going from object to object along the segments comes to it, and undefined exactly when that comes to none: at a missing key or below anything but an object |
| Paths.ReadsWhatWasNested | libs/workflow-engine/src/workflow-engine.service.ts:455-473 | a value nested under any dot-free segments is found at their joined path |
| Template.PatternExamples | libs/workflow-engine/src/workflow-engine.service.ts:285 | letters, digits, underscores and dots are path characters and a dash is not, on concrete templates |
| Template.MatchAtIsThePattern | libs/workflow-engine/src/workflow-engine.service.ts:285 | greedy matching finds a hole at a place exactly when the pattern allows one there, and the only one |
| Template.ScanIsLeftmost | libs/workflow-engine/src/workflow-engine.service.ts:285-295 | the scan cuts a template into literals and holes that print back as it, with no match left inside a literal, even across its end |
| Template.LeftmostIsScan | libs/workflow-engine/src/workflow-engine.service.ts:285-295 | that leftmost segmentation is unique |
| Template.ReplaceRendersScan | libs/workflow-engine/src/workflow-engine.service.ts:293-319 | the global replace equals rendering the segmentation: literals byte for byte, each hole filled once, inserted text never scanned again |
| Template.ReplaceOfSegments | libs/workflow-engine/src/workflow-engine.service.ts:293-319 | whatever way a template is given as leftmost segments, the replace renders those |
| Template.UnresolvedIsIdentity | libs/workflow-engine/src/workflow-engine.service.ts:298-300 | if no hole resolves the template comes back unchanged |
| Steps.ExecuteTransform | libs/workflow-engine/src/workflow-engine.service.ts:279-323 | the loop over the template keys leaves exactly their entries: what is not a string copied, and every string filled piece by piece from what its holes' paths read |
| Steps.TransformedIsEntries | libs/workflow-engine/src/workflow-engine.service.ts:279-323 | key by key: what is not a string is copied; in a string each literal stands as it is and each hole becomes the string its path reads, true, false or null as words, numbers and compound values as printed, or stays verbatim if it reads undefined |
| Steps.TransformMeans | libs/workflow-engine/src/workflow-engine.service.ts:279-323 | what each key of a transformed object holds, key by key |
| Steps.PassesIff | libs/workflow-engine/src/workflow-engine.service.ts:325-357 | GREATER_THAN lets through exactly a field that reads a number above a number constant, LESS_THAN one below, EQUALS exactly a field that reads that primitive, NOT_EQUALS everything else |
| Steps.FilterOnField | libs/workflow-engine/src/workflow-engine.service.ts:325-357 | the same for any value nested under dot-free segments |
| Steps.FilterTrichotomy | libs/workflow-engine/src/workflow-engine.service.ts:325-357 | how the four operators exclude and complete each other on one field and value |
| Invariant.TickKeeps | libs/workflow-engine/src/workflow-engine.service.ts:65-222 | every awaited call, however it ends, keeps the data-flow, row-shape and control invariant |
| Invariant.RunKeeps | apps/worker/src/executions/workflow-execution.processor.ts:59-175 | so does every run of deliveries, from any state that satisfies it |
| Records.HttpOutputWasAnswered | libs/workflow-engine/src/workflow-engine.service.ts:268-275 | the output of a SUCCEEDED HTTP row is the data of an answer that ended the step's call on the recorded input |
| Records.TroubleIsRecorded | libs/workflow-engine/src/workflow-engine.service.ts:188-220 | the trouble an HTTP step meets is the error its FAILED row and then the report keep |
| Records.FilterOutputIsInput | libs/workflow-engine/src/workflow-engine.service.ts:259-266 | the output of a SUCCEEDED filter row is its input |
| Records.TransformOutputIsFilled | libs/workflow-engine/src/workflow-engine.service.ts:250-257 | the output of a SUCCEEDED transform row has the keys of its template, each filled from its input |
| Records.RecordedFilterDecided | libs/workflow-engine/src/workflow-engine.service.ts:131-187 | in an execution that succeeded outside the stop window a recorded filter stopped the walk, so that the next row is SKIPPED, if and only if its operator does not let its field through |
| Work.DerivationChain | libs/workflow-engine/src/workflow-engine.service.ts:87-145 | after every call of every run, a SUCCEEDED row has SUCCEEDED rows before it, its input is the previous stored output or the trigger payload, its output is what the step returned on that input |
| Statuses.StatusShape | libs/workflow-engine/src/workflow-engine.service.ts:101-208 | statuses in step order: SUCCEEDED, then at most one RUNNING or FAILED, then all PENDING or all SKIPPED; SKIPPED only behind a filter that stopped unless a stop was passed; outside the stop window SUCCEEDED and then SKIPPED, with nothing between |
| Statuses.BeforeSkipped | libs/workflow-engine/src/workflow-engine.service.ts:156-186 | outside the stop window every row before a SKIPPED one is SUCCEEDED or SKIPPED |
| Statuses.FinalFailure | apps/worker/src/executions/workflow-execution.processor.ts:125-174 | a step failing on the last attempt leaves execution FAILED with its message, exactly one FAILED row, SUCCEEDED before it, and behind it PENDING outside the stop window, filter or not |
| Resume.SuccessIsFold | libs/workflow-engine/src/workflow-engine.service.ts:65-222 | under every fault, stop window included, a succeeded execution's rows are the left fold over the steps that waves through the filters recorded before the last delivery; each output was really returned by a call on that input |
| Resume.AgreesIff | libs/workflow-engine/src/workflow-engine.service.ts:87-99 | a succeeded run ends in the uninterrupted walk if and only if its last delivery did not begin past a recorded stop with steps behind it |
| Resume.PureRunIff | libs/workflow-engine/src/workflow-engine.service.ts:244-277 | with TRANSFORM and FILTER steps only there is one uninterrupted walk, and a succeeded run ends in it if and only if its last delivery did not begin past a recorded stop |
| Resume.PureRunsAgree | libs/workflow-engine/src/workflow-engine.service.ts:244-277 | with TRANSFORM and FILTER steps only, the results of two succeeded runs whose last deliveries did not begin past a recorded stop agree, wherever their faults fell |
| StopWindow.OutsideWindowNeverCrosses | libs/workflow-engine/src/workflow-engine.service.ts:131-187 | without a fault in the stop window no delivery gets past a recorded stop |
| StopWindow.ResumeRefinesWalk | libs/workflow-engine/src/workflow-engine.service.ts:65-222 | resume refinement: with distinct ids and faults anywhere but in the stop window, every run that succeeds ends in the rows of one uninterrupted left fold with early stop |
| StopWindow.StopIsForgotten | libs/workflow-engine/src/workflow-engine.service.ts:133-175 | one worker death inside the window makes a run that succeeds with a step the uninterrupted walk leaves out |
| Repeats.RepeatedIdIsSkipped | libs/workflow-engine/src/workflow-engine.service.ts:87-99 | in any workflow, under any faults, a step with the id of an earlier one is never started and never executed |
| Repeats.AllCalledIffDistinct | libs/workflow-engine/src/schemas/workflow-definition.schema.ts:55-61 | when every step's row has ended SUCCEEDED, every step was executed if and only if the step ids are distinct |
| Repeats.UnstoppedCallsAllIffDistinct | libs/workflow-engine/src/schemas/workflow-definition.schema.ts:55-61 | the same for executions that succeeded in workflows no step of which stops the walk |
| Repeats.WithoutFiltersNeverStops | libs/workflow-engine/src/workflow-engine.service.ts:249-276 | only filters stop the walk, so the last result covers every workflow without them |
| StopWindow.RepeatedIdSucceeds | libs/workflow-engine/src/schemas/workflow-definition.schema.ts:55-61 | such executions do succeed: two transforming steps with one id, no fault, and the second was never started |
| Once.FinishedStepsStay | libs/workflow-engine/src/workflow-engine.service.ts:87-99 | a row SUCCEEDED between two deliveries never changes again and its step is neither started nor executed again |
| Again.ExecutedAgainIff | libs/workflow-engine/src/workflow-engine.service.ts:87-145 | a step that succeeded in the end was executed after a moment between deliveries if and only if its row was not SUCCEEDED then |
| Again.DoneTwice | libs/workflow-engine/src/workflow-engine.service.ts:123-208 | a run in which the first step returns, loses its SUCCEEDED write, is recorded FAILED and is executed again |
| Work.WorkBound | libs/workflow-engine/src/workflow-engine.service.ts:101-121 | d deliveries of n steps start at most n + d steps, one less once completed, none more than d times; unless a stop was passed, a started row's attempt is its number of starts |
| Work.AttemptCountsStarts | libs/workflow-engine/src/workflow-engine.service.ts:101-121 | under every fault a started row's attempt is its number of starts, and one more exactly when its first start found it SKIPPED |
| Work.StartsArePaidFor | libs/workflow-engine/src/workflow-engine.service.ts:101-121 | between deliveries the starts are exactly the SUCCEEDED rows plus the cuts after a RUNNING write, of which there are no more than deliveries |
| Work.CutsAreDeliveries | libs/workflow-engine/src/workflow-engine.service.ts:101-121 | a delivery is cut at most once, from any state and over any events |
| Retry.RankFalls | apps/worker/src/executions/workflow-execution.processor.ts:59-175 | every awaited call brings its delivery closer to its end |
| Retry.RetriesEnd | libs/queue/src/queue.module.ts:24-25 | without worker deaths a job takes boundedly many steps, by attempts left and then calls left |
| Retry.CleanDelivery | apps/worker/src/executions/workflow-execution.processor.ts:59-115 | from every reachable state with attempts left a fault-free delivery succeeds, and leaves the fold resumed from what it found |
| Fate.StatusTellsFate | apps/worker/src/executions/workflow-execution.processor.ts:106-148 | while no worker dies, the last attempt can read, open and report, and a SUCCEEDED write that threw is taken back by its report: FAILED exactly when all attempts were used up and failed, SUCCEEDED exactly when the job completed, at the first success |
| Fate.FailedIff | apps/worker/src/executions/workflow-execution.processor.ts:59-174 | under every fault, FAILED exactly when the last status written was the report of a last attempt, and then the job is over unless a worker died |
| Fate.ExhaustedIsFailedIff | apps/worker/src/executions/workflow-execution.processor.ts:59-174 | whichever of the three throws uses the job up, when its row says FAILED, and that it says so for ever |
| Fate.ExhaustedRunIsFailedIff | apps/worker/src/executions/workflow-execution.processor.ts:59-174 | the same over runs: FAILED if and only if the report used the job up and was written, or an earlier report of a last attempt still stands, which takes a worker's death |
| Fate.ExhaustedRunShows | apps/worker/src/executions/workflow-execution.processor.ts:59-174 | exactly when the row of a job that was used up says QUEUED, RUNNING, SUCCEEDED or FAILED |
| Fate.StatusIsLastWrite | apps/worker/src/executions/workflow-execution.processor.ts:69-148 | after every run the row shows the last status write, and the job is complete exactly when that was an answered SUCCEEDED write |
| Fate.RowIsLastWrite | apps/worker/src/executions/workflow-execution.processor.ts:69-148 | after every run the whole row, error and finishing time included, is that of the last write |
| Fate.ReportKeepsError | apps/worker/src/executions/workflow-execution.processor.ts:125-148 | a report that is written keeps its error, as RUNNING before the last attempt and as FAILED on it |
| Fate.SucceededIff | apps/worker/src/executions/workflow-execution.processor.ts:106-115 | SUCCEEDED exactly when the last status write was that of SUCCEEDED; then the job is complete if and only if that write was answered |
| Strands.NeverBegunStrands | apps/worker/src/executions/workflow-execution.processor.ts:59-80 | for any number of attempts: throws of the read, or of the RUNNING write, use the job up and leave the execution QUEUED |
| Strands.NeverReportedStrands | apps/worker/src/executions/workflow-execution.processor.ts:137-148 | for any number of attempts: throws of the report leave it RUNNING |
| Strands.SucceededThoughUsedUp | apps/worker/src/executions/workflow-execution.processor.ts:106-148 | for any workflow with distinct ids and any number of attempts: a run in which every attempt failed and the execution says SUCCEEDED for ever |
| Isolation.RunsAreIsolated | apps/worker/src/executions/workflow-execution.processor.ts:59-115 | however the calls of many workers interleave, each execution ends as if it had run alone |
| Isolation.ClusterAgreesIff | apps/worker/src/executions/workflow-execution.processor.ts:59-115 | the exact resume result holds under every such interleaving |
| EngineService.WorkflowEngineService.ExecuteStep | libs/workflow-engine/src/workflow-engine.service.ts:244-277 | an HTTP step returns its answer or throws its trouble, a filter returns its input and whether it lets it through, a transform its filled template |
| EngineService.WorkflowEngineService.RunStep | libs/workflow-engine/src/workflow-engine.service.ts:123-221 | the try block and its catch do what the machine does, also when a write inside the try throws |
| EngineService.WorkflowEngineService.Execute | libs/workflow-engine/src/workflow-engine.service.ts:65-222 | the loop leaves the tables, and ends, as the machine does on the same tape |
| EngineService.WorkflowExecutionProcessor.Process | apps/worker/src/executions/workflow-execution.processor.ts:59-175 | one delivery equals a run of the machine; it returns normally exactly when the job completes, and counts an attempt exactly when it throws |
| Trimming.NormalizeIsKeyFor | apps/api/src/webhooks/webhooks.service.ts:83 | no header and a blank one are no key, and any other is the text between its white space |
| Trimming.SameKeyIff | apps/api/src/webhooks/webhooks.service.ts:83 | two keys are the same exactly when they are one text with white space around it; a blank key is no key |
| Idempotency.TickKeeps | apps/api/src/webhooks/webhooks.service.ts:83-141 | every event keeps keys unique and what requests hold true; executions never disappear nor change workflow, key, version, snapshot or payload |
| Idempotency.CreatingPutsIfAbsent | apps/api/src/webhooks/webhooks.service.ts:109-123 | the insert of a keyed request is an atomic put-if-absent on (workflow, trimmed key) |
| Idempotency.OnlyCreatingPuts | apps/api/src/webhooks/webhooks.service.ts:83-141 | nothing else changes which execution a key stands for |
| Origins.UnkeyedIsNew | apps/api/src/webhooks/webhooks.service.ts:83-123 | over runs: a call without a key, or with a blank one, that is accepted is answered with an execution that was not there when it arrived, that has no key, and whose payload and workflow are the call's |
| Origins.UnkeyedNeverShare | apps/api/src/webhooks/webhooks.service.ts:83-123 | two such calls are never answered with one execution |
| Origins.KeyedIsNamed | apps/api/src/webhooks/webhooks.service.ts:83-141 | a keyed call that is accepted is answered with an execution of its token's workflow whose key is the text of its header |
| Origins.CreatesWhatWasAsked | apps/api/src/webhooks/webhooks.service.ts:107-151 | what a request queues or marks was not there when it arrived and has the payload, key, trigger and workflow its call asked for |
| Origins.EveryExecutionWasAsked | apps/api/src/executions/executions.service.ts:81-101 | every execution has the payload, key, trigger and workflow of a call that arrived |
| Idempotency.UnkeyedCreates | apps/api/src/webhooks/webhooks.service.ts:83-123 | requests without a key or with a blank one never collide |
| Idempotency.FallbackFinds | apps/api/src/webhooks/webhooks.service.ts:124-141 | in every run, the lookup behind a unique-constraint error finds the execution |
| Idempotency.OneAnswerPerKey | apps/api/src/webhooks/webhooks.service.ts:83-141 | over every interleaving, all requests with one key that are answered with an execution get the same one, at whatever time |
| Conservation.ExecutionsAreConserved | apps/api/src/webhooks/webhooks.service.ts:143-167 | each execution has at most one job, each job's execution exists, and the numbers of executions, jobs, marks, requests in hand and stranded requests balance, under every fault |
| Conservation.EveryExecutionIsSomewhere | apps/api/src/executions/executions.service.ts:103-128 | where no add throws after the fact, every execution is queued, marked, in a request's hands or stranded, and exactly one of these |
| Conservation.MarkedForGood | apps/api/src/webhooks/webhooks.service.ts:152-167 | an execution marked as not queued whose add did not take effect after all stays FAILED with that error and never gets a job |
| Conservation.MarkedHasJobIff | apps/api/src/webhooks/webhooks.service.ts:143-167 | a marked execution has a job if and only if its add threw after the fact |
| Spent.FailedKeyIsSpent | apps/api/src/webhooks/webhooks.service.ts:85-97 | every later accepted request with the key of such an execution is answered with it, FAILED and without a job |
| Spent.GetsAJobIff | apps/api/src/webhooks/webhooks.service.ts:109-151 | some continuation gives an execution a job if and only if it has one or a request is about to add it |
| Spent.OutOfReachIff | apps/api/src/webhooks/webhooks.service.ts:109-167 | the others are exactly those stranded, marked or about to be marked whose job was not added after all |
| Spent.KeyIsSpent | apps/api/src/webhooks/webhooks.service.ts:85-141 | every later accepted request with the key of any of these is answered with it, and it never gets a job |
| Spent.StrandedForGood | apps/api/src/webhooks/webhooks.service.ts:109-151 | a stranded one stays QUEUED, without an error, for ever |
| SpentRuns.KeyCanBeSpent | apps/api/src/webhooks/webhooks.service.ts:109-167 | wherever a call with a new key can come in: a death after the insert, or a refused add, makes an execution out of reach, and the next call with the key is answered with it |
| SpentRuns.SomeKeyIsSpent | apps/api/src/webhooks/webhooks.service.ts:34-170 | the same from empty tables |
| Admission.HasCapacity | libs/queue/src/queue-capacity.service.ts:19-29 | the sum of the three counts is below 1000 exactly when fewer than 1000 jobs are unfinished |
| AdmissionService.AdmissionTail.HasCapacity | libs/queue/src/queue-capacity.service.ts:19-29 | the check lets a request go on to create exactly when its machine goes on |
| Edits.ManualGate | apps/api/src/executions/executions.service.ts:36-73 | a manual run goes on exactly for its user's active workflow with a manual trigger and an input that parses; else it is told what is wrong |
| Edits.WebhookFinds | apps/api/src/webhooks/webhooks.service.ts:35-50 | a webhook call finds the workflow that has its token, or none does |
| Edits.WebhookGate | apps/api/src/webhooks/webhooks.service.ts:52-97 | it goes on exactly when the limiter allows it and the workflow is active with a webhook trigger, with a key to the lookup and without one to the queue check |
| Edits.LookupGate | apps/api/src/webhooks/webhooks.service.ts:85-97 | a lookup that finds answers with what it found |
| Edits.CapacityGate | apps/api/src/webhooks/webhooks.service.ts:99-105 | the check lets go on exactly while fewer than 1000 jobs are waiting, active or delayed |
| Edits.QueueGate | apps/api/src/webhooks/webhooks.service.ts:143-170 | only a queued execution is answered with; one that could not be queued is FAILED with its error |
| Capacity.QueueIsBounded | libs/queue/src/queue-capacity.service.ts:19-29 | with K admissions in flight over both ways in, waiting, active and delayed jobs never exceed 999 + K |
| Capacity.BoundIsReached | libs/queue/src/queue-capacity.service.ts:19-29 | for every K at least 1 some run reaches it; K = 1 gives exactly 1000 |
| Versions.SnapshotsAreFaithful | apps/api/src/webhooks/webhooks.service.ts:110-123 | over every interleaving of edits and admissions each execution's snapshot is the definition its version names |
| Versions.VersionNamesOneDefinition | apps/api/src/workflows/workflows.service.ts:147-163 | one version, one definition, and no later event changes what an execution runs |
| Versions.VersionCountsWrites | apps/api/src/workflows/workflows.service.ts:152-163 | version - 1 counts the committed definition writes, whatever stale reads they came from |
| Edits.CreateStores | apps/api/src/workflows/workflows.service.ts:18-47 | a created workflow is its user's draft of version 1, named by the text of the given name |
| Edits.EditIsStored | apps/api/src/workflows/workflows.service.ts:93-174 | when an edit is let through, and that whatever others do in between its write stores the name's text and the definition where they differ from those it read, and nothing else |
| Edits.EditAnswers | apps/api/src/workflows/workflows.service.ts:93-145 | what an edit is told that is malformed, not its user's, not parsed, or changes nothing |
| Edits.CreateAnswers | apps/api/src/workflows/workflows.service.ts:18-47 | a definition that does not parse is refused and nothing is stored |
| Edits.StatusAnswers | apps/api/src/workflows/workflows.service.ts:176-238 | activating and pausing are refused where they do not apply, and not found where there is no such workflow of the user |
| Edits.FaultsEndCalls | apps/api/src/webhooks/webhooks.service.ts:34-170 | a call that throws is an internal error, but for a refused add, which goes on to the mark |
| Edits.StatusIsStored | apps/api/src/workflows/workflows.service.ts:176-254 | when activating and pausing are let through, and that they store just that status |
| Tokens.TokensAreCoherent | apps/api/src/workflows/workflows.service.ts:130-163 | a workflow has a token exactly when its trigger is WEBHOOK, tokens are not shared, and whoever is found by token has a WEBHOOK trigger |
| Tokens.EditKeepsTokenIff | apps/api/src/workflows/workflows.service.ts:102-163 | whatever others do between its read and its write, an edit that stores a new webhook definition keeps the stored token if and only if it is the one it read; a drawn token always replaces one |
| Tokens.TokenSurvivesEdit | apps/api/src/workflows/workflows.service.ts:102-163 | a webhook that stays one keeps its token over every edit, whatever fails in it, if nobody else writes a definition of it in between |
| Tokens.StaleEditsReplaceToken | apps/api/src/workflows/workflows.service.ts:130-163 | two edits that read before either wrote do not |
| Handover.ReachesWorkerAsInitial | apps/api/src/webhooks/webhooks.service.ts:110-151 | a job no worker has written for, and whose add did not throw after the fact, reaches the worker QUEUED and without rows, and its plan is the definition its version names |
| Handover.RunsWhatWasAsked | apps/worker/src/executions/workflow-execution.processor.ts:59-115 | end to end: from such a job, with faults outside the stop window, a success is one uninterrupted walk over the steps of its version on the payload of the call that arrived for it |
| AdmissionService.WebhooksService.Receive | apps/api/src/webhooks/webhooks.service.ts:34-170 | a webhook call ends, and leaves the tables, as its request in the machine does, whatever happens between its calls; what it asks for has its payload and the text of its header as key, none if there is none or it is blank |
| AdmissionService.ExecutionsService.RunManual | apps/api/src/executions/executions.service.ts:35-129 | the same for a manual run, which never has a key |
| AdmissionService.AdmissionTail.Create | apps/api/src/webhooks/webhooks.service.ts:107-141 | the insert, and the fallback on a conflict |
| AdmissionService.AdmissionTail.Enqueue | apps/api/src/webhooks/webhooks.service.ts:143-170 | the add, and the FAILED mark when it throws |
| AdmissionService.AnswersAreNamed | apps/api/src/webhooks/webhooks.service.ts:83-141 | the execution a call answers with is in the tables under what was asked for, and it is the only one under that key |
| AdmissionService.WorkflowsService.Create | apps/api/src/workflows/workflows.service.ts:18-47 | creation, with a token exactly for a webhook trigger |
| AdmissionService.WorkflowsService.Update | apps/api/src/workflows/workflows.service.ts:93-174 | the read-then-write edit equals its request in the machine under every interleaving |
| AdmissionService.WorkflowsService.Activate | apps/api/src/workflows/workflows.service.ts:176-221 | activation, refused without steps |
| AdmissionService.WorkflowsService.Pause | apps/api/src/workflows/workflows.service.ts:223-254 | pausing, refused unless active |
| RateLimit.RateLimitService.Consume | libs/rate-limit/src/rate-limit.service.ts:15-52 | the script's new state and verdict; a live counter always has an expiry |
| RateLimit.ConsumePlaysWindow | libs/rate-limit/src/rate-limit.service.ts:20-30 | one call moves its key's window and no other |
| RateLimit.ServicePlaysWindow | libs/rate-limit/src/rate-limit.service.ts:15-52 | over any interleaving of calls for any keys the verdicts on one key are those of the window machine at its times |
| RateLimit.ServiceIntervalBound | libs/rate-limit/src/rate-limit.service.ts:15-52 | the interval bound for the service, whatever came before and whatever is asked for other keys |
| RateLimit.WholeWindowAdmits | libs/rate-limit/src/rate-limit.service.ts:45-46 | a whole window, with the request that opens it, admits exactly min(arrivals, limit) |
| RateLimit.WindowIsExact | libs/rate-limit/src/rate-limit.service.ts:45-46 | a live window admits exactly what is left of its limit, and denied requests never extend it |
| RateLimit.RemainingIsAdmitted | libs/rate-limit/src/rate-limit.service.ts:45-48 | remaining is how many further requests the window admits |
| RateLimit.IntervalBound | libs/rate-limit/src/rate-limit.service.ts:15-52 | for any request times an interval of m window lengths admits at most (m + 1) * limit - 1 |
| RateLimit.BoundIsReached | libs/rate-limit/src/rate-limit.service.ts:15-52 | and that many are admitted by some request times, for every m at least 1 |
| RateLimit.RetryAfterIsEnough | libs/rate-limit/src/rate-limit.service.ts:50 | exactly when a caller who waits retryAfterSeconds finds its window over |
| RateLimit.RetryAfterIsTooShort | libs/rate-limit/src/rate-limit.service.ts:20-51 | two calls 600 ms apart in a one-minute window: the second waits 59 seconds and finds the window still open |
| SafeFetch.Fetch | libs/workflow-engine/src/security/safe-fetch.ts:7-49 | at most 6 requests, one for a non-GET, each after the first the validated target of a 301, 302, 303, 307 or 308; the result is explained by the last answer, is never a redirect, and is never the error behind the loop; each error names what forbids to follow |
| SafeFetch.ChainStaysHome | libs/workflow-engine/src/security/safe-fetch.ts:37-45 | every URL requested has the first one's origin, and each after the first was validated |
| SafeFetch.ChainsAgree | libs/workflow-engine/src/security/safe-fetch.ts:13-46 | the answers determine the requests |

## Left out

- Nest wiring, controllers, DTOs, guards, bootstrap, logging, tracing and health: no state worth proving.
- Sign-in, credentials and their encryption; an HTTP step is its reply, data or trouble.
- DNS lookup, URL parsing and validation: functions handed to the redirect loop.
- Inside the queue: backoff times, stall detection, limits and concurrency. A job waits, works, is delayed or is finished.
- Two deliveries of one execution at the same time, which a stalled but living worker could cause: deliveries of one job follow each other.
- The rate limiter inside the admission machine: its verdict is part of the event, so the admission theorems hold for every verdict.
- Schema parsing: an argument parses or it does not. Stored definitions, payloads and outputs parse back to what was stored, so the branches for unreadable ones do not occur, apart from a missing step output.
- JSONB quirks, number formatting and `JSON.stringify`: objects are maps, and printing is an unknown function.
- Inherited JavaScript properties in path lookups and template keys: only own keys exist.
- The API and a worker writing one execution row together: after an add that threw although the job was added, the API marks the execution FAILED while a worker may be running it, or has finished it. The admission theorems cover that case; the engine theorems take the worker to be the row's only writer, and `Handover` excludes it.
- Deletion of users, workflows and executions.
- Owners of executions, step types and the times of starts; of `finishedAt`, only whether it is set.
- Activation does not imply at least one step afterwards: an edit may store an empty list.
- Queries (`findAll`, `findOne`), which only read.
- Exactly-once HTTP calls: a step's call happens at least once, and only its recorded success is unique; the resume theorems speak of the recorded answers.
- The code both admission services repeat (capacity check, insert, enqueue) is modelled once, in `AdmissionTail`; a manual run has no key.
- AdmissionService.WorkflowsService.Update: the random token is drawn together with the read that precedes it, from a supply without repetitions.

# Verification of zut's agent engine and the code around it

A Dafny model of the parts of zut in which state, order and failure meet: the agent turn
engine with its transcript, queue, retries and compaction; the projection of old tool
results; the repetition guard; the hook buffer of a session that is still starting; the
resident child runner; the checklist protocol; the command line of packaged agents; the
scoped model cache; and the revocation of the web capability.

Run `dafny verify dfyconfig.toml` to check everything.

## How it is built

| files | what they hold |
|---|---|
| `Transcript` | messages, content blocks, provenance of tool results |
| `StaleIndex`, `StaleResults`, `StaleTranscript`, `ContextBudget` | the one-pass stale index: as a fold over touches, as a definition over results and over transcript positions, and as the loops that compute it |
| `Utf8`, `Projection` | byte-bounded truncation and the provider's view of a transcript |
| `Repetition` | the repetition guard, as a rule on the last 64 observations and as the incremental object |
| `HookBuffer`, `ToolRefresh` | the late-binding hook buffer and tool refresh, one action per lock section |
| `Memory`, `Queue` | the transcript with its persisted log, and the queue of late user messages |
| `Engine` | the turn engine as a state machine; actions of other threads may come between any two of its steps |
| `EngineLog`, `EnginePairs`, `EngineRuns`, `EngineBatch` | what every run of the engine keeps |
| `EngineEvents`, `EngineResults` | the order of a run's events, and what the results of its tool batches say |
| `EngineCauses` | which steps part log from transcript and calls from results |
| `GuardedRun` | the engine with the guard's own verdicts |
| `Trail`, `Agent` | the agent as a mutable object whose every method moves along a run of the engine |
| `Plan`, `PlanBlock` | the checklist's write-ahead protocol, and the checklist text a compaction carries |
| `Repair`, `Compaction` | repair of a transcript tail, and the transcript a compaction builds |
| `Resident`, `ResidentProofs`, `ResidentOutcomes`, `ResidentRuntime`, `Reminder` | the resident child runner: machine, theorems, how its turns end, object, and its usage reminder |
| `Args`, `ArgsMeaning` | argument parser and printer, and what a command line means without the parser |
| `ModelCache` | filtering and publishing of the model cache |
| `WebGuard` | revocation by generations |

A state machine takes a list of actions, and a theorem about it holds for every list.
Actions carry what the code does not decide: the provider's reply, a tool's result, a
hook's answer, whether a write succeeded. Objects take these from an oracle indexed by
how often it was asked. An action the machine is not ready for does nothing. Reads of the
context and of the queue that the code makes one after the other are separate actions.

## Where the code and what is said about it differ

- A partial reply of an attempt that is then retried is persisted and afterwards dropped
  in memory only (`EngineCauses.RetryPartsLog`). `EngineCauses.LogAgreesIff` states
  exactly when log and transcript agree.
- A successful reply with calls that stopped for another reason than tool use leaves them
  unanswered (`EngineCauses.ContinuedCallDangles`, `EngineCauses.PairsIff`).
- A result that lists the same read twice marks itself stale
  (`StaleResults.LoneRepeatedViewIsStale`).
- The comment on the hook buffer promises that dropped calls are reported after binding.
  Calls dropped while the buffer is being replayed never are
  (`HookBuffer.DropDuringReplayIsLost`); `HookBuffer.WarningIsCompleteIff` says when the
  report is complete.
- Compacting twice is meant never to duplicate the checklist. It does when a step's text
  contains the block's header, and it trims a context text that ends in blanks
  (`PlanBlock.SecondMergeReplacesIff`, `PlanBlock.QuotedHeaderDuplicates`).
- Superseded host context is dropped by a compaction together with tool names it alone
  activated (`Compaction.ToolsUnchangedIff`, `Compaction.SupersededToolIsLost`). A host
  context comes by such names when a shortened transcript is resumed and it is the first
  message kept (packages/agent/cli.go:159-167).
- The printed client line loses its meaning when a flag's value is `--`, or when the only
  positional argument is empty (`Args.ProgramRoundTripIff`, `Args.TerminatorAsModel`,
  `Args.LoneEmptyArgument`).
- A concurrently written OpenCode Go scope is kept only if it was written in the current
  cache format (`ModelCache.ConcurrentGoSurvivesIff`, `ModelCache.OldFormatLosesGo`).
- The image mirror of a tool batch is meant for images. For providers that need it, it is
  also sent for short texts when there is no image (`Agent.TextAloneIsMirrored`);
  `Agent.MirrorOnlyForImagesIff` says for all results when it is sent for images only.
- A tool refresh requested before binding is forgotten if nil is bound first
  (`ToolRefresh.NilForgets`); `ToolRefresh.RequestIsAnsweredIff` is the exact condition.
  The program's one caller (packages/agent/session_factory.go:154) binds the controller's
  method and never nil, so there `ToolRefresh.RequestsAreAnswered` holds of every request.

## Model

| member | source | states |
|---|---|---|
| StaleIndex.IndexMeaning | packages/core/context_budget.go:56-109 | after any sequence of reads, mutations and discoveries the three maps mean what their names say: last reader of each view, searches still waiting for a key, number of keys a search waits for |
| StaleIndex.StaleMeaning | packages/core/context_budget.go:52-109 | a result is marked exactly if a view of it was superseded or its discoveries ran out |
| StaleIndex.StaleGrows | packages/core/context_budget.go:56-109 | later activity never unmarks a result |
| StaleResults.StaleIndexIsDefinition | packages/core/context_budget.go:52-109 | with distinct call IDs a successful result is stale if and only if a view of it was replaced by a later result, all its finds were followed up later, or it lists one view twice |
| StaleTranscript.TranscriptIndexIsDefinition | packages/core/context_budget.go:52-109 | the same of the transcript itself: positions are messages and their blocks, later means a later message or a later block of the same one, and messages of every role count |
| StaleTranscript.StaleIsAResult | packages/core/context_budget.go:52-109 | whatever is marked is a successful result of the transcript |
| StaleResults.LoneRepeatedViewIsStale | packages/core/context_budget.go:67-71 | a lone result listing one view twice is stale although nothing replaced it |
| ContextBudget.ConsumeDiscoveries | packages/core/context_budget.go:56-109 | the closure that consumes a discovered key, over the map of waiting searches in any order |
| ContextBudget.InvalidateViews | packages/core/context_budget.go:56-109 | a mutation's sweep over all readers of a key, in any order |
| ContextBudget.StaleToolResultIDs | packages/core/context_budget.go:56-109 | the nested loops over the transcript, whatever the order in which maps are iterated: with distinct call IDs, the successful result at block j of message i is in the set if and only if a view of it was replaced at a later position, all its finds were followed up at later positions, or it lists one view twice; every ID in the set is a successful result's |
| Utf8.Cut | packages/core/context_budget.go:220-231 | a cut never lies beyond the limit and never inside a character |
| Utf8.Utf8Prefix | packages/core/context_budget.go:220-231 | the backward search for a character boundary finds the longest allowed prefix |
| Utf8.CutKeepsCharacters | packages/core/context_budget.go:220-231 | on valid UTF-8 (section 4 of RFC 3629) the cut is itself valid and loses at most three bytes |
| Projection.TruncationKeeps | packages/core/context_budget.go:178-218 | truncation keeps a prefix of the text, the blocks other than text in order, and at most the limit; on valid UTF-8 at least the limit less three bytes |
| Projection.NonTextConcat | packages/core/context_budget.go:183-218 | the blocks other than text are those of the parts, in order |
| Projection.NonTextOne | packages/core/context_budget.go:183-218 | a block by itself counts unless it is text |
| Projection.ToolResultTextBytes | packages/core/context_budget.go:168-176 | the loop counts all text bytes |
| Projection.ProjectToolResultContent | packages/core/context_budget.go:183-218 | the truncating loop against its specification |
| Projection.CopyToolResultMessages | packages/core/context_budget.go:139-166 | the copy has fresh content arrays equal to the stored ones |
| Projection.ProjectBlocksInPlace | packages/core/context_budget.go:27-46 | projection in place, block by block |
| Projection.ProjectToolResultMessages | packages/core/context_budget.go:23-50 | the stored transcript is not changed; in the view, each successful result is shown as stale exactly if the definition over transcript positions says so |
| Projection.ProjectionFaithful | packages/core/context_budget.go:17-50 | message count, roles, result IDs, and every block that is not the text of a result are kept; live results keep a text prefix within 32768 bytes |
| Projection.StaleShownIff | packages/core/context_budget.go:23-50 | with distinct call IDs, a successful result is replaced by the stale notice if and only if it is stale by its position; else it keeps its text prefix, with the omission notice exactly when something was cut and the timing annotation behind it |
| Projection.StaleForever | packages/core/context_budget.go:52-109 | extending a transcript never makes a stale result live again |
| Repetition.CountsStayBelow | packages/core/repetition.go:80-145 | while the guard runs, no fingerprint occurs more than seven times in the last 64 observations |
| Repetition.FirstStopIsExact | packages/core/repetition.go:117-138 | the guard stops exactly at the first observation whose fingerprint occurs eight times in the window |
| Repetition.WarnedBefore | packages/core/repetition.go:105-116 | a fingerprint at five or more has been warned about since it rose above four |
| Repetition.StopFollowsWarning | packages/core/repetition.go:133-144 | every stop was preceded by a warning for the same fingerprint |
| Repetition.ToolNameIsNewest | packages/core/repetition.go:101-132 | the reported tool name is the one the newest observation of the fingerprint with a name gave, if the fingerprint has not left the window since, and none otherwise |
| Repetition.UnnamedIsNone | packages/core/repetition.go:117-132 | none is reported for a fingerprint never observed with a name |
| Repetition.ToolNameIsTheTool | packages/core/repetition.go:117-132 | a fingerprint always observed under one tool name reports that name |
| Repetition.Guard.Observe | packages/core/repetition.go:80-145 | the incremental counter with eviction decides as the rule on the last 64 observations does: count, warning, latched stop, elapsed time since the first occurrence still in the window |
| Repetition.DecisionMeans | packages/core/repetition.go:101-145 | the rule, in places of the history: the count is the number of places in the last 64 with the newest fingerprint, the elapsed time starts at the oldest of them, eight or more stop and just five warn |
| Repetition.Guard.Evict | packages/core/repetition.go:101-116 | eviction keeps the counters equal to the occurrences in the window |
| Repetition.Guard.Reset | packages/core/agent.go:563-567 | a reset starts over |
| Repetition.FirstRepetitionSeen | packages/core/repetition.go:147-154 | the search returns the time of the first occurrence in the window |
| HookBuffer.BufferIsBounded | packages/agent/session_assembly.go:1278-1302 | at most 64 calls other than Notify are buffered and `others` is their number, under every interleaving |
| HookBuffer.NotifyNeverDropped | packages/agent/session_assembly.go:1278-1302 | no Notify call is ever lost |
| HookBuffer.DropTakesOldest | packages/agent/session_assembly.go:1278-1302 | whenever a step drops a call, it is the oldest droppable one that waited before the step, and no other |
| HookBuffer.LastOnesWait | packages/agent/session_assembly.go:1278-1302 | so before binding the droppable calls still waiting are the last 64 accepted, or all of them |
| HookBuffer.ReplayIsComplete | packages/agent/session_assembly.go:1237-1302 | once bound, the calls replayed are the accepted ones in order without the dropped ones, plus at most one notice |
| HookBuffer.NoticeComesLast | packages/agent/session_assembly.go:1240-1254 | binding puts one notice with the number of drops behind everything accepted before it, and none if nothing was dropped |
| HookBuffer.DirectCallsWaitForReplay | packages/agent/session_assembly.go:1237-1302 | every buffered call has returned before any direct call starts |
| HookBuffer.WarningIsCompleteIff | packages/agent/session_assembly.go:1249-1302 | the notice counts every drop if and only if no droppable call arrived during the replay while 64 were buffered |
| HookBuffer.LateDropStaysUnreported | packages/agent/session_assembly.go:1249-1302 | a drop during replay stays unreported in every continuation |
| HookBuffer.DropDuringReplayIsLost | packages/agent/session_assembly.go:1249-1302 | a concrete run in which a call is lost and never reported |
| HookBuffer.SessionBindings.Enqueue | packages/agent/session_assembly.go:1278-1302 | one lock section of a hook call; a full buffer loses its first call that is not a Notify, every other call keeps its place |
| HookBuffer.SessionBindings.Begin | packages/agent/session_assembly.go:1240-1268 | binding: refuses a second target, queues the notice, takes the first call |
| HookBuffer.SessionBindings.Resume | packages/agent/session_assembly.go:1255-1271 | the replay loop between two unlocked calls |
| HookBuffer.SessionBindings.SetHooks | packages/agent/session_assembly.go:1240-1272 | the whole replay with other threads interleaved ends bound; a second binding does nothing |
| ToolRefresh.Accounting | packages/agent/session_assembly.go:1191-1215 | requests before binding count as one, nothing is made up, and nothing is forgotten unless nil is bound |
| ToolRefresh.RequestsAreAnswered | packages/agent/session_assembly.go:1191-1215 | if nil is never bound afterwards, every request is followed by a refresh once one is bound and the calls due are made |
| ToolRefresh.RequestIsAnsweredIff | packages/agent/session_assembly.go:1191-1215 | exactly when a request with no other behind it adds a refresh: one was bound when it was made, or the next binding binds one |
| ToolRefresh.RefreshesAreAsked | packages/agent/session_assembly.go:1191-1215 | there are never more refreshes than requests |
| ToolRefresh.NilForgets | packages/agent/session_assembly.go:1191-1200 | binding nil forgets a remembered request |
| ToolRefresh.Refresher.SetToolRefresh | packages/agent/session_assembly.go:1191-1200 | one lock section of binding, and whether a call is due |
| ToolRefresh.Refresher.RequestToolRefresh | packages/agent/session_assembly.go:1205-1215 | one lock section of a request |
| Memory.LogReplaysIff | packages/core/agent.go:630-634 | with no hook call outstanding the log replays to the transcript if and only if no dropped reply is still in it |
| Memory.AddContextRecords | packages/core/dynamic_context.go:37-71 | host context is recorded exactly if there is some and the newest recorded one does not say just that: in front of everything if it is the first, else at the end |
| Memory.LatestIsNewest | packages/core/dynamic_context.go:37-71 | the newest host context is the last message marked as such |
| Memory.AddContextKeeps | packages/core/dynamic_context.go:37-71 | inserting or appending host context keeps log and transcript together |
| Memory.DropKeeps | packages/core/agent.go:1087-1096 | dropping a failed attempt's reply keeps the account: the log is ahead by one message per drop |
| Queue.AcceptKeeps | packages/core/agent.go:321-332 | acceptance keeps every accepted message in exactly one place and in order |
| Queue.TrimIs | packages/core/agent.go:321-332 | trimming removes all blanks around a text and nothing else |
| Queue.BlocksSay | packages/core/agent.go:648-654 | a user message has its text as first block if there is any, and behind it the images one by one in order |
| Queue.TakeKeeps | packages/core/agent.go:354-385 | so does taking one back, from the end or the newest ordinary one |
| Queue.TakeAllKeeps | packages/core/agent.go:387-396 | so does taking all back |
| Queue.DeliverKeeps | packages/core/agent.go:419-449 | so does delivery |
| Queue.NewestUser | packages/core/agent.go:368-385 | the newest entry that is not host evidence |
| EngineLog.LogAgreement | packages/core/agent.go:626-935 | after any run, with all hook calls made, the persisted rows replay to the in-memory transcript if and only if the count of dropped replies is zero |
| EngineCauses.LogAgreesIff | packages/core/agent.go:745-822 | which is so if and only if, since the last row that replaced everything, no failed attempt was retried after part of its reply had been kept |
| EngineCauses.StepDrops | packages/core/agent.go:745-822 | no step but such a retry moves the log ahead, and only a replacement row brings it back |
| EngineCauses.RetryPartsLog | packages/core/agent.go:745-822 | a concrete run with one retry after which the log replays to another transcript |
| EngineLog.QueueConserved | packages/core/agent.go:321-449 | every accepted message is in exactly one of transcript, queue or host's hands; the first two are in acceptance order; nothing is in delivery outside the delivery loop |
| EngineLog.DeliveredIsLogged | packages/core/agent.go:419-449 | delivered messages stand in the log, each at its own place, in acceptance order, as user messages with the accepted text, if any, and then the images |
| EngineLog.NothingLostAtReturn | packages/core/agent.go:692-935 | when a run returns, whatever was accepted was delivered, is still queued, or was taken back |
| EnginePairs.ToolPairing | packages/core/agent.go:827-886 | at every model call, each tool message of the run answers exactly the calls before it, and every call is answered in order by the next message if and only if the count of replies whose calls nobody ran is zero |
| EngineCauses.PairsIff | packages/core/agent.go:773-886 | which is so if and only if every successful reply since the run began that carried calls stopped for tool use |
| EngineCauses.ContinuedCallDangles | packages/core/agent.go:827-839 | a concrete run in which a continued reply's call stands unanswered at the next model call |
| EnginePairs.BatchPairs | packages/core/agent.go:1441-1535 | the tool message carries one result per call with its ID, in call order |
| EnginePairs.FailPairs | packages/core/agent.go:773-787 | a failed attempt leaves no open reply behind when it is retried |
| EngineRuns.TracesAreClosed | packages/core/agent.go:692-935 | step numbers are consecutive and within a positive limit, an attempt never exceeds its reported maximum, recovery comes at most once and never after a denied call, nothing follows the closing event |
| EngineEvents.EventsAreOrdered | packages/core/agent.go:692-935 | over any run each event only follows what it can follow: attempts of a step are numbered from one without gaps, each announced maximum is the retries allowed plus the timeouts so far, each back-off is the one due after the passing errors so far, a failure is reported exactly behind its end, and guard, recovery and denial behind a reply that was taken |
| EngineEvents.LastEventTells | packages/core/agent.go:692-935 | the last event tells where the loop stands, the stop reason it acts on, and the error a failed run failed with |
| EngineRuns.Endings | packages/core/agent.go:896-935 | how a run may end, and what its events then are |
| EngineRuns.RetriesAreBounded | packages/core/agent.go:745-822 | attempts of one step and the time slept between them stay within the configured bounds |
| EngineRuns.BackoffIsExact | packages/core/agent.go:789-818 | the time slept is that of the transient retries made |
| EngineRuns.SleptExact | packages/core/agent.go:1065-1071 | without 64-bit overflow the delays add up to base times a power of two less one |
| EngineRuns.DelayBound | packages/core/agent.go:1065-1071 | a wrapped-around delay is never longer than the unbounded one |
| EngineRuns.DelayWraps | packages/core/agent.go:1065-1071 | overflow or not, the n-th delay is the 64-bit reading of the base times two to the n |
| EngineBatch.SkippingIsASuffix | packages/core/agent.go:1441-1465 | the first call of a batch runs, a later one exactly if no ordinary input was waiting before it, and a skipped call's result touched nothing |
| EngineBatch.HostEventsSkipNothing | packages/core/agent.go:1446-1455 | host evidence in the queue skips no call |
| EngineResults.ResultsAreOutcomes | packages/core/agent.go:1441-1535 | over any run: a call that ran and was taken has its outcome's content, error flag, timing and context; one the host refused has exactly the message, as an error, with the timing and no context; a skipped one has the notice, as an error; and the names activated are those of the calls that ran and were taken, each once |
| EngineResults.ResultsAreSent | packages/core/agent.go:841-872 | a finished batch enters the transcript as one tool message of just these results and names |
| EngineBatch.RetriesRestore | packages/core/agent.go:745-822 | a retried attempt leaves the transcript as it was, up to queued user messages then delivered |
| GuardedRun.NoEighthRepetition | packages/core/agent.go:692-935 | engine and guard together: while the loop works, nothing observed since the last ordinary input occurs eight times among the last 64 observations |
| GuardedRun.RepetitiveIff | packages/core/agent.go:692-935 | a run ends as repetitive if and only if the newest observation occurs eight times there, and the eighth occurrence ends it at once |
| GuardedRun.FifthIsRemarkedIff | packages/core/agent.go:833-935 | an observation is remarked on, with its event and its prompt as a user message, if and only if it is the fifth like it among the last 64 and the guard still runs |
| GuardedRun.InputForgets | packages/core/agent.go:433-441 | delivering an ordinary message forgets all observations, delivering host evidence none |
| GuardedRun.RequestForgets | packages/core/agent.go:656-676 | a new request forgets them too, a continuation does not |
| Trail.PathIsRun | packages/core/agent.go:692-935 | every state the object passes through is a state of some run of the engine |
| Agent.Agent.QueuePrompt | packages/core/agent.go:321-332 | takes the blanks off both ends, refuses an empty prompt, appends with its acceptance time |
| Agent.Agent.PopQueuedMessage | packages/core/agent.go:356-366 | takes back the newest entry |
| Agent.Agent.PopQueuedUserMessage | packages/core/agent.go:370-385 | takes back the newest ordinary entry and keeps the order of the rest |
| Agent.Agent.DrainQueuedMessages | packages/core/agent.go:389-417 | takes back everything |
| Agent.Agent.Fire | packages/core/agent.go:626-634 | a hook call outside the lock reports the oldest unreported change |
| Agent.Agent.AppendMessage | packages/core/agent.go:572-584 | one append, reported once |
| Agent.Agent.DeliverQueued | packages/core/agent.go:419-449 | the queue's messages are appended in order: each is a user message with the text as first block, if there is one, and then the images |
| Agent.Agent.DeliverAtStep | packages/core/agent.go:701-703 | late input is in the transcript before the step's model call |
| Agent.Agent.DeliverAtRetry | packages/core/agent.go:817-821 | and before a retried attempt |
| Agent.Agent.OpenTurn | packages/core/agent.go:704-732 | a stopped guard ends the run as repetitive, a refusing hook ends it as finished, otherwise the step opens |
| Agent.Agent.AppendDynamicContext | packages/core/dynamic_context.go:37-71 | host context is recorded only when it changed, the first in front of the conversation |
| Agent.Agent.ComposeContext | packages/core/agent.go:733-744 | each step records what the host then gives |
| Agent.Agent.OneTurn | packages/core/agent.go:1330-1389 | the reply is the provider's; it enters the transcript unless it is empty or an aborted one with calls |
| Agent.Agent.DropAssistantMessageAfter | packages/core/agent.go:1089-1096 | removes the last message exactly if it is a reply beyond the mark |
| Agent.Agent.SleepRetry | packages/core/agent.go:1073-1085 | a back-off ends early exactly under a cancellation that is noticed, and without a delay under any |
| Agent.Agent.GiveUpOrDrop | packages/core/agent.go:749-792 | a timeout or a passing error is retried exactly while its own budget lasts and the context is live; what is dropped, the delay, and the counters |
| Agent.Agent.OneAttempt | packages/core/agent.go:749-822 | one attempt: taken, given up, or taken back without a trace in the transcript |
| Agent.Agent.Attempts | packages/core/agent.go:745-822 | the attempt loop ends, in a success or a failure of the run; behind the transcript it started on stand just the input that arrived meanwhile and at most one reply, on success the one that succeeded |
| Agent.Agent.UserWaiting | packages/core/agent.go:1447-1454 | scans the queue for ordinary input: found exactly if an entry is no host evidence |
| Agent.Agent.StartOneCall | packages/core/agent.go:1446-1464 | a call is skipped exactly if one before it was, or it is not the first and ordinary input waits |
| Agent.Agent.FinishOneCall | packages/core/agent.go:1485-1515 | asks the tool unless the call is skipped, asks the host to persist, and adds one result: content, error flag, timing and context as `EngineResults.ResultsAreOutcomes` has them |
| Agent.Agent.ExecuteTools | packages/core/agent.go:1433-1535 | one result per call of the reply in order, each with what its tool gave, the refusal, or the notice; and the names the taken results activate |
| Agent.MirrorToolImages | packages/core/agent.go:1631-1658 | the mirror's parts, by the nested loops |
| Agent.MirrorOne | packages/core/agent.go:1631-1658 | of a block alone: images and texts of 1 to 500 bytes inside results are mirrored, nothing else |
| Agent.MirrorOnlyForImagesIff | packages/core/agent.go:848-866 | for all results: the mirror is sent only when there is an image if and only if the provider needs no mirror, or there is an image, or no short text either |
| Agent.TextAloneIsMirrored | packages/core/agent.go:848-866 | a result of one short text and no image is mirrored |
| Agent.Agent.SendResults | packages/core/agent.go:841-872 | tool message and mirror enter in one lock section and are reported in order; the mirror is the fixed text followed by the parts |
| Agent.Agent.AfterTools | packages/core/agent.go:873-886 | a cancelled context ends the run before the guard is asked; else the guard judges every executed call until it halts, each warning becomes a prompt, and without a halt the next step is due |
| Agent.Agent.ContinueReply | packages/core/agent.go:827-839 | a reply to be continued: cancelled, the run ends; with late input waiting the next step is due; else the guard's verdict decides |
| Agent.Agent.EndReply | packages/core/agent.go:888-928 | a reply that ends the turn: late input keeps it going unless the context is over; else stop reason, denial, verdict, missing answer and earlier recovery decide as stated |
| Agent.Agent.RecoverTurn | packages/core/agent.go:909-924 | the one continuation after an answerless end, with the recovery text as a user message |
| Agent.Agent.RunLoop | packages/core/agent.go:692-935 | the loop stays on a run of the engine and ends whenever the step limit is positive |
| Agent.Agent.SendPrompt | packages/core/agent.go:640-666 | an empty prompt is refused and changes nothing; any other is the first row written: a user message with the text, if any, as first block, and the images in order |
| Agent.Agent.Continue | packages/core/agent.go:670-676 | the loop on the transcript as it stands |
| Agent.Agent.Compact | packages/core/compact.go:35-205 | a refused compaction changes neither transcript nor log; a successful one replaces both, and the message behind the host context tells the summary |
| Agent.Agent.JournalReplays | packages/core/agent.go:626-634 | of every reachable object: the journal replays to the transcript if and only if no retry of its run since the last replacement took back a reply already written |
| Agent.Agent.NothingQueuedIsLost | packages/core/agent.go:321-449 | of every reachable object: no accepted message is lost |
| Plan.ChangesAreValid | packages/core/plan.go:81-159 | a change that is not rejected is a valid checklist; only show returns without validation, and returns the plan |
| Plan.PreviewAnswers | packages/core/plan.go:81-159 | what each request asks for, step by step: set and add give the steps with omitted statuses pending, update changes the named fields of one step, remove takes one out, clear leaves none; and each refusal has its reason, the first faulty step included |
| Plan.AnswersAreUnique | packages/core/plan.go:81-159 | a request asks for one list only |
| Plan.CallTakesEffectIff | packages/core/agent.go:1470-1526 | after any run, a call is written and becomes the checklist if and only if it changes the list and the session file takes it; both are then the list asked for |
| Plan.WriteAhead | packages/core/agent.go:1470-1526 | over any calls and failing writes the agent's checklist is the session's, is the last one written, and every one written is valid |
| Plan.UnhookedParts | packages/core/agent.go:1490-1498 | without a commit hook the two part |
| Plan.FailuresLeaveNoTrace | packages/core/agent.go:1470-1498 | a rejected, shown or unwritten call anywhere in a run can be left out: all later calls do the same without it |
| Plan.ReloadIsIdentityIff | packages/core/session.go:1515-1544 | normalization on reload gives a checklist back unchanged if and only if it is valid |
| Plan.NormalizedConcat | packages/core/session.go:1515-1544 | a reload looks at each step by itself and keeps the order |
| Plan.NormalizedOne | packages/core/session.go:1515-1544 | it drops a blank step or one of unknown status, and reads an omitted status as pending |
| Plan.StoredPlansReload | packages/core/session.go:1515-1544 | so a reload after any run gives the agent's checklist |
| Plan.RemoveUndoesAdd | packages/core/plan.go:102-128 | removing the step just added gives back the plan |
| Plan.ClonePlanSteps | packages/core/plan.go:238-245 | an independent copy |
| Plan.DefaultPlanStepStatuses | packages/core/plan.go:164-171 | omitted statuses become pending, in place |
| Plan.ValidatePlanSteps | packages/core/plan.go:147-159 | the first fault, by the loop |
| Plan.SessionFile.UpdatePlan | packages/core/session.go:1381-1401 | a failed write puts the old checklist back |
| Plan.PlanAgent.SetPlan | packages/core/plan.go:35-46 | seeds the normalized steps in an array of its own |
| Plan.PlanAgent.CurrentPlan | packages/core/plan.go:50-57 | a copy that shares nothing with the agent |
| Plan.PlanAgent.PreviewPlanOperation | packages/core/plan.go:81-141 | the loops and copies give the one list the request asks for, or the reason it is refused |
| Plan.PlanAgent.CommitPlanUpdate | packages/core/plan.go:75-79 | stores a copy |
| Plan.PlanAgent.PlanCall | packages/agent/cli.go:434-459 | preview, write, commit: a call that does not fail makes both checklists the one asked for, a failing one changes neither, and nothing is shared |
| PlanBlock.PlanContextBlock | packages/core/compact.go:221-238 | the rendering loop |
| PlanBlock.RenderIs | packages/core/compact.go:221-238 | the block is the header, one line for each of the first twelve steps, and a remark with the number of further ones |
| PlanBlock.LinesGrow | packages/core/compact.go:221-238 | each line has the step's number, its mark and its text |
| PlanBlock.DecimalSpells | packages/core/compact.go:221-238 | numbers are spelled in decimal digits |
| PlanBlock.LastIndex | packages/core/compact.go:263-269 | the last occurrence of the header |
| PlanBlock.StripPlanContextBlock | packages/core/compact.go:263-269 | the text in front of the last header |
| PlanBlock.MergePlanContextBlock | packages/core/compact.go:244-259 | merging, and the messages it leaves alone |
| PlanBlock.SecondMergeReplacesIff | packages/core/compact.go:215-269 | a second merge replaces the first block if and only if the base ends in no blank and the first block contains no second header |
| PlanBlock.RenderedFindableIff | packages/core/compact.go:215-238 | a rendered block contains no second header if and only if no shown step contains the header |
| PlanBlock.QuotedHeaderDuplicates | packages/core/compact.go:241-269 | a step that quotes the header makes the second merge leave part of the first block |
| Repair.RepairOrphanedToolResults | packages/provider/provider.go:142-166 | the counting loop against its specification |
| Repair.FilteredOne | packages/provider/provider.go:142-166 | a result whose call is not open goes, anything else stays; a call opens its ID, a result that stays closes it |
| Repair.RepairIsIdempotent | packages/provider/provider.go:133-166 | repairing again changes nothing |
| Repair.PairedIff | packages/provider/provider.go:133-141 | reading pairing from left to right is the same as every call answered next and no orphan |
| Repair.TailIsPaired | packages/core/compact.go:168-173 | a tail cut anywhere out of a paired conversation is paired after repair |
| Repair.RepairPaired | packages/provider/provider.go:133-166 | repair of a paired transcript drops only empty messages |
| Compaction.LatestInternalContext | packages/core/dynamic_context.go:95-107 | newest host context and the conversation without any |
| Compaction.TalkConcat | packages/core/dynamic_context.go:95-107 | the conversation is looked at message by message and keeps its order |
| Compaction.TalkOne | packages/core/dynamic_context.go:95-107 | host context does not belong to it, every other message does |
| Compaction.ReadStream | packages/core/compact.go:109-136 | the summary is the text of all deltas unless the stream failed |
| Compaction.Build | packages/core/compact.go:35-191 | the new transcript, or the first reason to refuse; the summary message is the header, an empty line and the summary |
| Compaction.CompactionShape | packages/core/compact.go:155-191 | at most one host context, the newest with the checklist, first; then one user text made of the header, two line breaks and the trimmed text of the deltas; then the repaired last messages of the conversation, as many as asked for, none if negative |
| Compaction.SummaryStands | packages/core/compact.go:155-191 | the summary message says the summary and carries the activated names, each once |
| Compaction.CompactsIff | packages/core/compact.go:35-145 | a compaction succeeds exactly if there is conversation beyond the tail, fast mode is allowed, the stream opens and does not fail, and its text is not blank |
| Compaction.DeltasConcat | packages/core/compact.go:109-136 | the text of a stream is that of its parts, in order |
| Compaction.DeltasOne | packages/core/compact.go:109-136 | a delta gives its text, any other event none |
| Compaction.CompactionKeepsPairs | packages/core/compact.go:172-191 | from a paired transcript to a paired one |
| Compaction.CompactionKeepsTools | packages/core/compact.go:147-191 | which tools are active afterwards |
| Compaction.ToolsUnchangedIff | packages/core/compact.go:147-191 | the active tools are unchanged if and only if no superseded host context alone had activated one |
| Compaction.SupersededToolIsLost | packages/core/compact.go:147-191 | a concrete transcript that loses a tool |
| Compaction.ActivatedExactly | packages/core/compact.go:147-154 | the summary lists every activated name once |
| ResidentProofs.SteeringIsAllOrNothing | packages/agent/subagent_factory.go:31-62 | when a run succeeds under a live context every accepted steer is in the transcript or was given back, the queue is empty and the window closed |
| ResidentProofs.DrainReportsTheRest | packages/agent/subagent_factory.go:76-83 | however a run ended, draining accounts for every steer exactly once |
| ResidentProofs.ContinuationsAreBounded | packages/agent/subagent_factory.go:36-52 | at most one continuation per accepted steer |
| ResidentProofs.StepBudgetSurvivesRecovery | packages/agent/subagent_factory.go:160-264 | an explicit limit holds over both parts of a turn, the agent's limit is restored, recovery happens at most once |
| ResidentProofs.FailedRecoveryRestores | packages/agent/subagent_factory.go:228-279 | without a summary or without its checkpoint the turn ends on exactly the transcript the provider rejected, whatever was steered meanwhile; with it, memory and journal hold the same conversation |
| ResidentProofs.UsedCountsStarts | packages/agent/subagent_factory.go:176-185 | the sink's high-water mark is the number of steps started |
| ResidentOutcomes.TurnStartsWithPrompt | packages/agent/subagent_factory.go:160-198 | a turn begins with its prompt as a user message behind the transcript, or on the transcript as it stands; on the whole limit, under a context that lives exactly if the parent's does |
| ResidentOutcomes.RecoversIff | packages/agent/subagent_factory.go:194-212 | a returned turn recovers if and only if the provider rejected the transcript of its first part for its length, under a live context and with the journal intact; otherwise it closes with its error |
| ResidentOutcomes.ResumesOnTheRest | packages/agent/subagent_factory.go:246-264 | after the checkpoint the turn goes on, on the compacted transcript, exactly if steps are left, with just those left |
| ResidentOutcomes.ErrorIsTheTurns | packages/agent/subagent_factory.go:160-264 | whatever recovery was tried, a turn closes and Run returns with exactly what the agent's last run came to, or with the journal's failure if there was one |
| ResidentOutcomes.WindowClosesIff | packages/agent/subagent_factory.go:31-53 | the window closes exactly if the turn failed, the context is over or nothing waits; otherwise the turn is continued on the whole limit |
| ResidentRuntime.Runtime.Run | packages/agent/subagent_factory.go:31-53 | the object's loop: the prompt is the first row written; success under a live context leaves nothing queued and everything accounted for |
| ResidentRuntime.Runtime.TryClose | packages/agent/subagent_factory.go:44-50 | the lock section at the end of a turn: it closes exactly if the turn failed, its context is over or nothing is queued |
| ResidentRuntime.Runtime.Serve | packages/agent/subagent_factory.go:36-53 | the loop of continuations, up to a bound on its rounds |
| ResidentRuntime.Runtime.Steer | packages/agent/subagent_factory.go:55-62 | accepted exactly while a run is open and the text is not blank |
| ResidentRuntime.Runtime.DrainSteers | packages/agent/subagent_factory.go:76-83 | gives back the texts in order |
| Reminder.ResidentContextReminderBand | packages/agent/subagent_factory.go:314-325 | the highest band reached |
| Reminder.BandIsHighest | packages/agent/subagent_factory.go:314-325 | a band is reached, in percent of the window, exactly if it is no higher than the one returned |
| Reminder.BandsIncrease | packages/agent/subagent_factory.go:281-309 | announced bands strictly increase and end with the highest reached |
| Reminder.AtMostThree | packages/agent/subagent_factory.go:281-285 | at most three announcements per child |
| Reminder.AnnouncedIff | packages/agent/subagent_factory.go:287-309 | a band is announced if and only if some turn reaches it and every earlier turn's band is lower |
| Reminder.ContextNudge.BeforeTurn | packages/agent/subagent_factory.go:296-308 | the closure announces exactly the new bands |
| Args.ParseArgs | packages/agent/args.go:171-384 | the index-driven loop against its specification, with terminator, repeatable flags and session-ID lookahead |
| ArgsMeaning.LineMeans | packages/agent/args.go:171-384 | what a line means, read as switches, flags with values and words: each single setting is the last value given for it, each list holds every value in order, switches add up, the last mode counts, the resume flag takes the ID behind it, and the prompt is the words and what follows the terminator; it is refused exactly where the reading stops, for that reason, or if statistics are asked for outside print mode |
| Args.JoinConcat | packages/agent/args.go:366-368 | words are joined in order with one space between them |
| ArgsMeaning.Reading | packages/agent/args.go:171-384 | every line can be read so, up to its end, the terminator or its first fault |
| ArgsMeaning.ReadingIsUnique | packages/agent/args.go:171-384 | and in one way only |
| ArgsMeaning.FlagNames | packages/agent/args.go:184-364 | two dashes name a flag with a value or a switch, one dash a short flag, and nothing else is a flag |
| Args.ProgramHasSettings | packages/agent/args.go:184-364 | the program's flags that take a value, and the setting of each |
| Args.ZutfileClientArgs | packages/agent/zutfile.go:207-236 | the printing loops against their specification |
| Args.RoundTrip | packages/agent/zutfile.go:204-236 | with clean values and no lone empty argument, parsing the printed line gives the packaged agent's provider, model, prompts and leaves every other option |
| Args.RoundTripIff | packages/agent/zutfile.go:204-236 | for any flag tables in which neither the terminator nor a flag is a session ID: the printed line means what it should for every change if and only if no flag value is the terminator and the positional arguments are not one empty string |
| Args.ProgramIsSound | packages/agent/args.go:184-364 | the program's flag tables are such, because no flag is as long as a UUID's digits and none has a daemon ID's letters |
| Args.ProgramRoundTripIff | packages/agent/zutfile.go:204-236 | so the same holds of the program, whatever the readings of UUIDs and of other values do |
| Args.TerminatorAsModel | packages/agent/zutfile.go:207-236 | a line that fails: the terminator as the model's name |
| Args.LoneEmptyArgument | packages/agent/zutfile.go:207-236 | a line that fails: one empty argument |
| ModelCache.FilterCacheByProviderScopesExcept | packages/agent/modelsync.go:163-197 | the loop over scoped providers, in any order, against its specification |
| ModelCache.FilterKeepsExactly | packages/agent/modelsync.go:155-197 | a provider keeps its models, mark and scope whole and in order, or loses all of them, exactly if its recorded scope is another than the current one and it is not exempt |
| ModelCache.FilterIsIdempotent | packages/agent/modelsync.go:163-197 | filtering twice is filtering once |
| ModelCache.MergeDiscovered | packages/agent/modelsync.go:646-665 | the merge loop takes the discovered providers one after the other, in any order; the result merges provider by provider when models carry the provider they were discovered for |
| ModelCache.TakenIs | packages/agent/modelsync.go:646-665 | for any discoveries in any order: a provider found has the discovery's mark and scope, any other the old ones, and each has the models of its name that it or a provider taken after it listed, a provider not found also its old ones |
| ModelCache.AllTakenMerges | packages/agent/modelsync.go:646-665 | under that labelling the order does not matter |
| ModelCache.MislabelledDependsOnOrder | packages/agent/modelsync.go:646-665 | without it, it does |
| ModelCache.Publish | packages/agent/modelsync.go:604-694 | what is published, exactly when nothing is, and its freshness, for any discoveries |
| ModelCache.PublishedIsWhole | packages/agent/modelsync.go:613-694 | authority mark and scope of each provider are both the discovery's, both the filtered cache's, or both gone; and so are its models when discovered models carry the provider they were discovered for |
| ModelCache.ConcurrentGoSurvivesIff | packages/agent/modelsync.go:613-645 | a concurrently written OpenCode Go scope survives if and only if its cache has the current format |
| ModelCache.OldFormatLosesGo | packages/agent/modelsync.go:613-645 | a refresh in which such a scope is lost |
| ModelCache.FreshnessAdvancesOnlyWhenComplete | packages/agent/modelsync.go:670-685 | freshness advances exactly after a complete full refresh |
| ModelCache.FreshnessIsLastComplete | packages/agent/modelsync.go:604-694 | over any chain of refreshes the freshness is the time of the last full one in which every eligible provider answered |
| WebGuard.RevocationIsPermanent | packages/agent/web_search_guard.go:24-63 | after a revocation that found the capability on has returned, no earlier wrapper passes its check again under any interleaving |
| WebGuard.RevocationStaysPending | packages/agent/web_search_guard.go:24-38 | a revocation under way stays under way until its own second operation, whatever other threads do |
| WebGuard.WindowIsReal | packages/agent/web_search_guard.go:28-35 | between the revocation's two operations an earlier wrapper still can |
| WebGuard.PassesAreCurrent | packages/agent/web_search_guard.go:85-87 | a check that passes does so for the generation of its moment |
| WebGuard.Guard.SetAvailable | packages/agent/web_search_guard.go:24-38 | the generation moves exactly on an allow-to-deny transition |
| WebGuard.WrapRegistry | packages/agent/web_search_guard.go:40-63 | every web tool not yet wrapped by this guard is stamped, everything else is left |
| WebGuard.WorksUntilRevoked | packages/agent/web_search_guard.go:85-94 | with whole calls a wrapper works exactly while the capability is allowed and was not revoked since |
| WebGuard.WrapperOutlives | packages/agent/web_search_guard.go:85-94 | the same on the object |

## Left out

- Agent.Agent.RunLoop: takes a horizon of steps, because without a step limit the loop need not end; the fields after the horizon are still those of a run.
- Agent.Agent.AppendDynamicContext: starts from the joined text; time context, trimming and the 16 KiB bound of its parts are not modelled.
- Agent.Agent.OneTurn: the stream's events, the idle timer and fast-mode validation are folded into the outcome; the provider is taken to answer in the assistant role.
- Queue.AcceptKeeps: acceptance times are readings of a strictly increasing clock, and trimming removes ASCII blanks only.
- EngineRuns.DelayBound: durations are in nanoseconds, 64 bits wide with wrap-around; the timer's own accuracy is not modelled.
- ResidentProofs.FailedRecoveryRestores: the compacted transcript is any transcript; how it is built is in module Compaction. A child's agent has no persistence hooks, so the engine's log plays no part.
- ResidentRuntime.Runtime.Run: takes, like Serve, a bound on its rounds, and without a journal the turn's context is the run's; recovery and step budget are proved on the machine of module Resident.
- WebGuard.RevocationIsPermanent: the generation counter is unbounded, so the theorem does not cover 2^64 revocations.
- GuardedRun.RepetitiveIff: the guard is taken to be enabled; disabled, it gives no verdict.
- Args.ParseArgs: the readings of UUIDs, reasoning levels, numbers and tool lists are parameters; environment and working directory are set outside.
- Plan.PlanAgent.PreviewPlanOperation: the texts shown to the model for a plan operation are not modelled.
- Error-text matching in `canRetryError` and `classifyRetryReason`: errors come as classes.
- `repetitionCallObservations` and the fingerprints themselves: the guard sees opaque fingerprints.
- `classifyTerminalAssistant` and `repairToolUseResultPairs`: an oracle and no part of the stored transcript.
- Annotation of message times in `projectProviderMessages`.
- Goal and extension state in `persistToolResultState`; only the checklist's half is modelled.
- Concurrent host calls that replace the transcript, and two runs on one agent.
- `trimMessagesForResume`, `LoadSession`, provider clients, credentials, sockets, MCP, extensions, the terminal interface.

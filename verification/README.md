# Verified model of the agent runtime's protocols and state

A Dafny model of the stateful core of `agent-runtime`: what concurrent savers, stopped procedures, restarted
processes, queued turns and a seller's presses may do to each other, and what the runtime promises about it.
`dafny verify dfyconfig.toml` checks the whole project.

| component | modules |
|---|---|
| dates, period windows, review claims | `Calendar`, `Period`, `ReviewClaim` |
| conversation store under concurrent savers | `Transcript`, `SaverProtocol`, `RecencyIndex`, `ConversationStore` |
| one turn at a time per conversation | `Lanes` |
| procedures as data, their cursor and its claim | `Procedure`, `CursorStore`, `ProcedureRuntime`, `RunnerProtocol` |
| the six shipped procedures and their routing | `Catalogue`, `ServiceProcedures` |
| approvals that survive a restart | `ReviewRuntime`, `ResumeGate`, `LeasedGate`, `InquiryRuntime` |
| the seller's sentence, from asked to saved | `Candidate`, `KnowledgeFence`, `FigurePattern`, `KnowledgeGap`, `VariantNaming`, `WorkingSet`, `Conversation` |
| narrowing and wording an answer | `VisibleFilter`, `SentenceDedupe` |
| shared vocabulary | `Base`, `Claiming`, `Counting`, `Text` |

Three forms recur. Pure code is functions with lemmas. Code that updates fields is classes whose methods are
proved equal to a function on values (`State() == F(old(State()))`), and the properties are proved about that
function. Code in which several parties move between awaits is a state machine over single steps, with
`After(events)` the world after any list of events; an event that is not possible where it stands changes
nothing, so the theorems hold for every list.

## Where the code and a reader's expectation part

Each of these is a lemma, with the exact condition under which the expectation does hold.

- Once forty turns are stored, a save built on an old view stores an evicted turn again, after newer ones
  (`Transcript.MergeExact`, `Transcript.EvictedTurnReturns`).
- The thirty-day overview does not cover the month tokens in general (`Period.OverviewCovers`).
- A claim does not re-read the cursor, so a run can be granted on references that were replaced since it loaded
  (`RunnerProtocol.StaleResume`); a run that loaded no cursor takes no claim (`RunnerProtocol.TwoFreshRuns`), and
  its save is the one step that takes a cursor from under a resumed run, so that two resumed runs work at once
  (`RunnerProtocol.OnlyAFreshSaveBreaksIn`, `RunnerProtocol.TwoResumedRuns`).
- The definitions are documented to list only terminals they can reach; with the service's handlers five of the
  six list more (`ServiceProcedures.ExactlyTheseTerminals`).
- The in-memory run store never gives a resume claim back: a granted request that throws at any await before its
  outcome is stored ends a thread that was parked once, and nothing else does (`ResumeGate.AFailureWedges`,
  `ResumeGate.StuckIffFailed`, `ResumeGate.RefusedForGoodIffStuck`); a finished thread that is started over is ended
  too (`ResumeGate.StartedOverIsStuck`).
- At that store a thread started over under a request that was let in to replay it is minted again when that request
  approves, and more often than it was started (`ResumeGate.MintedAgainIff`, `ResumeGate.TheGuardIsNeeded`,
  `ResumeGate.ThreeMintsTwoParks`); when it declines it is not (`ResumeGate.ADecliningReplay`), and with no start under
  such a request a thread is minted at most once (`ResumeGate.GuardedMintsOnce`).
- The backend's store wedges no thread and keeps the first outcome (`LeasedGate.NeverWedged`, `LeasedGate.OneOutcome`),
  but a lease that runs out under a request that minted, or still may, lets two mint (`LeasedGate.MintedAgainIff`,
  `LeasedGate.TheLeaseIsNeeded`, `LeasedGate.SlowHolderMintsTwice`) or stores a minted thread as declined
  (`LeasedGate.DeclinedOverAMint`); short of that it mints at most once and stores which (`LeasedGate.HeldLeasesMintOnce`).
- At the in-memory cursor store a procedure's run that throws keeps its claim, so its thread is refused for good,
  unless an older run that loaded no cursor still saves one (`RunnerProtocol.RefusedForGoodIffStuck`,
  `RunnerProtocol.AThrowWedges`).
- The inquiry runtime's live path does not look at the store first, unlike the review runtime's
  (`InquiryRuntime.DoneIsRecordedAgain`, `InquiryRuntime.FinishedChanges`, `InquiryRuntime.ApprovalOverwritten`).
- A save whose answer was lost and that is pressed again writes the row twice (`Conversation.WrittenExactly`,
  `Conversation.WrittenTwiceIff`, `Conversation.DoubleWrite`).
- A direct answer carries an open question to another inquiry (`Conversation.OnlyADirectAnswerLeadsAstray`).
- A fact stated for all variants stays filed under a variant named earlier (`Conversation.GenericAnswer`,
  `Conversation.GenericAfterOne`).
- Two telling tokens, even of one option, are understood only as part of its whole name
  (`VariantNaming.WhatIsSaid`, `VariantNaming.TwoTokensAreUnresolved`, `VariantNaming.OrderMatters`).
- Contradicting figures are looked for one way only (`KnowledgeFence.LeavingAFigureOut`,
  `FigurePattern.OneWayOnly`).

## Assumptions

Parameters stand for what the code calls but does not compute: handler and model results, reads that may fail,
backend answers, other writers' drafts, the classification of a sentence, the near-duplicate patterns, the
collation order of strings, the reference day. The fence takes any reading of figures; `FigurePattern` is the
shipped one. Content fingerprints are taken as collision-free; fresh ids are fresh. A put succeeds exactly when
the row has not moved since this client last saw it. Strings are sequences of characters.

## Model

| member | source | states |
|---|---|---|
| Calendar.IsoRoundTrip | agent-runtime/src/conversation/period.ts:14-20 | for every date with a four-digit year, reading its string as a day and printing the day gives the string back |
| Calendar.DayRoundTrip | agent-runtime/src/conversation/period.ts:14-20 | every day number inside years 0000-9999 prints to a valid string that reads back to it |
| Calendar.DateOfDayOf | agent-runtime/src/conversation/period.ts:14-20 | day number to date inverts date to day number, leap years of Appendix C of RFC 3339 included |
| Calendar.DayOrder | agent-runtime/src/conversation/period.ts:18-20 | day numbers order dates exactly as year, month, day do, and no two dates share one |
| Calendar.IsoOrder | agent-runtime/src/conversation/reviewClaim.ts:65-66 | string order on full dates (section 5.6 of RFC 3339) is day order (section 5.1), both directions |
| Calendar.IsoBound | agent-runtime/src/conversation/period.ts:14-16 | a printed day compares with every valid row as the day itself does, years before 0000 included |
| Calendar.YearStep | agent-runtime/src/conversation/period.ts:14-20 | consecutive January firsts are 365 or 366 days apart by the leap rule, for every year |
| Period.WindowSelects | agent-runtime/src/conversation/period.ts:32-71 | main result: for every token and day, comparing a row's date with the window's bounds as strings selects exactly the rows the token denotes (clamped trailing days, Monday-to-Sunday week, whole previous calendar month) |
| Period.LastMonthSelects | agent-runtime/src/conversation/period.ts:65-69 | the previous-month window holds exactly the rows whose month index is one less |
| Period.WindowsAbut | agent-runtime/src/conversation/period.ts:53-69 | last week ends the day before this week's Monday and last month the day before this month's first |
| Period.DaysBetweenInverts | agent-runtime/src/conversation/period.ts:91-94 | adding whole days and measuring the distance are inverse |
| Period.OverviewCovers | agent-runtime/src/conversation/period.ts:74-88 | the overview read covers the window if and only if it is a day or week token, at most thirty trailing days, or a month span that fits thirty days |
| Period.LastOfPreviousMonth | agent-runtime/src/conversation/period.ts:66-67 | the day before a first of the month is the last day of the month before, year ends and leap Februaries included |
| ReviewClaim.ClaimsFor | agent-runtime/src/conversation/reviewClaim.ts:58-88 | the nested loops produce, run by run in order, the one claim each finished run earns |
| ReviewClaim.CountsThePeriod | agent-runtime/src/conversation/reviewClaim.ts:65-66 | the string filter counts exactly the rows written on days the period denotes; an unbounded read counts every dated row |
| ReviewClaim.UpperCases | agent-runtime/src/conversation/reviewClaim.ts:63-65 | upper-casing changes the twenty-six small letters to their capitals and nothing else |
| ReviewClaim.RunByRun | agent-runtime/src/conversation/reviewClaim.ts:61-88 | claims are made run by run in the order of the runs, each from its own run alone |
| ReviewClaim.ClaimIsTrue | agent-runtime/src/conversation/reviewClaim.ts:62-86 | over a named period or an unbounded read: level B is claimed exactly when some row belongs and states their exact number; level C exactly when none does and the run brought rows in |
| Transcript.PersistableTwice | agent-runtime/src/conversation/contract.ts:1164-1205 | storing a stored turn changes nothing; no customer text or transient answer survives in it; its id, role, text and every artifact do, each with its kind, ids, version or lines and the first twenty rows of each list |
| Transcript.StoredForm | agent-runtime/src/conversation/contract.ts:1164-1205 | the stored form of a turn is the one that keeps exactly that: the same id, role and text, every artifact in order, lists cut to their first twenty rows with the same ids, and neither the answer nor customer text |
| Transcript.MergeKeeps | agent-runtime/src/conversation/ConversationStore.ts:191-197 | main result for one save: the merge holds the last forty of the stored turns followed by the incoming ones whose ids are not stored, in order, each as it may be stored, and everything else from the incoming view |
| Transcript.MergeExact | agent-runtime/src/conversation/ConversationStore.ts:191-197 | main result: merging leaves exactly the last forty turns of history plus additions if and only if the save was in order (nothing evicted yet, or the view no further behind than it adds) |
| Transcript.EvictedTurnReturns | agent-runtime/src/conversation/ConversationStore.ts:191-197 | concrete loss of order: a turn already evicted is stored again after a newer one |
| Transcript.ResurrectedIffOutOfOrder | agent-runtime/src/conversation/ConversationStore.ts:191-197 | turns come back from eviction exactly when the save is out of order |
| Transcript.AddedTurnsAreTheTail | agent-runtime/src/conversation/ConversationStore.ts:132-142 | under any contention and at any length, the turns a save adds are the tail of what it stores and its continuation wins |
| SaverProtocol.Linearizable | agent-runtime/src/conversation/ConversationStore.ts:132-148 | main result, every interleaving of load, guarded put and one retry by any number of savers: the row shows the last forty committed turns at every moment if and only if every commit was in order when it landed |
| SaverProtocol.BelowTheBound | agent-runtime/src/conversation/ConversationStore.ts:132-148 | while at most forty turns are committed, each stored transcript is a prefix of the later ones, repeats no id, and holds every turn of every save that returned and none of a failed one |
| SaverProtocol.SerialisedSavesNeverReorder | agent-runtime/src/conversation/ConversationStore.ts:132-148 | turns built only on the last saved row never lose order, at any length |
| SaverProtocol.Reachable | agent-runtime/src/conversation/ConversationStore.ts:132-148 | every step keeps distinct ids, one commit per returned save, and a guarded read equal to the row at its version |
| ConversationStore.SpringConversationStore.Save | agent-runtime/src/conversation/ConversationStore.ts:132-142 | the save fails exactly when others write in both windows, and then wrote nothing; otherwise the row is the view, or what stood there and what is new in the view, turn by turn with text, role, ids and artifacts kept, the last forty; a raced index touch is given up |
| ConversationStore.SpringConversationStore.TouchIndex | agent-runtime/src/conversation/ConversationStore.ts:176-183 | one touch: moved to the front and cut to fifty, or given up when raced |
| ConversationStore.RunStateClient.Put | agent-runtime/src/spring/AgentRunStateClient.ts:82-103 | a put is stale exactly when the row moved since this client last saw it; otherwise it advances the version |
| ConversationStore.RunStateClient.Get | agent-runtime/src/spring/AgentRunStateClient.ts:69-76 | a read remembers the version it saw |
| RecencyIndex.IndexIsMostRecent | agent-runtime/src/conversation/ConversationStore.ts:176-183 | after any touches the index is the first fifty of the uncut move-to-front list: each id once, newest touch first |
| RecencyIndex.RacingTouches | agent-runtime/src/conversation/ConversationStore.ts:176-183 | touches racing on one guarded row leave the index of the successful ones in commit order, at most fifty, no repeat |
| RecencyIndex.TouchOfFirst | agent-runtime/src/conversation/ConversationStore.ts:178-178 | cutting before or after a touch gives the same fifty |
| Lanes.MutualExclusion | agent-runtime/src/conversation/ConversationService.ts:432-441 | in every run, two turns of one conversation never run together and start in call order |
| Lanes.RemovalIsSafe | agent-runtime/src/conversation/ConversationService.ts:437-440 | an entry leaves the map only with nothing unfinished in its lane; when all turns have left the map is empty |
| Lanes.NeverBlocked | agent-runtime/src/conversation/ConversationService.ts:432-441 | whoever threw before, an unfinished lane always has a turn running or free to start |
| Lanes.Reachable | agent-runtime/src/conversation/ConversationService.ts:432-441 | arrival, start, finish and leave keep the chain, the call order and the map |
| Procedure.CompileProcedure | agent-runtime/src/aop/compile.ts:72-114 | compiling succeeds exactly on a non-empty definition with distinct ids whose handlers are all published, yields its chain, and otherwise names the first missing handler |
| Procedure.AddNodes | agent-runtime/src/aop/compile.ts:82-92 | every step becomes the node of its own handler; a duplicate is found exactly when ids repeat |
| Procedure.AddEdges | agent-runtime/src/aop/compile.ts:94-109 | every step leads to the next unless it settled, the last to the end |
| Procedure.CompiledRunsTheSteps | agent-runtime/src/aop/compile.ts:82-109 | main result: driving the compiled graph is the fold over the steps that stops right after the first terminal |
| Procedure.RunHasRecord | agent-runtime/src/aop/compile.ts:84-91 | every run has a step-by-step record in definition order, each step in the state and the context the step before it left, from those the run began with to those it ended in |
| Procedure.RecordReads | agent-runtime/src/aop/ProcedureState.ts:31-56 | the trail is the ids of the executed steps in order; of the steps come to, one is missing exactly when it is optional and its predicate is false in the state and context of that moment of that run; the references are the left-to-right merge of the executed updates |
| Procedure.LastWriteWins | agent-runtime/src/aop/ProcedureState.ts:31-56 | what an update writes stands and what it leaves out stays, field by field; references are replaced key by key; the trail grows |
| CursorStore.SanitizeKeepsTheWhitelist | agent-runtime/src/aop/AopCheckpointStore.ts:79-98 | exactly the eight declared references with a value survive, unchanged, nothing else of the cursor changes, and a second pass changes nothing |
| CursorStore.MemoryAopCheckpointStore.Claim | agent-runtime/src/aop/AopCheckpointStore.ts:143-150 | the one atomic claim: outcome and new state by cursor, terminal and standing claim |
| CursorStore.MemoryAopCheckpointStore.Save | agent-runtime/src/aop/AopCheckpointStore.ts:129-132 | a saved cursor is sanitized and claimable again |
| CursorStore.MemoryAopCheckpointStore.Delete | agent-runtime/src/aop/AopCheckpointStore.ts:138-141 | a deleted cursor takes its claim with it |
| CursorStore.MemoryAopCheckpointStore.Load | agent-runtime/src/aop/AopCheckpointStore.ts:134-136 | a load returns the stored cursor or none and changes nothing |
| ProcedureRuntime.ProcedureRuntime.Run | agent-runtime/src/aop/ProcedureRuntime.ts:100-157 | a stopped thread continues only on a granted claim, otherwise nothing changes and the stored state is returned; the final state is the fold seeded with the stored references; waiting saves the cursor, otherwise a loaded one is deleted |
| ProcedureRuntime.ProcedureRuntime.CompileAll | agent-runtime/src/aop/ProcedureRuntime.ts:82-85 | the catalogue compiles exactly when every definition does |
| ProcedureRuntime.AfterARun | agent-runtime/src/aop/ProcedureRuntime.ts:136-155 | a finished thread keeps neither cursor nor claim; a waiting one is claimable at once |
| ProcedureRuntime.CallerWins | agent-runtime/src/aop/ProcedureRuntime.ts:120-128 | a run begins with what its caller passed, in every field; else with its own id and version, the loaded cursor's references, and nothing else of that cursor |
| ProcedureRuntime.StoppedStateComesBack | agent-runtime/src/aop/ProcedureRuntime.ts:136-168 | a stopped state comes back from its stored cursor whole, but for references that do not travel; the cursor names its thread, conversation, last step, draft and moment |
| RunnerProtocol.ClaimProtocol | agent-runtime/src/aop/ProcedureRuntime.ts:112-156 | main result, every interleaving of any number of runs, each of which may throw at any await: claims exist only for stored cursors, two grants of a thread have a save or delete between them, and a run that loaded a cursor executes only after its own grant |
| RunnerProtocol.GrantedOnWhatWasLoaded | agent-runtime/src/aop/ProcedureRuntime.ts:112-128 | unless the thread was saved or deleted since the load, a grant is on exactly the loaded cursor |
| RunnerProtocol.OnlyAFreshSaveBreaksIn | agent-runtime/src/aop/ProcedureRuntime.ts:112-156 | one step breaks a resumed run's exclusivity if and only if it is a save by a run that had loaded no cursor while the thread is held |
| RunnerProtocol.AFreshSaveLetsIn | agent-runtime/src/aop/ProcedureRuntime.ts:112-156 | after such a save the next run that loads and claims the thread is granted beside the one at work, in every world |
| RunnerProtocol.TwoResumedRuns | agent-runtime/src/aop/ProcedureRuntime.ts:112-156 | a reachable world in which two resumed runs of one thread are at work at once |
| RunnerProtocol.OneResumeAtATime | agent-runtime/src/aop/ProcedureRuntime.ts:112-156 | without such a save at most one resumed run of a thread is ever at work, and it holds the claim |
| RunnerProtocol.RefusedForGoodIffStuck | agent-runtime/src/aop/ProcedureRuntime.ts:112-156 | main result, over every run and everything that may follow it: a thread's cursor refuses every later claim if and only if it is claimed, no resumed run is at work on it, and no run that loaded none can still save one |
| RunnerProtocol.AThrowWedges | agent-runtime/src/aop/ProcedureRuntime.ts:112-156 | one throw of the run that holds a cursor, with no older run left to save over it, ends the thread for good |
| RunnerProtocol.UninterruptedRun | agent-runtime/src/aop/ProcedureRuntime.ts:112-156 | the four steps in a row are the sequential run: same store, same verdict |
| RunnerProtocol.GrantedOnAReplacedCursor | agent-runtime/src/aop/ProcedureRuntime.ts:112-128 | a claim does not re-read: a late loader is granted after the holder stopped again, whatever is stored now |
| RunnerProtocol.StaleResume | agent-runtime/src/aop/ProcedureRuntime.ts:112-128 | a reachable world where the granted run stands on references the store has replaced |
| RunnerProtocol.TwoFreshRuns | agent-runtime/src/aop/ProcedureRuntime.ts:112-128 | two first runs of a thread both execute with no claim taken |
| Catalogue.SelectsLeastPriority | agent-runtime/src/aop/router.ts:48-50 | main result: for any catalogue order with distinct priorities the choice is the admitted definition of least priority, and none exactly when none is admitted |
| Catalogue.RoutingTable | agent-runtime/src/aop/procedures.ts:27-226 | the shipped catalogue routes every context by one closed table |
| Catalogue.SortSorts | agent-runtime/src/aop/procedures.ts:225-226 | the listing used for routing is the catalogue in ascending priority |
| ServiceProcedures.EveryRunIsSafe | agent-runtime/src/conversation/ConversationService.ts:1012-1262 | main result: with the service's handlers every run of a shipped definition ends in a declared terminal or hands back, never waits for a person, never runs an approval, execute or human-wait step, and drafts at most once, then answered |
| ServiceProcedures.OutcomeOfRuns | agent-runtime/src/conversation/ConversationService.ts:1012-1262 | main result: terminal, composed answer, draft count and references of every shipped run in closed form from the turn's inputs, a refused object answered without a draft |
| ServiceProcedures.DraftsOnlyWhatTakesOne | agent-runtime/src/conversation/ConversationService.ts:1095-1122 | the draft path is called if and only if a draft's tone is to change and its object still takes one, or an object in hand takes a draft |
| ServiceProcedures.ExactlyTheseTerminals | agent-runtime/src/aop/ProcedureDefinition.ts:199-200 | which declared terminals each definition reaches, both directions; all but one list more than they reach |
| ServiceProcedures.CatalogueCompiles | agent-runtime/src/aop/ProcedureRuntime.ts:82-85 | all six definitions compile against the service's table and fit the recursion limit |
| ServiceProcedures.BeginsAsSeeded | agent-runtime/src/aop/ProcedureRuntime.ts:120-128 | a run starts from its own id and version with the loaded cursor's references |
| ServiceProcedures.ServiceStoresNoCursor | agent-runtime/src/aop/ProcedureRuntime.ts:136-155 | a turn never stores a cursor for a shipped procedure and deletes the one it was granted |
| ReviewRuntime.ReviewAgentRuntime.Start | agent-runtime/src/reviewRuntime.ts:95-113 | a start parks and saves a waiting snapshot, or does nothing when the backend could send |
| ReviewRuntime.ReviewAgentRuntime.Resume | agent-runtime/src/reviewRuntime.ts:116-135 | a live resume replays a finished thread, otherwise records from memory and stores the outcome; else the durable path; a resume adds no call, or, signed and approving, the approval and then its session |
| ReviewRuntime.ReviewAgentRuntime.ResumeFromDurable | agent-runtime/src/reviewRuntime.ts:138-172 | the restart path: unknown, replay, or record on the stored version and finish |
| ReviewRuntime.ReviewAgentRuntime.PersistDone | agent-runtime/src/reviewRuntime.ts:193-205 | a finished run overwrites its snapshot, and nothing when none was parked |
| ReviewRuntime.ReviewAgentRuntime.PerformReviewRecord | agent-runtime/src/graph/performReviewRecord.ts:44-106 | an approval makes exactly two calls, first the approval of the parked version under the thread's command id, then the session for the same account and review; a rejection none |
| ReviewRuntime.MintedAtMostOncePerPark | agent-runtime/src/reviewRuntime.ts:116-172 | main result, any number of processes, restarts and resumes: a thread's guided session is minted at most once per park, and a waiting thread has one park unspent |
| ReviewRuntime.FirstOutcomeStands | agent-runtime/src/reviewRuntime.ts:116-147 | main result: after the first resume every later one, in any process and short of a new park, returns the same outcome and trail and makes no backend call at all |
| ReviewRuntime.RecordsOnlyWhatWasParked | agent-runtime/src/graph/performReviewRecord.ts:71-86 | every backend call of every history names an account, a review and a saved version that a run parked on |
| ReviewRuntime.MintFollowsItsApproval | agent-runtime/src/graph/performReviewRecord.ts:71-86 | main result: in every history each session minted directly follows the approval of the same thread, account and review, of a version that a run of that thread parked with; and every approval is directly followed by its session |
| ReviewRuntime.WhatIsTold | agent-runtime/src/reviewRuntime.ts:116-172 | the first resume of a parked thread, live or after a restart, answers the person's verdict on the parked review and version, with how it was resumed and what was recorded, and the stored snapshot is finished with just that |
| ReviewRuntime.StoredIsTrue | agent-runtime/src/reviewRuntime.ts:159-205 | in every history a stored approval is one the backend received, with its guided session, on that very version; the stored phase agrees with it; a waiting thread has no outcome |
| ReviewRuntime.InMemoryReviewRunStore.Claim | agent-runtime/src/checkpoint/ReviewRunStore.ts:65-72 | granted exactly when the thread waits and was not granted before; finished exactly when it is done |
| ReviewRuntime.InMemoryReviewRunStore.Save | agent-runtime/src/checkpoint/ReviewRunStore.ts:55-57 | saving stores the snapshot and gives no claim back |
| ReviewRuntime.InMemoryReviewRunStore.Delete | agent-runtime/src/checkpoint/ReviewRunStore.ts:61-64 | deleting takes the snapshot and its claim |
| ReviewRuntime.OnlyAnApprovalCalls | agent-runtime/src/checkpoint/ReviewCheckpointContract.ts:72-76 | a malformed, unsigned or negative decision makes no call and never approves |
| ReviewRuntime.FailsClosed | agent-runtime/src/reviewRuntime.ts:83-92 | from any state a history goes on exactly as if the starts and resumes that arrived while the backend could send had never been made, and exactly those are answered with the refusal |
| ReviewRuntime.ParkedAgainMintsAgain | agent-runtime/src/reviewRuntime.ts:107-111 | the bound is exact: a thread parked twice can be minted twice |
| ResumeGate.OneGrantPerThread | agent-runtime/src/checkpoint/ReviewRunStore.ts:65-72 | in every interleaving a thread is claimed by at most one request ever, and is claimed exactly when one was granted; a waiting thread is granted exactly when none was granted before |
| ResumeGate.MintOnceUnderConcurrency | agent-runtime/src/http/AgentRunService.ts:256-296 | main result: a thread parked once is minted at most once under any interleaving of concurrent requests, whatever each decides and wherever each throws; all answered requests get one outcome, an approval exactly when the thread was minted |
| ResumeGate.AFailureWedges | agent-runtime/src/http/AgentRunService.ts:274-293 | a claim is never given back: after a granted request threw at any await every later resume is refused for good, starting the thread over included |
| ResumeGate.StuckIffFailed | agent-runtime/src/reviewRuntime.ts:116-172 | main result: a thread parked once is stuck if and only if the one request let in to it threw at some await before its outcome was stored, the second capability check and the load included |
| ResumeGate.RefusedForGoodIffStuck | agent-runtime/src/checkpoint/ReviewRunStore.ts:55-72 | main result, over every run and everything that may follow it: a thread refuses every later resume if and only if it is waiting and claimed with nobody at work on it; otherwise some continuation lets a resume in or replays |
| ResumeGate.StartedOverIsStuck | agent-runtime/src/checkpoint/ReviewRunStore.ts:55-72 | starting a finished thread over leaves it waiting behind the claim it was finished on |
| ResumeGate.MintedAgainIff | agent-runtime/src/graph/performReviewRecord.ts:44-106 | main result: in every interleaving, however often a client starts the thread over, whatever is decided and whoever throws, it is minted more than once if and only if a request let in to replay minted and another request minted too |
| ResumeGate.MintsAreRequests | agent-runtime/src/graph/performReviewRecord.ts:71-86 | in every interleaving the mints of a thread are the requests that were minted for, each once, answered or not; a request that declines is minted for never |
| ResumeGate.GuardedMintsOnce | agent-runtime/src/http/AgentRunService.ts:229-281 | main result: while no start happens under a request let in to replay that has not looked yet, a thread is minted at most once for any number of starts |
| ResumeGate.TheGuardIsNeeded | agent-runtime/src/http/AgentRunService.ts:229-281 | after any history that minted the thread, one start under such a request, and its approval mints the thread again |
| ResumeGate.ParkedUnderAReplay | agent-runtime/src/http/AgentRunService.ts:274-293 | from any world with the thread finished: let in to replay, parked under, approved, and there is one mint more |
| ResumeGate.ThreeMintsTwoParks | agent-runtime/src/http/AgentRunService.ts:229-293 | a run in which two starts and three approvals lead to three mints |
| ResumeGate.ADecliningReplay | agent-runtime/src/graph/performReviewRecord.ts:48-68 | a run in which a request let in to replay declines what it finds parked: it records, and the thread was minted once |
| LeasedGate.OneOutcome | backend/src/main/java/com/sellerops/agentrun/AgentRunStoreService.java:133-192 | main result, every interleaving at the backend's store, leases that run out under slow requests and lost answers included: the first outcome stored stands for good and every request ever answered is answered with it |
| LeasedGate.NeverWedged | backend/src/main/java/com/sellerops/agentrun/AgentRunRepository.java:38-61 | a stored thread is refused if and only if a claim of it is no older than 120 seconds; whatever happened, once that has passed a resume is let in or replays |
| LeasedGate.MintedAgainIff | backend/src/main/java/com/sellerops/agentrun/AgentRunRepository.java:38-61 | main result: a thread is minted more than once if and only if two requests that were each granted it minted; no replay and no start ever adds a mint |
| LeasedGate.HeldLeasesMintOnce | backend/src/main/java/com/sellerops/agentrun/AgentRunStoreService.java:72-77 | main result: while leases run out only on requests that did not mint and no longer can, a thread is minted at most once and its stored outcome is an approval exactly when it was |
| LeasedGate.TheLeaseIsNeeded | backend/src/main/java/com/sellerops/agentrun/AgentRunRepository.java:38-61 | after any history, one lease that runs out on a request that minted or may, and two requests mint |
| LeasedGate.SlowHolderMintsTwice | backend/src/main/java/com/sellerops/agentrun/AgentRunRepository.java:38-61 | a reachable run: the holder mints, outlives its lease, and the next one mints too |
| LeasedGate.DeclinedOverAMint | backend/src/main/java/com/sellerops/agentrun/AgentRunStoreService.java:133-192 | a reachable run: the holder mints, outlives its lease, the next one declines, and the minted thread is stored as declined |
| InquiryRuntime.InquiryAgentRuntime.Start | agent-runtime/src/runtime.ts:98-108 | a start parks and saves a waiting snapshot carrying the candidate's fingerprint, never its text |
| InquiryRuntime.InquiryAgentRuntime.Resume | agent-runtime/src/runtime.ts:111-123 | a live resume records from memory, the person's title and comments each or else the parked ones, and overwrites the snapshot; else the durable path |
| InquiryRuntime.InquiryAgentRuntime.ResumeFromDurable | agent-runtime/src/runtime.ts:126-178 | the restart path: replay, refuse a changed draft, or record the person's or the parked text |
| InquiryRuntime.InquiryAgentRuntime.Record | agent-runtime/src/graph/performRecord.ts:39-115 | nothing on a rejection or without text; otherwise propose, reuse an identical head or save a new version, and approve that fingerprint, whatever another writer saved meanwhile |
| InquiryRuntime.InquiryAgentRuntime.PersistDone | agent-runtime/src/runtime.ts:196-205 | a finished run overwrites its snapshot, whatever its status was |
| InquiryRuntime.ApprovedText | agent-runtime/src/runtime.ts:126-178 | main result, over any history of parks, restarts and drafts saved by others: whatever reaches the backend was approved, call by call, and is of the person's own comments or the parked ones, never blank, under the person's own title or else the parked one; only after a restart, with own comments and the head no longer the parked draft, under the reply prefix and the subject |
| InquiryRuntime.RecordsThisText | agent-runtime/src/graph/performRecord.ts:70-97 | the recorded approval is of exactly the decided text, even when another writer replaces the head in between |
| InquiryRuntime.RecordsJustThat | agent-runtime/src/graph/performRecord.ts:66-97 | the calls of one approval in order: the proposal, the draft as the next version unless the head already is this text, the approval of that text under the thread's command id; no other inquiry changes |
| InquiryRuntime.WhatIsTold | agent-runtime/src/graph/performRecord.ts:39-115 | what is answered and stored: the verdict on the parked inquiry, its phase, the text approved, and the trail with how it was resumed and what was recorded |
| InquiryRuntime.RefusedWhenTheDraftChanged | agent-runtime/src/runtime.ts:151-155 | after a restart an approval without text is refused exactly when the head is not the parked draft, and nothing changes |
| InquiryRuntime.OnlyAnApprovalRecords | agent-runtime/src/graph/performRecord.ts:42-57 | a decision that does not approve makes no call and changes no draft |
| InquiryRuntime.MalformedRejects | agent-runtime/src/checkpoint/CheckpointContract.ts:57-61 | on both paths a malformed or unsigned decision leaves the backend as it is, and a thread that can be resumed is answered and stored as rejected, every other thread untouched |
| InquiryRuntime.NothingWithoutAnApproval | agent-runtime/src/checkpoint/CheckpointContract.ts:57-61 | no history in which nobody approves makes a backend call or stores an approval |
| InquiryRuntime.DoneIsReplayed | agent-runtime/src/runtime.ts:129-132 | on the restart path a finished thread is replayed with no call and no change |
| InquiryRuntime.FirstOutcomeStands | agent-runtime/src/runtime.ts:126-132 | main result: once a thread is finished and live in no process, every later resume anywhere returns the same outcome and trail and records nothing |
| InquiryRuntime.StoredApprovalsAreRecorded | agent-runtime/src/runtime.ts:175-205 | in every history a stored approval is one the backend received, of that very text; a waiting thread has no outcome |
| InquiryRuntime.DoneIsRecordedAgain | agent-runtime/src/runtime.ts:115-121 | a finished thread reaches the backend again if and only if it is still live in that process and approved with text |
| InquiryRuntime.FinishedChanges | agent-runtime/src/runtime.ts:111-205 | main result: resuming a finished thread replaces its snapshot if and only if this process still holds it and the decision can be recorded, and turns the stored verdict exactly when the person now says the other thing |
| InquiryRuntime.ApprovalOverwritten | agent-runtime/src/runtime.ts:115-121 | an approval recorded elsewhere ends up stored as a rejection when the parking process declines |
| Candidate.NormalFormIsTheSellersText | agent-runtime/src/conversation/knowledgeCapture.ts:150-152 | main result: the normal form has no carriage return, run of spaces, blank line or space beside a line feed, fits 2000 characters, and keeps the seller's characters in order: all when it fits, the first otherwise |
| Candidate.NormalizingTwice | agent-runtime/src/conversation/knowledgeCapture.ts:150-152 | main result: idempotent exactly when the cut does not end in white space; otherwise the second form is a prefix and a fixed point |
| Candidate.TidyStays | agent-runtime/src/conversation/knowledgeCapture.ts:150-152 | each pass leaves a tidy text as it is |
| Candidate.OnePass | agent-runtime/src/conversation/knowledgeCapture.ts:150-152 | main result: the four replacements are one pass that turns every gap into a line feed when it breaks the line and into one space otherwise, and changes nothing else |
| Candidate.SharedNormalForm | agent-runtime/src/conversation/knowledgeCapture.ts:150-152 | main result: trimmed texts that are the same but for their gaps, each breaking the line in both or in neither, share a normal form, and texts that fit the bound share one only then |
| Candidate.GapsAreInterchangeable | agent-runtime/src/conversation/knowledgeCapture.ts:150-152 | main result: writing any gap for another, both with a line break or both without, leaves the normal form as it is |
| KnowledgeFence.FiguresOf | agent-runtime/src/conversation/knowledgeCapture.ts:213-221 | the loop collects per unit exactly the values stated for it |
| KnowledgeFence.JudgeCandidate | agent-runtime/src/conversation/knowledgeCapture.ts:228-251 | the verdict is the first repeat in scope, else the first same title, else the first contradicting figure, else fine |
| KnowledgeFence.OneVerdict | agent-runtime/src/conversation/knowledgeCapture.ts:228-251 | that description fixes the verdict: a candidate has exactly one |
| KnowledgeFence.ReadsWhatConcerns | agent-runtime/src/conversation/knowledgeCapture.ts:232-236 | the rows judged are all those and no others, in the order read |
| KnowledgeFence.ChecksComeInTurn | agent-runtime/src/conversation/knowledgeCapture.ts:237-249 | the first row of the same normal form makes a duplicate whatever else stands; without one the first row of the same trimmed title a conflict of title; figures come last |
| KnowledgeFence.RangesAreTold | agent-runtime/src/conversation/knowledgeCapture.ts:212-219 | a range is one value, told from each of its ends and from every other range |
| KnowledgeFence.SavedIsADuplicate | agent-runtime/src/conversation/knowledgeCapture.ts:237-239 | a sentence saved in a scope is judged a duplicate there ever after, however titled, when the normal forms agree and its row is read; rules of no type and facts of the whole listing count for every question of their scope |
| KnowledgeFence.RespacedIsADuplicate | agent-runtime/src/conversation/knowledgeCapture.ts:237-239 | in particular when the sentence is the same but for its gaps and the white space around it |
| KnowledgeFence.OnlyTheScopeJudges | agent-runtime/src/conversation/knowledgeCapture.ts:234-236 | only rules of the same type or of none, or facts of the same variant or of the listing, are held against a candidate; with none read everything is fine |
| KnowledgeFence.LeavingAFigureOut | agent-runtime/src/conversation/knowledgeCapture.ts:243-249 | with no repeat and no same title among the rows, a candidate is fine if and only if no row states a unit the candidate states and lacks a value the candidate gives it; so leaving out a standing figure never contradicts |
| FigurePattern.WhatTheyState | agent-runtime/src/conversation/knowledgeCapture.ts:210-221 | what the figure pattern reads in two concrete texts |
| FigurePattern.FiguresOfAText | agent-runtime/src/conversation/knowledgeCapture.ts:210-216 | main result, for every text: the figures found stand one behind the other where a number or a range with a listed unit can be read, and at no place they leave uncovered can one be read |
| FigurePattern.FoundIffRead | agent-runtime/src/conversation/knowledgeCapture.ts:210-210 | at any place the pattern finds a figure exactly when one can be read there, decimals, white space, dashes and the letter behind the unit included |
| FigurePattern.OneWayOnly | agent-runtime/src/conversation/knowledgeCapture.ts:210-249 | with the pattern itself: against a row of two figures a candidate of one of them is fine, and the other way round it is a conflict of figures |
| KnowledgeGap.WhatIsAsked | agent-runtime/src/conversation/knowledgeCapture.ts:64-99 | exactly when a gap is asked about, in which scope, on which topic, product, type and variant need; a rule that does not apply is never asked for again |
| VariantNaming.VariantFromAnswer | agent-runtime/src/conversation/knowledgeCapture.ts:175-190 | the loops return what the answer names: a variant by its whole name, or by the one telling token, or every variant, or nothing |
| VariantNaming.WhatIsSaid | agent-runtime/src/conversation/knowledgeCapture.ts:175-190 | main result, for every text and option list and in terms of them alone: an answer not for all names the entry whose whole name, and no other's, the text contains, or without any whole name the entry whose token is the only telling one; it is unresolved if and only if there is no such entry |
| VariantNaming.WhatIsNamed | agent-runtime/src/conversation/knowledgeCapture.ts:175-190 | the option named is listed, and the text contains its whole name and no other's, or no whole name and as the one telling token a token only that option has; with the counts of whole names and telling tokens that decide which |
| VariantNaming.TellingTells | agent-runtime/src/conversation/knowledgeCapture.ts:180-188 | a telling token is one of the text that exactly one listed option carries |
| VariantNaming.WhatATokenIs | agent-runtime/src/conversation/knowledgeCapture.ts:182-182 | a token is a piece of the name between separators, of two characters or more, one a digit |
| VariantNaming.TwoTokensAreUnresolved | agent-runtime/src/conversation/knowledgeCapture.ts:177-189 | with two telling tokens an answer that is not for all is unresolved if and only if it does not hold exactly one whole name |
| VariantNaming.OrderMatters | agent-runtime/src/conversation/knowledgeCapture.ts:177-189 | a concrete listing: an option's two words in the order of its name name it, the other way round they do not |
| WorkingSet.AnchoringKeeps | agent-runtime/src/conversation/ConversationService.ts:4094-4118 | standing on an inquiry keeps one anchor, that inquiry, in the set, within the bounds; its products are those given, each once; off the list it is a set of its own |
| WorkingSet.AnchoringAnObjectKeeps | agent-runtime/src/conversation/ConversationService.ts:4212-4227 | standing on a product or review keeps one anchor, that object, in the set, within the bounds; on its own list the list stays |
| WorkingSet.DrawingKeeps | agent-runtime/src/conversation/ConversationService.ts:3914-3976 | every drawn list leaves a bounded set without an anchor |
| WorkingSet.FilteringKeeps | agent-runtime/src/conversation/ConversationService.ts:2603-2618 | a filter's set stays within the bounds |
| WorkingSet.LeavesItsRows | agent-runtime/src/conversation/ConversationService.ts:3914-3976 | a filter or a drawn list of inquiries leaves the ids of its first fifty rows in order, with the work items and products of those rows, each product once |
| WorkingSet.LeavesItsIds | agent-runtime/src/conversation/ConversationService.ts:3914-3976 | every other list leaves the first fifty ids drawn, in order |
| WorkingSet.AskingKeeps | agent-runtime/src/conversation/ConversationService.ts:2347-2352 | the rows to pick from stay within the bounds of the set on screen |
| WorkingSet.ComposingKeeps | agent-runtime/src/conversation/ConversationService.ts:1431-1447 | a planned turn keeps the invariant through drawing, ordinal product, empty refine, tone revision, selection, carried anchors and an unstarted shop |
| WorkingSet.AnchorAfterPlan | agent-runtime/src/conversation/ConversationService.ts:1431-1447 | a planned turn selects what it selected, else keeps the selected inquiry, else the selected object, each unless it drew a fresh list; with no anchor the set is what was drawn or what was on screen |
| WorkingSet.PickingKeepsTheList | agent-runtime/src/conversation/ConversationService.ts:4103-4105 | picking a row by either of its ids keeps the list and its order, and picking it again changes nothing |
| Conversation.OneAnchorInTheSet | agent-runtime/src/conversation/ConversationService.ts:2844-2908 | main result: in every reachable conversation at most one object is selected, it belongs to the set, and ids, product ids and work-item ids stay within fifty |
| Conversation.ConversationService.ApplyClickSelection | agent-runtime/src/conversation/ConversationService.ts:2844-2908 | a press selects just what was pressed, or clears the anchor and leaves the list as it is, and drops the question exactly when the seller then stands on another inquiry |
| Conversation.ConversationService.CaptureAnswerLane | agent-runtime/src/conversation/ConversationService.ts:1875-1932 | the next sentence cancels, is passed on, asks for a variant again, is refused by the fence, or becomes the card: its normal form, title and fingerprint for the same question; nothing else changes |
| Conversation.ConversationService.DecideCapture | agent-runtime/src/conversation/ConversationService.ts:1940-2040 | a decision that is not on the card shown changes nothing; a cancel closes the question and writes nothing; a save writes the candidate's row once and closes exactly when it was made and the answer arrived |
| Conversation.KnowledgeCaptureWriter.Write | agent-runtime/src/conversation/KnowledgeCaptureWriter.ts:20-33 | exactly one row, the candidate's, and none without a candidate or without the product a product fact needs |
| Conversation.OnlyABoundSaveWrites | agent-runtime/src/conversation/ConversationService.ts:1964-1991 | main result, one turn: only a SAVE echoing the open id and its current fingerprint writes, one row with exactly the fingerprinted fields |
| Conversation.EveryWriteWasConfirmed | agent-runtime/src/conversation/ConversationService.ts:1964-1991 | main result, whole runs: every row ever written was made by one SAVE that echoed the id and current fingerprint of the candidate open at that moment, and is that candidate's row |
| Conversation.EveryRowMatches | agent-runtime/src/conversation/knowledgeCapture.ts:161-163 | in every run every row carries exactly the scope, product, variant, type and text of its fingerprint, under the title of that text |
| Conversation.WrittenExactly | agent-runtime/src/conversation/ConversationService.ts:1973-1991 | main result: in every run a capture is written exactly once for each bound save of it whose row was made and whose answer was lost, plus once if a bound save of it succeeded |
| Conversation.WrittenTwiceIff | agent-runtime/src/conversation/ConversationService.ts:1973-1991 | main result: a capture is written more than once if and only if a bound, row-making save of it was lost and a later one made a row again; with no lost answer at most once |
| Conversation.DoubleWrite | agent-runtime/src/conversation/ConversationService.ts:1973-1991 | a reachable double write: asked, answered, saved with the answer lost, saved again |
| Conversation.GoneForGood | agent-runtime/src/conversation/ConversationService.ts:1964-1972 | what no longer stands open stays closed whatever follows, and no row of it is made again |
| Conversation.ClosedForGood | agent-runtime/src/conversation/ConversationService.ts:1886-1972 | main result, whole runs: if some turn cancels a capture on its card or in words, has its answer refused by the fence, replaces it, leaves it behind or saves it, then no later turn makes a row of it, its number of rows never grows again, and it never stands open again |
| Conversation.OpenIffNeverClosed | agent-runtime/src/conversation/ConversationService.ts:1886-1991 | main result, whole runs: a question that was ever asked stands open if and only if no turn closed it |
| Conversation.OpenUnlessClosed | agent-runtime/src/conversation/ConversationService.ts:1886-1991 | one turn: an open question stays open exactly when the turn does not close it, it stays the same question, and only an accepted answer changes its card |
| Conversation.TitleIsTheFirstLine | agent-runtime/src/conversation/knowledgeCapture.ts:155-158 | the title is the first line of the sentence, trimmed, and of a longer line its first 59 characters and an ellipsis |
| Conversation.WhatADirectAnswerShows | agent-runtime/src/conversation/ConversationService.ts:729-745 | a direct answer leaves what was there, nothing, one inquiry or object selected, the rows a filter kept, or the rows to pick from |
| Conversation.WhatElseShows | agent-runtime/src/conversation/ConversationService.ts:1940-1991 | no other turn than a press, a direct answer, a planned turn or a save that goes on with one changes what is on screen |
| Conversation.OnlyADirectAnswerLeadsAstray | agent-runtime/src/conversation/ConversationService.ts:729-738 | a turn that asks nothing leaves the question held for another inquiry if and only if it is a direct answer showing that other inquiry; presses and planned turns never do |
| Conversation.GenericAnswer | agent-runtime/src/conversation/ConversationService.ts:1891-1909 | over whole runs: an accepted answer for every variant is saved for the whole listing if and only if no accepted answer to that question had named a variant before |
| Conversation.GenericAfterOne | agent-runtime/src/conversation/ConversationService.ts:1891-1929 | so a fact said of one variant and then of all is saved under that one |
| Conversation.SaidAgain | agent-runtime/src/conversation/ConversationService.ts:1910-1927 | main result: over any run, a sentence whose normal form was saved, said again to the same scope, type and variant, makes no candidate when its row is read |
| VisibleFilter.ApplyVisibleFilter | agent-runtime/src/conversation/ConversationService.ts:2491-2584 | declines exactly when nothing is shown, a shown row is no longer held, or more is asked than shown; else keeps, of the rows one budgeted pass matches, as many as asked from the front of the asked order, grouped by answer state |
| VisibleFilter.TryRow | agent-runtime/src/conversation/ConversationService.ts:2508-2540 | one row: the axes in turn, the row's own texts first, a detail only while reads remain |
| VisibleFilter.GroupRows | agent-runtime/src/conversation/ConversationService.ts:2576-2584 | the groups concatenate to the kept rows, each of one state, neighbours different |
| VisibleFilter.FilterIsHonest | agent-runtime/src/conversation/ConversationService.ts:2506-2541 | main result: never more than eight reads, nothing kept that fails an axis, and nothing that satisfies all is missed unless more than eight reads were needed, and then all eight are spent |
| VisibleFilter.KeptRows | agent-runtime/src/conversation/ConversationService.ts:2542-2550 | what is shown is rows of the set of the named channel and state that say the topic and the term; newest first, oldest first, longest wait first with ties by id, or in the order shown; the front ones as many as asked; with no limit and reads enough, all of them |
| VisibleFilter.SortIsStable | agent-runtime/src/conversation/urgency.ts:44-49 | the order is a permutation in which ties keep their place |
| SentenceDedupe.DedupeNear | agent-runtime/src/conversation/ConversationService.ts:3869-3892 | the nested loops are one pass over all sentences with one memory |
| SentenceDedupe.WhereItBreaks | agent-runtime/src/conversation/ConversationService.ts:3880-3880 | an entry breaks behind a full stop, exclamation or question mark that white space follows, there and nowhere else; sentences are trimmed and together say all the entry says |
| SentenceDedupe.Resplit | agent-runtime/src/conversation/ConversationService.ts:3879-3889 | joining kept sentences and splitting the entry again gives them back |
| SentenceDedupe.SaysEachThingOnce | agent-runtime/src/conversation/ConversationService.ts:3869-3892 | main result: a subsequence with no repeat and at most one per family, and every sentence left out repeats one kept before it |
| SentenceDedupe.Idempotent | agent-runtime/src/conversation/ConversationService.ts:3869-3892 | main result: applied again it changes nothing |

## Left out

- Calendar.IsoRoundTrip: states four-digit years only; invalid dates, NaN and clock time are not modelled.
- Transcript.PersistableTwice: models the artifact fields that the stored form drops or bounds; other fields travel unchanged.
- SaverProtocol.Linearizable: takes turn ids as fresh per turn and network errors other than a lost guarded write as absent.
- ConversationStore.SpringConversationStore.Save: one row per client object instead of one version table for all threads; rows of another domain are not modelled.
- ProcedureRuntime.ProcedureRuntime.Run: models the engine's recursion limit as one count per node and asks that the definition fits it; the engine's own bookkeeping steps and a graph that throws are not modelled.
- RunnerProtocol.ClaimProtocol: the in-memory store's atomic claim; the file store, which awaits before its lock, is not modelled.
- ServiceProcedures.OutcomeOfRuns: the exact object read, the draft path's version, whether a draft's object still takes one and the capture lane are arbitrary results; the sentences they compose are not modelled.
- ReviewRuntime.MintedAtMostOncePerPark: calls run to completion one at a time, and a process does not die between the record step and the save that follows it; the account map that nothing reads is not modelled. Requests that interleave are `ResumeGate`.
- ReviewRuntime.ReviewAgentRuntime.Start: a start that finds no review, over a thread still live in the process, leaves the old pause as it was; what the engine, whose own checkpoint it has overwritten, does on the next resume is not modelled.
- InquiryRuntime.InquiryAgentRuntime.Start: the same, for a start that finds no inquiry.
- ResumeGate.MintOnceUnderConcurrency: the in-memory store and the review domain; the approve call, which is idempotent, is part of the record step.
- LeasedGate.OneOutcome: time is in whole seconds; the backend answers each store call in one transaction; deleting a thread, which no request does, is not modelled.
- InquiryRuntime.ApprovedText: what the engine replays after a live record step that threw is not modelled; the thread stays parked as it was.
- Conversation.OneAnchorInTheSet: models how turns change the set, not which sentence leads to which change; labels, filters and counts of a set are not modelled.
- Conversation.WrittenExactly: the rule that a turn right after a save opens no new question is not modelled, so more questions may open than the code opens.
- VisibleFilter.ApplyVisibleFilter: a row's channel and answer state are taken as already upper-cased, and what a detail read returns does not change during the pass.
- VariantNaming.VariantFromAnswer: a token that occurs twice in one option's name counts once.
- Candidate.NormalFormIsTheSellersText: characters, not UTF-16 code units, are counted towards the 2000.
- ReviewClaim.ClaimsFor: upper-casing covers the letters of channel codes; the claims' sentences are not modelled.
- `MemoryConversationStore`, `list`, `summaryOf`: a map lookup and a sort by date.
- File-backed stores: they mirror the in-memory ones and are refused in production.
- The planner, the operator graph, draft generation, HTTP and the marketplace: arbitrary results or absent.
- Korean cue tables, headlines, chips and other wording: closed vocabularies.
- `compose` beyond its working set, anchor and pending capture.
- Time zones (`asOf.ts`), browser collector, upload client, frontend, benches and Python tools.

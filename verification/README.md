# EVENTRA: a verified model of its event log, agent loop and transactional services

EVENTRA runs events: an agent loop decides what to do, services change the event's plan in transactions,
every run writes a durable log, and the browser mirrors that log over a server-sent-event stream. This
project models those parts in Dafny 4.11 and proves what they guarantee, over every input, every run and
every interleaving. Where the code does less than its documentation says, the exact condition under which
it does what is promised is proved, with an input that shows the difference.

`dafny verify dfyconfig.toml` checks everything. The SSE format is that of sections 9.2.5 and 9.2.6 of the
WHATWG HTML Living Standard.

| files | what they model |
|---|---|
| `Sse.dfy` | the incremental event-stream parser, its line-by-line meaning, and a printer |
| `EventLog.dfy` | concurrent writers numbering the events of a run, and the retrying recorder |
| `RunCursor.dfy`, `RunPages.dfy` | envelopes, cursors, replay by page; pages of any table and other cursors |
| `RunStream.dfy` | the streaming endpoint: subscribe, replay, forward |
| `RunStore.dfy`, `StoreHandlers.dfy`, `StreamedStore.dfy` | the browser's mirror of the log, alone and against a server; what its handlers leave; fed by one connection of the endpoint |
| `AgentGraph.dfy`, `AgentRuns.dfy`, `AgentGuards.dfy`, `AgentVisits.dfy`, `AgentExamples.dfy` | the twelve-node agent loop, its runs, its guards, what its visits do to each field, and two runs that surprise |
| `MockPolicy.dfy`, `PolicyOrder.dfy`, `PolicyRetries.dfy`, `PolicyExamples.dfy` | the deterministic decision policy, composed with the loop; its order; what it proposes after a failure; a run that repeats a failed option |
| `Idempotency.dfy` | idempotency keys: serial histories, and the race between callers |
| `Operations.dfy`, `ActionService.dfy`, `ActionHistory.dfy` | the action handlers, the transactional executor, and histories of its calls |
| `ActionResults.dfy`, `ActionEffects.dfy`, `OptionEffects.dfy` | which calls execute, and what actions and recovery options leave in the committed rows |
| `AuditPaging.dfy` | keyset paging of the audit trail |
| `ActivityFeed.dfy`, `Sorting.dfy` | the four-source activity feed, and the stable sort it shares |
| `Discovery.dfy`, `DiscoveryInvariants.dfy`, `DiscoveryRadius.dfy`, `DiscoveryResults.dfy` | the adaptive discovery loop, what it keeps, when it stops and widens, and what an iteration finds |

How the code is represented: LLM answers, tool and engine results, clocks, drawn ids, hashes and snapshots
are parameters, so a theorem holds for all of them. A database is a value with atomic commit, unique keys
and rollback. Code that updates state in place is a class with the same fields or a method with the same
loop, and its contract ties the new state to a function whose properties the lemmas prove.

What the proofs found in the code:

- A CR LF cut between two chunks is not recognised: the frame is read differently, or lost
  (`Sse.CutCrLfLosesFrame`). Without such a cut chunking is invisible.
- The recorder retries on every integrity error, so an event of a run that is not in the database costs
  three attempts and conflicts with nobody (`EventLog.GivingUpAlone`).
- The stream endpoint replays at most 1000 events; beyond that a reconnecting client has a gap
  (`RunStream.GapFreeIffReplayReachesQueue`), and a store fed by it is then no prefix of the log
  (`StreamedStore.StreamKeepsPrefixIff`). A live event older than an earlier one in the queue is dropped, so a
  client gets all of a queue only if its sequences increase (`RunStream.AllForwardedIff`).
- The store can keep a gap for good when an older snapshot is adopted while the previous stream still
  delivers (`RunStore.OldSnapshotThenStaleStream`); current streams never cause one.
- COMPLETED does not mean verified (`AgentExamples.CompletedAfterFailedVerification`): a completed run is
  verified exactly when its last visit before the end was a verification, or followed a verify_action call,
  that came back VERIFIED (`AgentRuns.CompletedHasOrigin`).
- With nothing selected since the last failed verification, the option that is authorized need not be the one
  executed (`AgentRuns.ExecutedIsValidatedIff`, `AgentExamples.ExecutesAnotherOption`).
- Without an approval ticket a failed attempt is recorded under no option id from the second attempt on, and
  the policy proposes the option that just failed (`PolicyRetries.FailedOptionIsProposedAgain`;
  `PolicyExamples.ThirdProposalRepeatsSecond` is such a run, in which a third option is never tried). With a
  ticket whose approval names a known option, that option is selected again at every observation.
- Operations started by the tool end a run COMPLETED while its termination status is WAITING_FOR_USER_SELECTION,
  because processing the tool's result overwrites the waiting status (`AgentVisits.ToolOutcomeDecides`).
- Two callers racing on an expired key, or on a failed one with their payload, are both granted
  (`Idempotency.BothGrantedIff`).
- Repeating a recovery call with its own action id is refused as stale whenever the option carries a plan
  version, and an option without one can run twice (`ActionHistory.RepeatReturnsStoredIff`, `RunsTwiceIff`).
- A provider engagement may approve another event's assignment (`Operations.OperateOnlyEventIff`).
- An approval decided late can be missing from the activity feed (`ActivityFeed.DecidedApprovalIsMissed`).
- Two discovered candidates of one name and no source id share a verdict, and the funnel counts one too many
  (`DiscoveryInvariants.FunnelMayNotAddUp`).

## Model

| member | source | states |
|---|---|---|
| Sse.ParseBlock | apps/web/lib/sse.ts:36-52 | the one-pass block parser finds the frame that the field values of the block's lines define: last event name and id, all data lines joined by LF, none without data and id |
| Sse.SseParser.Push | apps/web/lib/sse.ts:21-33 | a push returns exactly the frames completed by the buffered text and the normalized chunk, keeps the unfinished rest, and leaves no blank line in the buffer |
| Sse.BlocksReadAsLines | apps/web/lib/sse.ts:24-31 | for every text, cutting at blank lines and parsing blocks gives the frames of reading it line by line and dispatching at each empty line, as section 9.2.6 of the WHATWG HTML Living Standard does |
| Sse.NormalizeConcat | apps/web/lib/sse.ts:22 | normalizing chunk by chunk equals normalizing the whole if and only if the cut is not inside a CR LF |
| Sse.DrainThenMore | apps/web/lib/sse.ts:22-32 | text that arrives later is read as if it had been there from the start |
| Sse.ChunkIndependence | apps/web/lib/sse.ts:18-34 | any chunking that cuts no CR LF gives the frames and the buffer of one push of the whole text |
| Sse.CutCrLfChangesLine | apps/web/lib/sse.ts:22 | a cut between CR and LF leaves the CR in the line, for every line and rest |
| Sse.CutCrLfLosesFrame | apps/web/lib/sse.ts:22 | one text gives a frame in one push and none in two |
| Sse.ReadStream | apps/web/lib/sse.ts:81-88 | the reading loop dispatches, over all chunks, exactly the frames of the concatenated stream when no cut is inside a CR LF |
| Sse.CommentLineIgnored | apps/web/lib/sse.ts:41 | a comment line inserted anywhere in a block leaves its frame as it was |
| Sse.CommentsChangeNothing | apps/web/lib/sse.ts:40-49 | dropping all comment lines of a block changes the values of no field |
| Sse.PrintedLinesReadBack | apps/web/lib/sse.ts:36-52 | the lines a frame is printed as parse back to that frame |
| Sse.PrintThenRead | apps/web/lib/sse.ts:18-52 | any list of well-formed frames, comments and keepalives, printed, reads back as those frames with an empty buffer |
| Sse.PrintChunkRead | apps/web/lib/sse.ts:18-52 | the same for every cutting of the printed text into chunks |
| RunCursor.CursorOfEnvelope | apps/api/app/services/agent_run_events.py:54-65 | the cursor parsed from an envelope id is its row's sequence for every run id, colons included |
| RunPages.NumbersAreRead | apps/api/app/services/agent_run_events.py:151-159 | a number is read through white space about it, a plus or minus sign before it and an underscore between digits |
| RunPages.OtherCursorsAreZero | apps/api/app/services/agent_run_events.py:151-159 | nothing, a negative number, and what is no number after the last colon, all count as the beginning |
| RunCursor.AppendKeepsNumbering | apps/api/app/models/agent_run_event.py:21-26 | a row with the next number keeps its run's log numbered 1..n and every other run's as it was |
| RunCursor.PageIsRange | apps/api/app/services/agent_run_events.py:140-148 | in a table whose runs are numbered 1..n in commit order, a page is the next `limit` rows of the run after the cursor, in order, whatever rows of other runs lie between |
| RunPages.PageTells | apps/api/app/services/agent_run_events.py:54-65 | its i-th envelope tells every field of the i-th row of the run after the cursor, the run and number again in its id |
| RunPages.PageOfAnyTable | apps/api/app/services/agent_run_events.py:140-148 | whatever order the rows are stored in: a page is in order of the numbers, tells only rows of the run after the cursor, and leaves out none that comes before one on the page, and none at all unless it is full |
| RunCursor.WalkIsRange | apps/api/app/services/agent_run_events.py:140-159 | paging with any limit of at least one over a growing log returns every event after the start once and in order, up to the last cursor |
| RunCursor.ShortPageCaughtUp | apps/api/app/services/agent_run_events.py:140-148 | a page shorter than the limit ends at the end of the log it read |
| RunCursor.WalkReachesEnd | apps/api/app/services/agent_run_events.py:140-159 | once the log stops growing, enough pages reach its end |
| EventLog.AcceptedIffNext | apps/api/app/models/agent_run_event.py:21-26 | among the numbers a writer can have read, the unique constraint accepts exactly the next free one |
| EventLog.NumbersAreGapFree | apps/api/app/services/agent_run_events.py:76-125 | under every interleaving of any number of writers every run's sequences are exactly 1..n in commit order, and no two recorded calls of a run share a number |
| EventLog.LogIsAppendOnly | apps/api/app/services/agent_run_events.py:88-125 | from any moment of any interleaving on, the log only gains rows at its end |
| EventLog.ConflictIffOvertaken | apps/api/app/services/agent_run_events.py:88-117 | for an existing run and event a commit conflicts if and only if the run's log has grown since the writer's read, so the first of a round of writers succeeds |
| EventLog.GivingUpMeansThreeOthers | apps/api/app/services/agent_run_events.py:41 | a call that gives up on an existing run and event saw at least three rows committed to the run by others while it ran |
| EventLog.MissingParentAlwaysConflicts | apps/api/app/services/agent_run_events.py:100-117 | without its run or event in the database every attempt fails, with no other writer about |
| EventLog.GivingUpAlone | apps/api/app/services/agent_run_events.py:88-125 | a single caller whose run is unknown gives up, and nothing is committed |
| EventLog.RecordsWhatWasAsked | apps/api/app/services/agent_run_events.py:95-125 | under every interleaving the envelope a call returns, and the row that stays in the log, carry run, event, kind and data of exactly that call's request, its number, and the clock reading of one of its own commits |
| EventLog.MaxIsGreatest | apps/api/app/services/agent_run_events.py:90-94 | the number read is the greatest of the run's rows, in whatever order they are stored, and none exactly without a row |
| EventLog.IgnoredIffNoRun | apps/api/app/services/agent_run_events.py:85-86 | under every interleaving exactly the calls without a run id are ignored, and no row is without one |
| EventLog.AgentRunEventRecorder.constructor | apps/api/app/services/agent_run_events.py:73-74 | a recorder starts on the given rows |
| EventLog.AgentRunEventRecorder.Record | apps/api/app/services/agent_run_events.py:76-125 | the call records at the first attempt that nobody overtakes and no fault hits, under the number after the last, row and envelope carrying run, event, kind and data of the request field by field; otherwise it returns None, and the table has gained exactly what the others committed during its attempts, of which only the last can have met a fault of its own |
| RunStream.StreamRunEvents | apps/api/app/api/routes/agent.py:236-303 | the generator sends the replayed rows and then every live event newer than all sent before, ending after the first terminal event |
| RunStream.SentIncreases | apps/api/app/api/routes/agent.py:241-292 | whatever the broker delivers, the sent sequences strictly increase from above the cursor |
| RunStream.SentInOrder | apps/api/app/api/routes/agent.py:236-292 | with a broker that delivers in order, the client gets the replayed events followed by those from where replay and queue both reach |
| RunStream.GapFreeIffReplayReachesQueue | apps/api/app/api/routes/agent.py:241-260 | the client gets every event after its cursor once and in order if and only if the replay of at most 1000 reaches the first queued event or a terminal one |
| RunStream.LateMessageIsDropped | apps/api/app/api/routes/agent.py:262-292 | an instance of `ForwardedExactly`: of two live events at the head of the queue in the wrong order the earlier one is not sent |
| RunStream.ForwardedExactly | apps/api/app/api/routes/agent.py:262-292 | for every queue in every order, a message is forwarded if and only if it is an event of the run, newer than all sent before and than every earlier event of the run in the queue, with no terminal one of these before it |
| RunStream.SentExactly | apps/api/app/api/routes/agent.py:236-292 | so a connection sends the replay and then exactly those messages, or stops with the replay when it or the run has ended |
| RunStream.AllForwardedIff | apps/api/app/api/routes/agent.py:262-292 | the client gets all the events of the run in the queue that it lacks if and only if their sequences increase along it and none but the last is terminal |
| RunStream.EndsAtTheFourKinds | apps/api/app/api/routes/agent.py:262-292 | a connection sends nothing after an event of the kinds run_completed, run_failed, run_cancelled and run_paused, and without such events it sends every newer event of the run in the queue |
| RunStore.AgentRunStore.constructor | apps/web/stores/agentRunStore.ts:58-79 | a new store has no run, no events and sequence 0 |
| RunStore.AgentRunStore.ApplyEvent | apps/web/stores/agentRunStore.ts:262-273 | an event is appended exactly when it belongs to the current run and is newer than lastSequence, which then is its sequence |
| RunStore.AgentRunStore.Disconnect | apps/web/stores/agentRunStore.ts:275-279 | a disconnect ends the current generation and leaves the mirrored run alone |
| RunStore.AgentRunStore.Connect | apps/web/stores/agentRunStore.ts:126-132 | a connect starts a new generation of streams |
| RunStore.AgentRunStore.AdoptSnapshot | apps/web/stores/agentRunStore.ts:134-148 | adopting a snapshot replaces run, events and sequence by the snapshot's, and connects exactly when the run is live |
| RunStore.AgentRunStore.BeginHydrate | apps/web/stores/agentRunStore.ts:167-172 | switching to another event clears the mirror before the request |
| RunStore.AgentRunStore.FinishHydrate | apps/web/stores/agentRunStore.ts:173-190 | a snapshot that arrives for an event no longer shown is ignored |
| RunStore.AgentRunStore.StreamLoop | apps/web/stores/agentRunStore.ts:85-124 | through any number of drops, resuming from lastSequence keeps the store a prefix of the server's log and never shortens it; the loop ends early exactly on a refusal (401, 403, 404) or once the run is no longer live |
| RunStore.AgentRunStore.Receive | apps/web/stores/agentRunStore.ts:96-108 | the frames of one connection opened at lastSequence are all applied in order |
| RunStore.StoreIsSound | apps/web/stores/agentRunStore.ts:85-148 | for every history of snapshots, frames of any kind, switches and drops, the events belong to the current run, strictly increase and end at lastSequence |
| RunStore.PrefixIffNoJump | apps/web/stores/agentRunStore.ts:262-273 | after every history against a growing server log, the store is a prefix of the log if and only if no delivery since its last reset was ahead of it |
| RunStore.CurrentStreamNeverJumps | apps/web/stores/agentRunStore.ts:85-132 | a stream connected since the last reset never delivers ahead of the store |
| RunStore.DrainedIsComplete | apps/web/stores/agentRunStore.ts:85-124 | once such a stream has drained and nothing jumped, the store is the whole log |
| RunStore.OldSnapshotThenStaleStream | apps/web/stores/agentRunStore.ts:134-148 | a possible history of eight steps after which the second of three events is missing for good |
| StoreHandlers.LiveIff | apps/web/lib/agentRun/view.ts:19-68 | the store takes a run for live if and only if the latest of its events that opens or closes a run opens it, or without one the status of its record is not final |
| StoreHandlers.AdoptTells | apps/web/stores/agentRunStore.ts:134-148 | a snapshot replaces run and events by its own newer ones, and opens a stream of a new generation if and only if the run is live by these |
| StoreHandlers.SwitchTells | apps/web/stores/agentRunStore.ts:169-172 | switching to another event empties the store and ends its stream, switching to the same one does nothing |
| StoreHandlers.FrameTells | apps/web/stores/agentRunStore.ts:262-273 | an event is taken if and only if it is of the run and newer than the last one, which it then is |
| StoreHandlers.OldStreamsStayOver | apps/web/stores/agentRunStore.ts:126-132 | over every history of calls only a stream of the newest generation is active, and one that a drop, a switch or a live snapshot has ended never is again |
| StoreHandlers.StatusChanges | apps/web/stores/agentRunStore.ts:214-227 | a reported status changes the record's status and nothing else |
| StoreHandlers.StreamGoesOn | apps/web/stores/agentRunStore.ts:92-109 | a stream can always bring the next event there is, which moves it one on, and a duplicate does not move it |
| StoreHandlers.ResumesWhereItStopped | apps/web/stores/agentRunStore.ts:89-96 | a dropped stream resumes with the very event that the store needs next, and the store takes it |
| StoreHandlers.SwitchBeginsEpoch | apps/web/stores/agentRunStore.ts:169-172 | switching events resets the store and leaves log and streams alone |
| StreamedStore.TakesAll | apps/web/stores/agentRunStore.ts:262-273 | the store takes every one of a list of increasing events of its run |
| StreamedStore.StreamKeepsPrefixIff | apps/api/app/api/routes/agent.py:241-292 | a store that is a prefix of the log, fed by one connection over an in-order broker, stays a prefix if and only if the replay of at most 1000 reaches the first queued event or a terminal one, or nothing is queued |
| AgentRuns.RunHalts | apps/api/app/agent/graph.py:877-970 | for every LLM, tool outcome and limit a run makes at most 3 * max_steps + 7 node visits |
| AgentRuns.StepCountBounded | apps/api/app/agent/graph.py:208-235 | at every moment of every run the step count is at most max_steps + 1 |
| AgentRuns.MutationIsVerifiedNext | apps/api/app/agent/graph.py:509-532 | over every run, every successful execution, by the act node or by the tool, is followed by verification before any decision or end |
| AgentRuns.OnlyMutationsAreVerified | apps/api/app/agent/graph.py:944-945 | over every run the verify node is entered only right after such an execution |
| AgentRuns.MutationsBounded | apps/api/app/agent/graph.py:710-797 | over every run at most max_recovery_attempts mutations happen, each verified but for one under way, and using them up without success ends the run RECOVERY_FAILED |
| AgentRuns.ActIsAuthorized | apps/api/app/agent/graph.py:577-602 | the act node is entered only from a validation that allowed the action and needed no approval or read it as approved |
| AgentRuns.ConsequentialToolsAreValidated | apps/api/app/agent/graph.py:384-391 | over every run no registered tool that is a WRITE needing approval is run by the tool node |
| AgentRuns.ExecutedIsValidatedIff | apps/api/app/agent/graph.py:535-588 | whenever a run acts, an option is selected if and only if one was generated or approved since the last failed verification; then an option with an id is both the authorized and the executed one; otherwise the executed id is that of approval or decision, which equals the authorized one only by coincidence |
| AgentRuns.SelectedIff | apps/api/app/agent/graph.py:69-139 | at every visit of every run an option is selected if and only if, since the last failed verification with an attempt left, generate_recovery_options succeeded with a non-empty list or an observation read an approval that names a known option |
| AgentRuns.CompletedHasOrigin | apps/api/app/agent/graph.py:526-532 | a run ends COMPLETED only through a verified mutation, a successful verify_action call, an operations shortcut or the LLM's own word; its last verification is VERIFIED if and only if it was the first of these, or a verify_action call that came back VERIFIED; the shortcuts and the LLM's word never are |
| AgentGuards.DecisionLeadsTo | apps/api/app/agent/graph.py:214-344 | over every run a decision without steps left, without attempts left or after three equal calls ends the run as STEP_LIMIT_REACHED, RECOVERY_FAILED or FAILED, in this order; then an approved action is resumed with its option and ticket; then a paused event ends the run as PAUSED; only then does the LLM's word decide where the run goes |
| AgentGuards.PausedRunMutatesNoMore | apps/api/app/agent/graph.py:303-320 | from a decision about a paused event on, unless an approved action is resumed there, a run mutates nothing any more |
| AgentGuards.PausedAsObserved | apps/api/app/agent/graph.py:125-139 | a run knows its event as paused if and only if its last observation read it as paused |
| AgentGuards.MutationIsUnpaused | apps/api/app/agent/graph.py:214-320 | over every run every mutation was decided with steps and attempts left and without repetition, and if the last observation before had read the event as paused, by resuming an approved action |
| AgentVisits.ApprovalAfter | apps/api/app/agent/graph.py:84-97 | the ticket of a run is set by asking for approval alone; what a run knows of its approval is what its last observation or validation read with the ticket, and nothing without one |
| AgentVisits.ExecutionAfter | apps/api/app/agent/graph.py:107-125 | an execution is known from observing the ticket's, from acting or from the tool's result, and is forgotten exactly when its verification fails with an attempt left |
| AgentVisits.PendingAfter | apps/api/app/agent/graph.py:579-585 | an approval is pending exactly after a tool or a validation that needs one, after asking for one, or while the ticket's is not granted |
| AgentVisits.VerificationAfter | apps/api/app/agent/graph.py:476-480 | the verification known is the last one made, by the verify node or by a successful verify_action call |
| AgentVisits.FailuresAfter | apps/api/app/agent/graph.py:743-752 | only the verify node counts attempts, and records a failed one under the option selected, else the one executed |
| AgentVisits.StatusAfter | apps/api/app/agent/graph.py:817-824 | the status that each kind of visit leaves, for every state and reply |
| AgentVisits.TerminationAfter | apps/api/app/agent/graph.py:764-777 | who sets the termination status, and that an end keeps one that is set |
| AgentVisits.KnowledgeAfter | apps/api/app/agent/graph.py:172-185 | open incidents are known from observing alone, and the objective from interpreting only when none was given |
| AgentVisits.LastToolAfter | apps/api/app/agent/graph.py:455-462 | the decision known is the last one made, and the last tool and its outcome are those of the last tool visit |
| AgentVisits.SelectionAfter | apps/api/app/agent/graph.py:465-474 | options come from generating them alone, and the one selected from them, or from an approval that names it, until a failure drops it |
| AgentVisits.HistoryAfter | apps/api/app/agent/graph.py:687-697 | exactly the calls made go on record: an action with the option selected, else approved, else decided, and with its ticket; a verification with the id of the execution |
| AgentVisits.ValidatedIs | apps/api/app/agent/graph.py:546-550 | the option put before the authorization service is the selected one, else the first feasible, else the first |
| AgentVisits.ToolOutcomeDecides | apps/api/app/agent/graph.py:489-532 | over every run a tool that needs approval ends it as waiting, an execution leads to verification, a verification to an end as it succeeded or not; starting operations by the tool ends the run COMPLETED though its termination status says WAITING_FOR_USER_SELECTION |
| AgentVisits.TicketlessNeedsNoApproval | apps/api/app/agent/graph.py:535-602 | a run started without a ticket never acts where an approval is required |
| AgentVisits.ResumesOnlyOnce | apps/api/app/agent/graph.py:107-125 | the decision after an observation resumes an approved action if and only if the ticket is read as approved and no execution is known for it, in the run or in the database |
| AgentVisits.VerifiesWhatItExecuted | apps/api/app/agent/graph.py:710-735 | over every run the verification after an execution is asked for with the id that this execution returned |
| AgentVisits.EndsAsReported | apps/api/app/agent/graph.py:652-660 | over every run: waiting ends it PENDING_APPROVAL with the new ticket, a verified attempt COMPLETED, the last failed one RECOVERY_FAILED, and an earlier failed one leads back to observing with nothing selected |
| AgentVisits.ShortcutsEnd | apps/api/app/agent/graph.py:150-170 | a message that starts operations or modifies the plan ends the run without a decision, with the status reported or COMPLETED; an open incident keeps a plan from being modified |
| AgentExamples.CompletedAfterFailedVerification | apps/api/app/agent/graph.py:393-400 | a run from the start whose only mutation failed verification and that still ends COMPLETED |
| AgentExamples.ExecutesAnotherOption | apps/api/app/agent/graph.py:770-772 | a run of the policy, from the start, that authorizes one option and executes another |
| MockPolicy.PolicyRunsAreShort | apps/api/app/agent/provider.py:725-876 | with the policy in a run that is about an incident at every decision, by objective or by open records, at most 11 steps are counted, each of the five investigations is made at most once, and neither step limit, attempt limit nor repeat guard ever fires at a decision |
| MockPolicy.IncidentObjectiveFollows | apps/api/app/agent/graph.py:172-183 | a run is about an incident at every decision if its given objective mentions one, or without one every derived objective does |
| MockPolicy.DerivedObjectiveMentions | apps/api/app/agent/graph.py:176-179 | the objective derived for a disruption does, whatever the message |
| MockPolicy.DefaultRegistryGates | apps/api/app/agent/tools/registry.py:952-1040 | the default registry makes execution a consequential tool and the investigations not, as that theorem assumes |
| PolicyOrder.PolicyTable | apps/api/app/agent/provider.py:752-876 | the policy makes the first of the five investigations that is not on record, then fails if every feasible option has failed, else offers the chosen option as a proposal or, with a ticket, as an execution, and once executed asks for its verification and completes or fails by it |
| PolicyOrder.InvestigatesInOrder | apps/api/app/agent/provider.py:752-801 | over every run of the policy the investigations on record were made in the order event, provider, impact, risk, options, none left out |
| PolicyOrder.GenerationSelects | apps/api/app/agent/graph.py:459-465 | generating options selects the first feasible one that replaces the vendor, else the first feasible, else the first: the one the policy chooses when none has failed |
| PolicyRetries.OnlyFirstFailureIsRecorded | apps/api/app/agent/graph.py:743-772 | in every run of the policy without a ticket the option executed is the one it proposed; a first failure is recorded under it if options were generated, and from the second attempt on nothing is selected and a failure is recorded under no id |
| PolicyRetries.RetryExcludesRecordedOnly | apps/api/app/agent/provider.py:804-809 | with one more failure on record an option leaves the candidates if and only if the failure is recorded under its id |
| PolicyRetries.FailedOptionIsProposedAgain | apps/api/app/agent/provider.py:804-845 | in every such run, at the decision after a failed attempt exactly the options with the recorded id have left the candidates; an option that was selected is not proposed again; from the second attempt on the option that just failed is |
| PolicyExamples.ThirdProposalRepeatsSecond | apps/api/app/agent/provider.py:804-845 | a run of the policy with three options: the first fails, the second fails and is proposed again, the third is still a candidate |
| Idempotency.IdempotencyService.constructor | apps/api/app/core/idempotency.py:43-44 | a service starts without records |
| Idempotency.IdempotencyService.CheckOrStart | apps/api/app/core/idempotency.py:46-134 | a key is granted, replayed, or refused as in progress or reused exactly as its record, its expiry and the payload hash decide, and no other key's record changes |
| Idempotency.IdempotencyService.Complete | apps/api/app/core/idempotency.py:136-156 | completing stores the response under an existing key and touches no other |
| Idempotency.IdempotencyService.Fail | apps/api/app/core/idempotency.py:158-170 | failing marks an existing record and touches no other |
| Idempotency.HistoryTellsRecord | apps/api/app/core/idempotency.py:46-170 | after every serial history a key's record is what its last grant and the calls since make it |
| Idempotency.AnswerFollowsHistory | apps/api/app/core/idempotency.py:65-115 | every check in every history answers as the earlier calls of its key decide |
| Idempotency.GrantsAreSeparated | apps/api/app/core/idempotency.py:71-103 | two grants of one key are separated by a fail or by expiry, and unless it expired they are for the same payload |
| Idempotency.ReplayIsStored | apps/api/app/core/idempotency.py:104-115 | a replay returns exactly the response that the last complete since the grant stored |
| Idempotency.ArrivalTells | apps/api/app/core/idempotency.py:65-103 | what a caller reads decides: no record, an expired one, or one failed for its payload leaves it a commit; any other answers it at once |
| Idempotency.CommitTells | apps/api/app/core/idempotency.py:91-134 | an insert that finds the key taken changes nothing and is answered by the record it finds; every other commit is granted and puts the caller's record in place, field by field, touching no other key |
| Idempotency.SettlingTells | apps/api/app/core/idempotency.py:136-170 | completing and failing settle an existing record of their key alone |
| Idempotency.AtMostOneGrant | apps/api/app/core/idempotency.py:117-134 | for a key without a record, under every interleaving and until a fail or expiry, at most one caller is granted and every other is refused or gets a stored response |
| Idempotency.BothGrantedIff | apps/api/app/core/idempotency.py:71-103 | two callers that both read before either commits are both granted if and only if the record is expired, or failed for the payload of both |
| Operations.VendorIsAssigned | apps/api/app/services/action_service.py:371-427 | a vendor reassignment makes the vendor the task's provider and the task ASSIGNED, and all of the vendor's assignments in the event, of which there is at least one, are CONFIRMED |
| Operations.VendorCostIsCommitted | apps/api/app/services/action_service.py:389-437 | a positive cost goes to one assignment, the vendor's in the event, and to the category's first budget item, and to nothing else; without one no cost and no budget row changes |
| Operations.ShiftKeepsLength | apps/api/app/services/action_service.py:471-476 | a shift moves both ends of a task by the same time and takes it off the slack, down to zero; a shift of zero changes nothing |
| Operations.CancelsExactlyTheListed | apps/api/app/services/action_service.py:311-318 | scope shedding cancels the listed tasks of the event and changes nothing else of any task |
| Operations.CompressionKeepsTasksReal | apps/api/app/services/action_service.py:299-307 | compression, also of a task listed twice, keeps at least one minute of a task that has one and the end at start plus duration, and for a non-negative amount lengthens no such task |
| Operations.OperateOnlyEventIff | apps/api/app/services/action_service.py:87-121 | an action changes rows of its own event only, except that an engagement does so if and only if its assignment is the event's or was approved already, and that a contract may create its vendor |
| Operations.EngageOnlyEventIff | apps/api/app/services/action_service.py:534-548 | the engagement case by itself |
| Operations.ContractOnlyEvent | apps/api/app/services/action_service.py:550-648 | a contract changes rows of its event only, and no vendor but one it may create |
| Operations.ContractConfirms | apps/api/app/services/action_service.py:559-621 | a contract with vendor and category leaves a confirmed and approved assignment in the event, at the positive cost given: the one found, or a new one of the vendor |
| Operations.ContractAssignsTask | apps/api/app/services/action_service.py:623-637 | the task it names, or the category's first, becomes the vendor's and ASSIGNED |
| Operations.TaskChangesOnlyGiven | apps/api/app/services/action_service.py:446-461 | a task reassignment succeeds if and only if the event has the task, and changes no other row and no attribute that was not given |
| Operations.AllocationBinds | apps/api/app/services/action_service.py:492-511 | an allocation succeeds if and only if the event has the resource and the named task, and then the resource belongs to that task of the same event and no other row has changed |
| Operations.AmountsChangeOnlyGiven | apps/api/app/services/action_service.py:513-532 | a budget adjustment succeeds if and only if the event has the item, and changes no other row and no amount that was not given |
| Operations.ApplyChangesOnlyEvent | apps/api/app/services/action_service.py:253-328 | a recovery option, whatever parts it combines, changes rows of its own event only |
| ActionEffects.VendorIsReassigned | apps/api/app/services/action_service.py:371-437 | a vendor reassignment changes one task, the vendor's first assignment or else the category's first or else a new one, and the category's first budget item, each in the fields named and in no other |
| ActionEffects.ShiftedIsRescheduled | apps/api/app/services/action_service.py:471-486 | both ends of the task are where shift and explicit times put them, and nothing else of it but the slack has changed |
| ActionEffects.EngageApproves | apps/api/app/services/action_service.py:534-548 | the first assignment with the id is approved and no other row has changed |
| ActionEffects.ContractContracts | apps/api/app/services/action_service.py:550-648 | a contract confirms and approves the first assignment found by id, else by vendor and category, else by category, else by vendor, or adds one; the contracted task and the category's budget item follow, and nothing else changes |
| OptionEffects.CompressedExactly | apps/api/app/services/action_service.py:299-307 | compression takes the minutes off a task of the event as often as it is listed, down to one minute, moves its end accordingly and changes nothing else |
| OptionEffects.ShortenedTo | apps/api/app/services/action_service.py:303-304 | for non-negative minutes that is the duration less the minutes times the listings, but at least one |
| ActionService.ActionService.constructor | apps/api/app/services/action_service.py:43-44 | a session starts on the committed database |
| ActionService.ActionService.ConfirmAll | apps/api/app/services/action_service.py:421-423 | the loop confirms every assignment of the vendor in the event and no other |
| ActionService.ActionService.ReassignVendor | apps/api/app/services/action_service.py:371-444 | the step-by-step handler does what `VendorIsAssigned` and `VendorCostIsCommitted` are about, or names the first missing thing and writes nothing |
| ActionService.ActionService.ReassignTask | apps/api/app/services/action_service.py:446-461 | succeeds if and only if the event has the task; nothing but the given attributes of that task has changed, and on failure nothing |
| ActionService.ActionService.AdjustSchedule | apps/api/app/services/action_service.py:463-490 | shift first, then explicit ends; the function of `ShiftKeepsLength` |
| ActionService.ActionService.AllocateResource | apps/api/app/services/action_service.py:492-511 | succeeds if and only if the event has the resource and the named task; the resource then belongs to that task of its event, and nothing else has changed |
| ActionService.ActionService.AdjustBudget | apps/api/app/services/action_service.py:513-532 | succeeds if and only if the event has the item; nothing but its given amounts has changed |
| ActionService.ActionService.EngageProvider | apps/api/app/services/action_service.py:534-548 | the assignment with the id, of whatever event, is approved |
| ActionService.FindContracted | apps/api/app/services/action_service.py:559-583 | the four lookups one after another find the row that `ContractConfirms` speaks about |
| ActionService.ActionService.ContractAssignment | apps/api/app/services/action_service.py:585-621 | the assignment found is confirmed, or one is created with its vendor |
| ActionService.ActionService.ContractVendor | apps/api/app/services/action_service.py:550-648 | the step-by-step handler does what the contract lemmas are about |
| ActionService.ActionService.CompressTasks | apps/api/app/services/action_service.py:299-307 | the loop computes the function of `CompressionKeepsTasksReal` |
| ActionService.ActionService.CancelTasks | apps/api/app/services/action_service.py:311-318 | the loop computes the function of `CancelsExactlyTheListed` |
| ActionService.ActionService.ApplyLateParts | apps/api/app/services/action_service.py:299-327 | compression, shedding and capacity in this order |
| ActionService.ActionService.ApplyParts | apps/api/app/services/action_service.py:253-328 | all parts of an option are applied in order, or the first failing one's error is reported |
| ActionService.ActionService.Dispatch | apps/api/app/services/action_service.py:87-121 | the handler of the action type runs, an unknown type is a bad request |
| ActionService.ActionService.ExecuteAction | apps/api/app/services/action_service.py:46-164 | the committed database and the answer are those that the lemmas on `OutcomeOf` speak about, `ActionRunsIff` and `ActionAchieves` first; after every path the session equals the committed database |
| ActionService.ActionService.ExecuteRecoveryOption | apps/api/app/services/action_service.py:166-367 | the same for recovery options, with the stale checks before the idempotency lookup; `OptionRunsIff` and `OptionAchieves` say when it executes and what it leaves |
| ActionHistory.CallIsAtomic | apps/api/app/services/action_service.py:85-164 | every call, also with a late failure or a refused write, either adds exactly one execution with a new action id and one transition, or changes nothing but the stale mark of its option |
| ActionResults.ActionRunsIff | apps/api/app/services/action_service.py:59-129 | an action is executed if and only if its event exists and is neither PAUSED nor PAUSING, its id is new, what its kind needs is there and the database accepts the write |
| ActionResults.OptionRunsIff | apps/api/app/services/action_service.py:174-246 | a recovery option is executed if and only if its event is open, the executor is a system name, the owner or a member, the option is the event's, approved if it needs to be, made for the present plan version and snapshot, the id is new, its parts find what they need and the database accepts the write |
| ActionResults.RefusalsInOrder | apps/api/app/services/action_service.py:174-234 | a call that is refused gets the error of the first of these conditions that fails, and a stale option is marked |
| ActionResults.OptionsRunOnlyAsAllowed | apps/api/app/services/action_service.py:174-234 | so in every history no option runs in a paused event, for someone without a right to, unapproved, or out of date |
| ActionResults.OtherEventsKeepVersion | apps/api/app/services/action_service.py:219-221 | an execution raises the plan version, which counts the transitions of an event, of its own event and of no other |
| ActionResults.ExecutionIsDocumented | apps/api/app/services/action_service.py:131-156 | the execution and the transition recorded say who did what to which event and how its snapshot moved, and an executed option is EXECUTED |
| ActionEffects.ActionAchieves | apps/api/app/services/action_service.py:85-158 | what an executed action leaves in the committed tables is what its kind does to its rows, and nothing else but the update stamp; a call that executes nothing changes nothing |
| OptionEffects.OptionAchieves | apps/api/app/services/action_service.py:253-361 | an executed option leaves in the committed tables what all its parts together do, told for every field of every task, assignment, budget item, resource and event, and nothing else but the update stamp |
| ActionHistory.CallStaysInEvent | apps/api/app/services/action_service.py:236-328 | a committed call leaves other events' rows alone unless it engages another event's assignment; only a contract may add a vendor |
| ActionHistory.StaleOptionIsRefused | apps/api/app/services/action_service.py:226-234 | an option marked STALE is never executed |
| ActionHistory.HistoryGrows | apps/api/app/services/action_service.py:131-156 | over every history with other services' commits between the calls, executions and transitions are only added |
| ActionHistory.ExecutionsAndTransitionsPair | apps/api/app/services/action_service.py:131-156 | over every history of calls as many executions as transitions are added, at most one per call, and the k-th of both belong to the same event |
| ActionHistory.ActionIdsStayUnique | apps/api/app/models/action.py:20 | in every history each action id has at most one execution across both entry points |
| ActionHistory.ReplayReturnsFirst | apps/api/app/services/action_service.py:72-80 | however much later, an action call with a used id changes nothing and returns the stored execution, whatever it asks for |
| ActionHistory.StaleIsFinal | apps/api/app/services/action_service.py:226-234 | once stale an option stays stale over every history and every call for it fails |
| ActionHistory.ExecutionEndsVersion | apps/api/app/services/action_service.py:216-224 | an option runs only at the plan version it carries, and running it raises the event's version by one |
| ActionHistory.PlanVersionsIncrease | apps/api/app/services/action_service.py:216-224 | in every history later executions in an event carry strictly greater plan versions, so no version is executed twice |
| ActionHistory.VersionedOptionRunsOnce | apps/api/app/services/action_service.py:216-224 | an option that carries a plan version is not executed twice in any history |
| ActionHistory.RepeatReturnsStoredIff | apps/api/app/services/action_service.py:216-246 | repeating a recovery call returns the stored execution if and only if the option has no plan version and its run did not move the snapshot; what happens otherwise is stated too |
| ActionHistory.RunsTwiceIff | apps/api/app/services/action_service.py:216-246 | with another action id an option runs again if and only if it has no plan version, its run did not move the snapshot and its changes apply once more |
| ActionHistory.UnversionedOptionRunsTwice | apps/api/app/services/action_service.py:219-224 | an instance of that |
| AuditPaging.LessIsTotal | apps/api/app/observability/audit.py:92-104 | the order on (created_at, id) tells any two different keys apart, ties in time included |
| AuditPaging.CursorRoundTrip | apps/api/app/observability/audit.py:94-116 | a cursor reads back as the key it was written for, whatever the id contains |
| AuditPaging.ListRecordsPaginated | apps/api/app/observability/audit.py:72-119 | a malformed cursor is refused; otherwise the page is the first `limit` rows of what the cursor, or else the offset, leaves, with a next cursor exactly when more are left; it holds only records of the event and action type asked for, and the total counts all of these |
| AuditPaging.RestIsBelow | apps/api/app/observability/audit.py:86-104 | what a cursor leaves is exactly the matching records below its key, each once, in descending order |
| AuditPaging.KeysetPageIsOffsetPage | apps/api/app/observability/audit.py:96-119 | on an unchanging trail the page after a cursor is the page at the next offset |
| AuditPaging.WalkIsOrdered | apps/api/app/observability/audit.py:92-119 | the pages of a walk over a growing trail are in strictly descending order, all matching, and all but the last are full |
| AuditPaging.WalkMissesNothing | apps/api/app/observability/audit.py:92-119 | a walk leaves out no record that was there at its start, but those still below its cursor |
| AuditPaging.WalkIsTheSortedTrail | apps/api/app/observability/audit.py:92-119 | a finished walk, restricted to the records there at its start, is those records sorted once |
| AuditPaging.WalkFindsTheAsked | apps/api/app/observability/audit.py:81-117 | a finished walk returns, newest first, exactly those of the records there at its start that are of the event and of the action type asked for |
| AuditPaging.WalkEnds | apps/api/app/observability/audit.py:111-117 | a walk with more pages than the matching records fill has come to its end |
| AuditPaging.EmptyPageSkipsRow | apps/api/app/observability/audit.py:110-117 | with limit 0 the cursor skips the newest row left, which no later page returns; every limit of at least one returns it |
| ActivityFeed.GetActivityFeed | apps/api/app/observability/activity.py:24-136 | the four append loops, the in-place sort and the cut compute the feed that the lemmas speak about |
| ActivityFeed.FeedIsFullFeedIff | apps/api/app/observability/activity.py:28-136 | the merged feed shows the times that sorting every row would show if and only if every row left out by the queries has `limit` fetched rows that are shown no earlier |
| ActivityFeed.NothingNewerThanLast | apps/api/app/observability/activity.py:134-136 | in a full feed that is: no row left out is shown later than the feed's last entry |
| ActivityFeed.UndecidedFeedIsFullFeed | apps/api/app/observability/activity.py:28-136 | so it does for every limit while rows are shown under the time they are queried by |
| ActivityFeed.DecidedApprovalIsMissed | apps/api/app/observability/activity.py:51-70 | an approval requested early and decided late is missed |
| ActivityFeed.FeedIsSelection | apps/api/app/observability/activity.py:134-136 | the feed is newest first, no longer than the limit, and uses no source row more often than it exists |
| ActivityFeed.FeedShowsRows | apps/api/app/observability/activity.py:36-132 | every entry shows a row of one of the four sources under its prefixed id, category, time and status, an approval under its decision time once decided |
| Sorting.SortSorts | apps/api/app/observability/activity.py:135 | the sort puts greater keys first |
| Sorting.SortKeepsRows | apps/api/app/services/agentic_discovery_controller.py:443-446 | the sort neither loses nor repeats a row |
| Sorting.SortIsStable | apps/api/app/observability/activity.py:135 | rows with equal keys stay in the order they came in |
| Discovery.Search | apps/api/app/services/agentic_discovery_controller.py:284-302 | what is found is the concatenated results of the shortest list of first queries of which the last was answered and which reach the target, or of all queries when none does |
| Discovery.Deduplicate | apps/api/app/services/agentic_discovery_controller.py:311-320 | the loop lets through the candidates that `UnseenIsExact` describes and adds their keys |
| Discovery.Qualify | apps/api/app/services/agentic_discovery_controller.py:324-357 | verdicts and distances are filed under the candidate's id, rejections follow its own verdict |
| Discovery.Rank | apps/api/app/services/discovery_ranking_engine.py:159-213 | candidates whose filed verdict is not a rejection are scored, sorted and numbered |
| Discovery.ContactBatch | apps/api/app/services/discovery_outreach_service.py:137-157 | a candidate gets a new availability if and only if it is uncontacted and fewer uncontacted ones than the batch size come before it: confirmed or declined as it answers, pending without an answer, uncontacted without a phone; nothing else changes |
| Discovery.CollectConfirmed | apps/api/app/services/agentic_discovery_controller.py:404-406 | confirmed candidates not yet in the pool are added in order |
| Discovery.SearchAndRank | apps/api/app/services/agentic_discovery_controller.py:265-376 | one search step with its counters |
| Discovery.ExecuteDiscovery | apps/api/app/services/agentic_discovery_controller.py:252-460 | the run presents the last state of the specified loop, which `IterationTells`, `NextRadius` and `StopsAtFirstEnough` determine step by step |
| DiscoveryInvariants.UnseenIsExact | apps/api/app/services/agentic_discovery_controller.py:314-320 | deduplication lets through one candidate of every key not seen before, and no other |
| DiscoveryInvariants.EveryIterationKeeps | apps/api/app/services/agentic_discovery_controller.py:252-438 | at every iteration seen keys, raw pool and unique count agree, no key is taken in twice, the confirmed pool is the confirmed part of the qualified pool and empty when nobody may be contacted, and the radius never shrinks and stays between base and base plus expansion |
| DiscoveryInvariants.LoopKeeps | apps/api/app/services/agentic_discovery_controller.py:252-438 | the loop ends within its iterations, and early only with enough candidates |
| DiscoveryRadius.StopsAtFirstEnough | apps/api/app/services/agentic_discovery_controller.py:408-422 | the run ends with the first iteration after which enough candidates are confirmed with confidence, or qualified while none is confirmed, and otherwise makes all its iterations |
| DiscoveryRadius.NextRadius | apps/api/app/services/agentic_discovery_controller.py:425-436 | without missing candidates the radius stays; with them it becomes the rounded product with a factor of 1.6 to 2, but no more than the limit, and it grows if and only if the product is greater and the limit not reached |
| DiscoveryRadius.RadiusGrowsToLimit | apps/api/app/services/agentic_discovery_controller.py:425-436 | as long as candidates are missing the radius grows by at least half per iteration until it is at its limit, with rounding to tenths from half a kilometre on |
| DiscoveryResults.IterationTells | apps/api/app/services/agentic_discovery_controller.py:252-406 | an iteration searches at the present radius with the queries planned only while the pool is below the target, counts, ranks and rejects whoever is new, and contacts candidates only where outreach is simulated outside operations |
| DiscoveryResults.KeysArePresent | apps/api/app/services/agentic_discovery_controller.py:314-326 | a candidate's key is the first present of source id, map link, phone and lower-case name, its id of source id and name |
| DiscoveryResults.UnseenAreFirst | apps/api/app/services/agentic_discovery_controller.py:314-320 | of every new key the first candidate found passes, and no other |
| DiscoveryResults.RankedExactly | apps/api/app/services/agentic_discovery_controller.py:358-376 | the newcomers ranked are exactly those whose filed verdict, the last one under their id, is no rejection, each with that verdict and its score, best first and numbered from one |
| DiscoveryResults.RejectedExactly | apps/api/app/services/agentic_discovery_controller.py:341-356 | the newcomers rejected are exactly those whose own verdict is a rejection, at score 0.25 and rank 999 |
| DiscoveryResults.ShortlistTells | apps/api/app/services/agentic_discovery_controller.py:455-514 | the shortlist tells counters, radius and rejected candidates of the last state, and its backups are the first five waiting candidates in the order of the pool |
| DiscoveryResults.StartsWithVendors | apps/api/app/services/agentic_discovery_controller.py:192-244 | a run starts with the local vendors of different keys, at the base radius, with nothing counted |
| DiscoveryInvariants.TiersAreTheSortedPool | apps/api/app/services/agentic_discovery_controller.py:443-460 | top tier and second tier together are the confirmed pool sorted by score and numbered, or the qualified pool when none is confirmed; backups are in no confirmed tier |
| DiscoveryInvariants.OperationsConfirmNobody | apps/api/app/services/agentic_discovery_controller.py:384-392 | under the trigger "operations" nobody is contacted or confirmed |
| DiscoveryInvariants.BatchSplitsIff | apps/api/app/services/agentic_discovery_controller.py:324-376 | every newcomer ends in exactly one of the qualified and rejected pools if and only if its own verdict and the one filed under its id agree on rejection |
| DiscoveryInvariants.FunnelAddsUp | apps/api/app/services/agentic_discovery_controller.py:492-507 | with an id of its own for every candidate, unique is qualified plus rejected, and disqualified counts the rejected |
| DiscoveryInvariants.NamesakesCountTwice | apps/api/app/services/agentic_discovery_controller.py:324-357 | of two candidates filed under one id, a rejected first and an accepted second, both are ranked and one is rejected as well |
| DiscoveryInvariants.FunnelMayNotAddUp | apps/api/app/services/agentic_discovery_controller.py:324-376 | so there are newcomers with different keys of which one more is kept than there are |

## Left out

- EventLog.AgentRunEventRecorder.Record: the publication to the live broker after the commit, and the JSON cleaning of the payload.
- RunCursor.CursorOfEnvelope: `int()` is modelled on ASCII digits, sign and underscores; other decimal digits and Unicode spaces are not.
- RunStream.StreamRunEvents: heartbeats, the poll timeouts, client disconnects and the frame limit of the endpoint.
- RunStore.AgentRunStore.FinishHydrate: the sharing of one request by concurrent callers, and the navigation and suggestion fields of the store.
- Sse.ReadStream: UTF-8 decoding of the chunks; the text after decoding is cut anywhere.
- AgentRuns.RunHalts: the recursion limit of the LangGraph runtime; only the nodes and edges declared in `build_graph` are modelled.
- MockPolicy.PolicyRunsAreShort: decisions of a run that is not about an incident; the scripted and non-incident scenarios of the policy, and the arguments it copies into its calls.
- Idempotency.IdempotencyService.Complete: a failing commit inside `complete` or `fail`, which the code only logs.
- ActionService.ActionService.ExecuteAction: `COMMUNICATION_OUTREACH` delegates to a service that may commit by itself; the lists of affected entities and result data are not modelled.
- Operations.ContractVendor: which task of a category the database returns first is a parameter; an event without one, or a wrong one, leaves the tasks alone. The live broadcast after a contract is not modelled.
- ActionService.ActionService.ExecuteRecoveryOption: a refused commit of the stale mark itself, and the transient setter of `requires_approval`; alternative keys of the proposed changes are read as one field each.
- AuditPaging.CursorRoundTrip: base64 and the time format are library primitives, assumed to read back what they write and to write no bar.
- AuditPaging.WalkIsTheSortedTrail: deletions from the trail, which only remove whole events.
- Discovery.Rank: the scoring formula, the weight profiles and the human-readable reasons.
- Discovery.ExecuteDiscovery: the persisted run and its progress events, the upsert into the vendor table, and the rounding of the radius beyond it being some function.
- Interpretation of operator texts in the agent loop is any outcome: its keyword matching proves nothing about runs.
- Orphaned runs, cascading deletes, permissions, planning, risk and verification engines: used as given results.
- The transition table of execution states, browser sessions, schemas, migrations and user interface: finite or without state of their own.

# Verified models of the workflow engine's hard parts

This project models the algorithms and state machines of the workflow extension for Pi that hold state over a whole
run, and proves what they keep. Each module follows one source file.

- **Graph layout** (`GraphPaths`, `GraphEdges`, `BackEdges`, `GraphLevels`, `GraphRanks`, `GraphCells`,
  `GraphLayouts`, `GraphTheorems`). Depth-first back-edge marking, longest-path levels by relaxation, tail pull-down,
  chains of virtual cells and barycenter sorting, each proved from what the stage before promises, up to one theorem
  about the layout.
- **Message coordinator** (`CoordinatorProtocol`, `MessageCoordinator`, `CoordinatorRuns`). A class whose
  `synchronize` is cut at every await. Its observable calls are a log. `Legal` says which call may follow which log,
  `Run` shows that every schedule gives a legal log made of its own events, and the promises are lemmas about legal
  logs.
- **Autoimplement control machine** (`AutoimplementModel`, `AutoimplementGates`, `AutoimplementTermination`,
  `AutoimplementProgress`, `AutoimplementReviews`, `AutoimplementRoutes`, `AutoimplementLimits`, `AutoimplementRuns`,
  `AutoimplementWitnesses`). The node graph as a function of what agents, actions, includes and the decider answer;
  gating, reviews of the published heads, termination, the exact length of the longest runs and the no-progress rule
  hold for all answers, and single runs show what they do not promise. `CommandBatch` and `PublishedCover` hold its
  timeout bound and its exact-cover parsers.
- **Session recorder** (`RecorderQueue`, `Recorder`). Functions on one state value, a class that refines them, and
  runs.
- **Change verification** (`ChangeVerification`, `VerificationRuns`). The classifier and its bounded repair loop.
- **Smaller cores**: the agent pool (`AgentPool`), the frame decoder (`NdjsonFrames`), the box-drawing canvas
  (`CharCanvas`), page completion (`PageCompletion`), the monitor's repair guard (`MonitorGuard`), the claim-based
  delivery coordinator (`SessionDelivery`), the Telegram splitter (`TelegramParts`) and condition merging
  (`Conditions`).

## Conventions

Digests are injective: a digest is kept as the value it digests. Clocks, randomness, requests, agents and included
workflows are parameters, so a theorem over all runs quantifies over all their answers. A class method that changes
state states its whole new state, usually as a specification function of the old one; what is promised is then proved
of that function. A method named `Run`, `RunControl`, `RunVerification`, `RunGroup`, `Draw` or `Decode` starts afresh
and performs an arbitrary sequence of actions, so its `ensures` is a statement about every run.

## What turned out false

- A cycle of unmarked edges can survive in a definition that was not validated. `GraphTheorems.StrayLoopSurvives`
  gives one and `GraphTheorems.CycleSurvivesIff` says exactly when.
- A report of a turn can follow its accepted end. It does when a snapshot that shows the turn open and started arrives
  afterwards while Pi runs its message, and the newest snapshot names that message of that run
  (`CoordinatorRuns.ReopensTurn`), and never without such snapshots (`CoordinatorProtocol.NoReportAfterEnd`); the end
  of the turn of a follow-up or terminal message prevents it while snapshots keep naming the message, unless a send of
  it is still queued. `CoordinatorRuns.StaleSnapshotReopensTurn` gives the runs, for every such snapshot.
- A review that is reused need not be clean. It is reused exactly when the head and the dependencies did not change
  (`AutoimplementReviews.ReuseIff`), so serious findings pass the review phase after a repair that pushed nothing new:
  `AutoimplementWitnesses.SeriousReviewIsReused` gives the run.
- The bound on decisions does not keep a run within the 320 steps that the engine allows. Counting no more of an
  include than the step it returns by, the runs of at most n accepted decisions stay within it exactly when n is at
  most 21 (`AutoimplementLimits.StaysWithinIff`), where 40 are allowed; the other steps inside includes come on top.
  No input rules such a run out (`AutoimplementLimits.EveryInputPassesTheLimit`), and the longest run makes 602 visits
  (`AutoimplementLimits.TheLimitIsMet`).
- A route on offer cannot always be carried out. `AutoimplementRoutes.OfferedRouteIff` names the three exceptions,
  each of which ends the run: a review where the default branch is worked on directly, a redesign without a prepared
  workspace, and a verification while the newest implementation is one that failed.
  `AutoimplementRoutes.ReviewIsOfferedDirectly`, `AutoimplementRoutes.RedesignIsOfferedWithoutWorkspace` and
  `AutoimplementRoutes.VerificationIsOfferedAfterFailure` give the runs.
- The recorder's byte count is wrong after a failed write that dropped a waiting message end.
  `RecorderQueue.BytesDriftAfterAFailedWrite` gives the run, and `RecorderQueue.BytesRightAfterAFailedWriteIff` says
  exactly when the count is right; without such a write it is exact in every run.
- Whether the frame decoder throws can depend on the chunks. `NdjsonFrames.DependsOnCutsIff` says exactly for which
  streams.

## Model

| member | source | states |
|---|---|---|
| GraphEdges.ExpandFromExact | src/render/graph.ts:41-61 | The expanded edges are exactly one edge per plain edge and one per switch case, each with its endpoints, its case label and its own id, and all of them unmarked |
| Decimals.DecimalInjective | src/render/graph.ts:41-61 | Different numbers have different decimals: the fact that edge ids and the ids of untested findings rest on |
| GraphEdges.EdgeIdsDistinct | src/render/graph.ts:41-61 | No two expanded edges share an id, whatever the node names contain; virtual cells and segments can therefore be told apart by edge id |
| GraphEdges.Sweep | src/render/graph.ts:63-79 | The worklist visits exactly the nodes that the start reaches, each once, the start first and nearer nodes before farther ones |
| GraphEdges.BfsOrder | src/render/graph.ts:63-87 | The order lists every reachable and every declared node once, reachable ones first and by distance |
| BackEdges.DepthFirst.Visit | src/render/graph.ts:97-111 | One recursive visit settles every edge out of what it colours: it ends with an order that falls along every unmarked settled edge, and marks only edges whose target reaches their source |
| BackEdges.MarkBackEdges | src/render/graph.ts:95-117 | For every edge list: an edge out of a searched node is marked exactly when it does not fall in the finishing order, and its target then reaches its source along unmarked edges; nothing but the mark changes |
| BackEdges.MarkedIffNotFalling | src/render/graph.ts:95-117 | A searched edge is a back edge if and only if it closes a cycle with unmarked edges |
| BackEdges.UnmarkedAcyclicIff | src/render/graph.ts:95-117 | The unmarked edges hold no cycle if and only if the edges out of nodes the search never met hold none |
| BackEdges.UnmarkedAcyclic | src/render/graph.ts:95-117 | When every edge leaves a listed node, the unmarked edges hold no cycle at all |
| GraphPaths.AcyclicIffOutsideAcyclic | src/render/graph.ts:95-117 | A graph with a falling order on part of its arcs is acyclic exactly when the rest of it is |
| GraphLevels.PassAccounts | src/render/graph.ts:127-143 | One pass over the edges accounts for all walks one edge longer |
| GraphLevels.ComputeLongestLevels | src/render/graph.ts:119-145 | Within its bounded passes the loop reaches a fixpoint, and the levels are exactly the lengths of the longest forward walks from the start, defined exactly on what it reaches |
| GraphLevels.LongestIsFixpoint | src/render/graph.ts:127-143 | Longest-walk levels ask nothing more of any edge: a further pass changes nothing |
| GraphRanks.TailVisitor.Visit | src/render/graph.ts:161-181 | The memoised recursion returns the exact length of the straight tail from a node to a terminal one, and none where there is no such tail |
| GraphRanks.ComputeTailDepths | src/render/graph.ts:151-192 | The depths found are those of all listed nodes on straight tails, and no others |
| GraphRanks.ComputeNodeRanks | src/render/graph.ts:194-229 | First ranks are the longest levels, with one rank each below the lowest level for nodes without one, in listing order; tails sink to the largest first rank. The rank then rises along every unmarked edge out of a reachable node, and the nodes without an unmarked edge out lie on the largest rank taken |
| GraphRanks.EdgeGoesDown | src/render/graph.ts:210-228 | Pulling a tail down keeps the rank strictly increasing along an edge: the case analysis on both ends of the edge |
| GraphCells.SortedOrderUnique | src/render/graph.ts:325-327 | The order by score and then by index is the only permutation of the cells that is in that order |
| GraphCells.PermutedSameCells | src/render/graph.ts:292-295 | Reordering a rank by a permutation keeps its cells as a multiset |
| GraphCells.MoveKeepsView | src/render/graph.ts:292-304 | Moving the ends of all segments with the cells keeps each segment joined to the same two cells |
| GraphCells.Reindex | src/render/graph.ts:292-304 | A reindex permutes one rank and keeps every cell of every rank and every segment's end cells |
| GraphCells.SortRank | src/render/graph.ts:306-331 | Sorting a rank by barycenter keeps all cells and all segment ends, leaves the rank in the one order its scores ask for, and moves exactly the segment ends on it |
| GraphCells.SortedUp | src/render/graph.ts:306-331 | A rank sorted by its neighbours below is then in order of their mean positions as they now lie, and every rank under it stays so |
| GraphCells.OrderRanksByBarycenter | src/render/graph.ts:291-341 | All eight sweeps keep each rank's cells as a multiset and each segment's ends by cell identity, and leave every rank but the lowest in order of the mean positions of its neighbours below |
| GraphLayouts.ChainEdge | src/render/graph.ts:263-284 | A kept edge adds one virtual cell to each rank strictly between its ends and one segment per rank gap, from its source cell through its own cells to its target cell |
| GraphLayouts.ChainEdges | src/render/graph.ts:252-284 | After all edges each rank has gained exactly the virtual cells of the edges passing through it, and the segments are exactly the links of the kept edges |
| GraphLayouts.LayoutGraph | src/render/graph.ts:237-288 | For every definition: the whole chain of results above holds of the returned layout, there is exactly one rank more than the largest rank taken, every rank but the lowest is in barycenter order, and every unmarked edge out of a reachable node is kept |
| GraphTheorems.ValidatedDrawsEveryForwardEdge | src/render/graph.ts:254-262 | In a definition whose nodes are all declared and reachable the forward edges are acyclic and each of them is drawn: the drop test removes back edges only |
| GraphTheorems.CycleSurvivesIff | src/render/graph.ts:95-117 | Without validation a cycle of unmarked edges survives if and only if one lies among edges that leave nodes reached neither from the start nor from a node of the definition |
| GraphTheorems.StrayLoopSurvives | src/render/graph.ts:95-117 | Such a definition exists: a self-loop on an undeclared node stays unmarked |
| GraphTheorems.CellsDistinct | src/render/graph.ts:243-250 | No cell appears twice on a rank, so an end of a segment names one position |
| GraphTheorems.LinksExact | src/render/graph.ts:254-284 | Every link belongs to one kept edge at one rank gap, and every kept edge has a link at each gap it crosses |
| GraphTheorems.SegmentIffCrossed | src/render/graph.ts:237-341 | After all sweeps an edge has a segment between two adjacent ranks if and only if its chain crosses that gap, and the segment joins the chain's two cells there |
| MessageCoordinator.Coordinator.UpdateView | src/extension/workflow-message-coordinator.ts:110-134 | A snapshot lifts the fence, stops a turn whose message it cancels, and drops bookkeeping for every other message |
| MessageCoordinator.Coordinator.StartTurn | src/extension/workflow-message-coordinator.ts:140-144 | A lifecycle start moves only a delivering turn, to running |
| MessageCoordinator.Coordinator.EndTurn | src/extension/workflow-message-coordinator.ts:146-150 | A lifecycle end settles only a running turn, with this result |
| MessageCoordinator.Coordinator.AbortCancelledTurn | src/extension/workflow-message-coordinator.ts:355-369 | Pi is told to abort exactly when the owned turn runs, was asked to stop and was not aborted before, and the flag is set first |
| MessageCoordinator.Coordinator.Synchronize | src/extension/workflow-message-coordinator.ts:187-204 | A call that begins fenced, re-entered or without an active epoch goes no further; otherwise it is suspended at the content request or just after it |
| MessageCoordinator.Coordinator.AfterPrepare | src/extension/workflow-message-coordinator.ts:205-230 | A turn is taken up from a snapshot only when the snapshot shows it open and started for the current message and Pi's latest input is that message |
| MessageCoordinator.Coordinator.ResumeAdopting | src/extension/workflow-message-coordinator.ts:231-251 | An unreported owned delivery is reported first, then a settled turn is flushed, then the branch is reported when due, then the turn is flushed |
| MessageCoordinator.Coordinator.ResumeStarting | src/extension/workflow-message-coordinator.ts:415-437 | A start receipt confirms the turn, or asks it to stop, and never forgets it |
| MessageCoordinator.Coordinator.ResumeEnding | src/extension/workflow-message-coordinator.ts:440-458 | An accepted end gives the turn up, closes it as open turn in the captured and in the current snapshot object and in no other, and for a follow-up or terminal message closes the message |
| MessageCoordinator.Coordinator.ResumeReporting | src/extension/workflow-message-coordinator.ts:465-511 | An accepted branch report records exactly what it proved: the owned entry, or the current message as sent and the epoch |
| MessageCoordinator.Coordinator.ResumeFinishing | src/extension/workflow-message-coordinator.ts:253-293 | A call goes on to deliver only with no owned turn, Pi idle and nothing pending |
| MessageCoordinator.Coordinator.ResumeSending | src/extension/workflow-message-coordinator.ts:306-326 | A send that throws takes the queue entry and the minted turn back; one that returns reports the branch |
| CoordinatorRuns.Run | src/extension/workflow-message-coordinator.ts:187-332 | For every schedule of snapshots, branch changes, lifecycle events, calls and replies, every call the coordinator makes is allowed when it is made: sends are verified, idle and absent from the branch, and the turn protocol is kept. Each action adds to the log exactly the outside event it stands for, where that is taken in; a resumed call adds only calls of its own and their replies |
| CoordinatorRuns.DeliversPendingMessage | src/extension/workflow-message-coordinator.ts:187-332 | From a snapshot naming a pending message an undisturbed call sends it with its verified content and makes exactly these calls in this order |
| CoordinatorProtocol.StaysOutstanding | src/extension/workflow-message-coordinator.ts:110-134 | A sent message stays accounted for until the branch is rewound, a snapshot names another message, or its status goes back to pending |
| CoordinatorProtocol.SentAtMostOnce | src/extension/workflow-message-coordinator.ts:267-325 | In every run a message is sent again only after one of those breaks: while snapshots keep naming it, the branch only grows and its status only advances, it is sent at most once |
| CoordinatorProtocol.EndReportJustified | src/extension/workflow-message-coordinator.ts:403-449 | An end is reported only after, in this ownership, the server answered the start or cancelled the message, or after the ownership began from snapshots as in the row on turns taken up |
| CoordinatorProtocol.FirstResultReported | src/extension/workflow-message-coordinator.ts:146-150 | The first result a turn settles with is the only one reported for that ownership |
| CoordinatorProtocol.AbortedAtMostOnce | src/extension/workflow-message-coordinator.ts:355-369 | Abort is called at most once per ownership of a turn |
| CoordinatorProtocol.OwnerFactsPersist | src/extension/workflow-message-coordinator.ts:140-150 | Within one ownership a turn moves only forward: aborted stays aborted, the settled result stays, delivering never comes back |
| CoordinatorProtocol.NoReportAfterEnd | src/extension/workflow-message-coordinator.ts:206-230 | A report of a turn after its accepted end happens only if a snapshot arrives in between that shows the turn open and started in its session, and the newest snapshot names the message of the turn, of its run and starting turns, and shows a turn open for it or the message is queued; and when that end closed the message for good, only if also a snapshot in between did not name it, or it is queued when the turn is taken up |
| CoordinatorProtocol.AdoptionShown | src/extension/workflow-message-coordinator.ts:206-230 | Every turn taken up was shown open and started in its session, for that message of that run, by a snapshot with no accepted end of it since; the newest snapshot names the message as one that starts turns, and shows a turn open for it or it is queued; and the message was not closed for good or was queued |
| CoordinatorProtocol.ClosedStays | src/extension/workflow-message-coordinator.ts:110-134 | A message closed for good stays closed while snapshots name it |
| CoordinatorProtocol.QueuedIff | src/extension/workflow-message-coordinator.ts:110-134 | A message is queued if and only if it was put there and since then no send of it failed, no report of its entry was accepted, and every snapshot named it as pending |
| CoordinatorRuns.ReopensTurn | src/extension/workflow-message-coordinator.ts:206-230 | The converse, from every state with no call in flight: each snapshot that shows a turn open and started in its session, whose message that snapshot, or a later one that arrives while the content is fetched, names in its run and as starting turns, makes the coordinator take the turn up and report its end while Pi runs that message, if the last snapshot shows a turn open for a message not closed for good, or the message is queued |
| CoordinatorRuns.StaleSnapshotReopensTurn | src/extension/workflow-message-coordinator.ts:206-230 | For any two snapshots that show one turn open and any results: the end is reported, accepted, and reported once more, for a closed message after a snapshot that does not name it |
| AutoimplementModel.FindLatestAttempt | src/builtins/autoimplement.workflow.ts:710-720 | The backward scan finds the newest control attempt |
| AutoimplementModel.CountNoProgressAttempts | src/builtins/autoimplement.workflow.ts:760-781 | The backward scan counts the newest accepted observations in a row with this route and this result |
| AutoimplementModel.CountFailures | src/builtins/autoimplement.workflow.ts:948-971 | The backward scan counts the decisions that failed since the last accepted one; three mean blocked |
| AutoimplementGates.LevelMeans | src/builtins/autoimplement.workflow.ts:813-946 | A level of n is a record of the phases 1 to n passed at increasing positions after the last accepted change |
| AutoimplementGates.EdgesStayOpen | src/builtins/autoimplement.workflow.ts:2167-2347 | No edge of the graph leads past a phase that the step it leaves has not passed |
| AutoimplementGates.BranchesOfferOpenRoutes | src/builtins/autoimplement.workflow.ts:855-938 | What a branch result offers is open given the evidence that result wraps: clear review, clear comments and clear CI are each needed for the next route |
| AutoimplementGates.ResultsOfferOpenRoutes | src/builtins/autoimplement.workflow.ts:801-946 | What every other result, failed ones included, offers is open |
| AutoimplementGates.EveryRunIsGated | src/builtins/autoimplement.workflow.ts:2167-2347 | For every input and every sequence of agent, action, include and decider answers the gates hold at every visit |
| AutoimplementGates.AcceptedRoutesAreOpen | src/builtins/autoimplement.workflow.ts:1022-1046 | An accepted decision takes a route whose phases have been passed, whatever the decider answers |
| AutoimplementGates.DeliveryFollowsEveryPhase | src/builtins/autoimplement.workflow.ts:813-946 | A delivery decision is accepted only when, after the last accepted change, verification was ready, publication succeeded, review was clean or reused or P2 passed, comments were clear, and CI was green or red only for unrelated reasons, at increasing positions in the trace |
| AutoimplementReviews.ReuseIff | src/builtins/autoimplement.workflow.ts:1431-1449 | A review is reused if and only if the newest publication succeeded and each of its repositories has a completed review on record at that head and dependency fingerprint, whatever that review found; otherwise exactly the missing ones are selected |
| AutoimplementReviews.AssessmentReviews | src/builtins/autoimplement.workflow.ts:1451-1513 | An assessment in which every invocation succeeded leaves every published repository with a completed review at its head |
| AutoimplementReviews.EveryRunStands | src/builtins/autoimplement.workflow.ts:2167-2347 | In every run the assessment of a review, the fixing of P2 findings and the routes that offer it stand on reviews of the heads published last |
| AutoimplementReviews.ReviewPhaseIsReviewed | src/builtins/autoimplement.workflow.ts:1431-1513 | Whatever passes the review phase in a run, a clean review, a reused one or fixed P2 findings, every repository published last has by then a completed review on record at its head |
| AutoimplementReviews.DeliveryIsReviewed | src/builtins/autoimplement.workflow.ts:813-946 | A delivery decision is accepted only when all five phases were passed in order since the last accepted change and each repository published before the review phase has a step on record that reviewed it at the published head |
| AutoimplementWitnesses.SeriousReviewIsReused | src/builtins/autoimplement.workflow.ts:1431-1449 | That review need not be clean: in one run the only review on record found P0 or P1, a repair left the head as it was, and the review phase is passed by reuse |
| AutoimplementGates.CompleteFollowsDelivery | src/builtins/autoimplement.workflow.ts:813-946 | A complete decision is accepted only after a completed publication or delivery that no other accepted decision has followed |
| AutoimplementTermination.VisitSpends | src/builtins/autoimplement.workflow.ts:2167-2347 | For every number of decisions that a run stays within, every visit lowers a bound made of the decisions and failures left, the place in the branch, and what the phases still to be passed keep out of reach |
| AutoimplementTermination.EveryRunEnds | src/builtins/autoimplement.workflow.ts:2167-2347 | Left to itself every run ends after at most 602 visits, an include counting for its entry and the step it returns by; some run makes 602 |
| AutoimplementTermination.VisitsWithin | src/builtins/autoimplement.workflow.ts:2167-2347 | A run that stays within n accepted decisions makes at most 13 + 15 n - min(3 n, 11) visits, whatever the outside answers |
| AutoimplementLimits.TheLimitIsMet | src/builtins/autoimplement.workflow.ts:2167-2347 | For every n up to 40 some run of n accepted decisions makes exactly that many visits and ends |
| AutoimplementLimits.StaysWithinIff | src/workflows/engine.ts:555-574 | The runs with at most n accepted decisions make at most 320 visits, which is the limit of the engine, if and only if n is at most 21; an include counts for the one step it returns by, and its other steps come on top |
| AutoimplementLimits.EveryInputPassesTheLimit | src/workflows/engine.ts:555-574 | For every input some answers lead to 321 such visits, after 32 accepted decisions |
| AutoimplementTermination.DecisionsRunOut | src/builtins/autoimplement.workflow.ts:979-1005 | At most 41 decisions are accepted, and the 41st is blocked |
| AutoimplementTermination.FailuresRunOut | src/builtins/autoimplement.workflow.ts:948-971 | After three failed decisions in a row the run makes no other decision |
| AutoimplementTermination.EveryObservationOffers | src/builtins/autoimplement.workflow.ts:979-1020 | No observation throws, and none offers an empty choice |
| AutoimplementRoutes.EveryRunIsPublished | src/builtins/autoimplement.workflow.ts:1176-1178 | In every run the routes and nodes that read what is published, the last publication or the last report of it, find a report that succeeded, unless the default branch is worked on directly |
| AutoimplementRoutes.OfferedRouteIff | src/builtins/autoimplement.workflow.ts:801-946 | A route on offer is dispatched when chosen, and some answer lets its first visit succeed, if and only if it is not a review on the default branch, a redesign without a workspace or a verification of a failed implementation; in those cases every answer ends the run |
| AutoimplementRoutes.ReviewIsOfferedDirectly | src/builtins/autoimplement.workflow.ts:1431-1433 | The first case happens: a default branch that was not finalized is offered for review |
| AutoimplementRoutes.RedesignIsOfferedWithoutWorkspace | src/builtins/autoimplement.workflow.ts:815-827 | The second case happens: a redesign is offered after the workspace was blocked |
| AutoimplementRoutes.VerificationIsOfferedAfterFailure | src/builtins/autoimplement.workflow.ts:1671-1690 | The third case happens: a repair after a failed implementation is to be verified, and verification reads the files of that implementation |
| AutoimplementProgress.NoFourthAttempt | src/builtins/autoimplement.workflow.ts:989-1003 | After three consecutive accepted decisions on one route that ended in identical results, the next decision does not take that route |
| AutoimplementRuns.RunControl | src/builtins/autoimplement.workflow.ts:2167-2347 | For every run, read off its recorded trace, which is that of the answers given: each accepted decision was earned by the steps before it (a delivery by all five phases in order since the last accepted change, a complete by a completed delivery), at most 41 decisions were accepted with the 41st blocked, the run ended within 602 visits, and within the bound for the number of its decisions |
| CommandBatch.BatchFitsItsTimeout | src/builtins/autoimplement.workflow.ts:488-494 | In every work-conserving schedule that stops each command at its own timeout, every command ends at least 10 000 ms before the node's timeout |
| CommandBatch.StartsWithItsWave | src/workflows/command-batch.ts:96-121 | Command k starts no later than floor(k / slots) times the longest command |
| CommandBatch.RunPool | src/workflows/command-batch.ts:85-121 | The pool's schedule is work-conserving, runs one command per slot at a time, and keeps command order |
| PublishedCover.CoversExactly | src/builtins/autoimplement.workflow.ts:1310-1333 | The map-deleting loop accepts exactly the exact covers |
| PublishedCover.CoverIsPermutation | src/builtins/autoimplement.workflow.ts:1311-1333 | An exact cover of distinct entries is a rearrangement of them |
| PublishedCover.AcceptsRefreshed | src/builtins/autoimplement.workflow.ts:1298-1334 | P2 verification is accepted if and only if it re-observes each publication once, equal in everything but its head |
| PublishedCover.AcceptsTargets | src/builtins/autoimplement.workflow.ts:1336-1363 | A CI inspection is accepted if and only if it has exactly one target per publication, at the published head |
| PublishedCover.AcceptsDelivery | src/builtins/autoimplement.workflow.ts:1209-1296 | A delivery is accepted if and only if it claims no merge against the policy and, where it claims completion, reports each published pull request once, merged exactly as the policy says, with top-level fields of the first |
| RecorderQueue.BatchIsLongestCapped | src/extension/recorder.ts:617-630 | A flush takes the longest prefix of the queue within both caps, or one oversized event alone |
| Recorder.SessionRecorder.Record | src/extension/recorder.ts:545-600 | An event is queued, counted and flushed or scheduled, or refused with a capture failure, and the invariant is kept |
| Recorder.SessionRecorder.HandleMessageEnd | src/extension/recorder.ts:304-328 | A message end is queued, held back with all that follows, and the timer is cleared |
| Recorder.SessionRecorder.Synchronized | src/extension/recorder.ts:391-411 | Waiting message ends are released in order, each with its entry and the size the entry adds, then a flush starts or is scheduled |
| Recorder.SessionRecorder.BeginFlush | src/extension/recorder.ts:617-637 | A flush hands over one batch, only with none in flight and no message end waiting |
| Recorder.SessionRecorder.FlushSettled | src/extension/recorder.ts:638-661 | A settled write gives its counts back, an error drops the queue, and the next flush starts |
| Recorder.SessionRecorder.BeginStop | src/extension/recorder.ts:438-456 | Stopping refuses further events, releases the waiting message ends and starts the last flush |
| Recorder.SessionRecorder.FlushAllEvents | src/extension/recorder.ts:663-671 | After a stop the last flushes terminate however the writes settle, leave nothing queued or counted and, without a failure, have handed over everything accepted |
| RecorderQueue.ReleaseAllKeeps | src/extension/recorder.ts:396-404 | Releasing message ends keeps order, numbering and both counters |
| RecorderQueue.SettleKeeps | src/extension/recorder.ts:638-661 | A settled write keeps the invariant, and either shortens the queue or leaves no write in flight |
| RecorderQueue.BatchesThenQueueAreTheHistory | src/extension/recorder.ts:545-661 | Until a capture failure the batches handed over and then the queue are the accepted events, in order, numbered from 1 |
| RecorderQueue.NothingPastAWaitingEnd | src/extension/recorder.ts:304-328 | Everything handed over is older than every message end that still waits |
| RecorderQueue.BytesDriftAfterAFailedWrite | src/extension/recorder.ts:396-404 | After a failed write that dropped a waiting message end, its release still moves the byte count, which is then wrong |
| RecorderQueue.BytesStayExactlyWithoutEntries | src/extension/recorder.ts:396-404 | After such a write the synchronization that releases the waiting message ends leaves the byte count equal to what is queued and in flight if and only if none of them claims an entry |
| RecorderQueue.BytesRightAfterAFailedWriteIff | src/extension/recorder.ts:396-404 | From any state before a failed write: the write and the release together leave nothing queued or in flight, and the byte count is right, that is 0, if and only if no released message end claims an entry, for only then does its record grow |
| Recorder.AcceptsWhatHappens | src/extension/recorder.ts:545-600 | Until a capture failure the recorder has accepted exactly the events and message ends that Pi emitted before the stop, in order; after one, a prefix of them |
| Recorder.Run | src/extension/recorder.ts:304-690 | For every sequence of events, releases, writes, failures, timers and stops the outcome is that of the steps; what was accepted is what Pi emitted up to the stop or a failure; batches are capped, in order and numbered from 1, nothing is lost before a failure, nothing passes a waiting message end before the stop, and both counters are the queue plus the batch in flight |
| Recorder.RunAndStop | src/extension/recorder.ts:438-456 | However a run went, stopping it hands over all that Pi emitted up to the stop unless capture failed, and leaves nothing queued or counted; if the last writes succeed, capture failed only if it had during the run |
| ChangeVerification.ClassifyVerification | src/builtins/change-verification.workflow.ts:659-804 | The classifier's loop gives each check's finding to the list of its verdict and to no other |
| ChangeVerification.ReadyIff | src/builtins/change-verification.workflow.ts:659-804 | A classification is ready if and only if nothing is untested, no cleanup failed, no fixer was rejected, and every check has a complete candidate result that passes or fails exactly as a complete, comparable base result does |
| ChangeVerification.RepairableBlamesTheChange | src/builtins/change-verification.workflow.ts:659-804 | A repairable classification names a check that passes on the base and fails on the candidate |
| ChangeVerification.CheckBehind | src/builtins/change-verification.workflow.ts:671-762 | Every listed finding is that of a check with the list's verdict |
| ChangeVerification.FindingListed | src/builtins/change-verification.workflow.ts:671-762 | Every check's finding is in the list of its verdict |
| ChangeVerification.ListHoldsIff | src/builtins/change-verification.workflow.ts:659-804 | A list of the classification, the cleanup, rejected-fixer and untested findings included, holds an id if and only if a check of that id has its verdict, or the id is base-cleanup, mechanical-fix-boundary or untested-1, untested-2 and so on, and there is such a finding |
| ChangeVerification.UntestedIdsDistinct | src/builtins/change-verification.workflow.ts:763-768 | No two untested findings share an id, and none has that of the cleanup or the rejected fixer |
| ChangeVerification.OneListPerCheck | src/builtins/change-verification.workflow.ts:659-804 | With distinct check ids an id is in two lists of the classification if and only if a check listed in one is named like a cleanup, rejected-fixer or numbered untested finding that the other holds |
| VerificationRuns.PreviousRepairAttempts | src/builtins/change-verification.workflow.ts:634-657 | The scan collects the reported repairs and, with the digest of the last guard, the interrupted ones |
| VerificationRuns.EveryRunEnds | src/builtins/change-verification.workflow.ts:1182-1188 | Every run makes at most two repairs and at most 24 visits, so the limit of 30 steps is never why it ends |
| VerificationRuns.TheBoundIsMet | src/builtins/change-verification.workflow.ts:1382-1445 | Some run does make 24 visits and two repairs |
| VerificationRuns.NoFailureRepairedTwice | src/builtins/change-verification.workflow.ts:1113-1147 | In every run completed repairs were made for pairwise different failures |
| VerificationRuns.ReadyIsEarned | src/builtins/change-verification.workflow.ts:1382-1445 | A run becomes ready only on candidate and base results taken after its last repair, which are classified ready or which a judge called ready when they needed judgment |
| VerificationRuns.RunVerification | src/builtins/change-verification.workflow.ts:1182-1445 | For every run, read off its recorded trace, which is that of the answers given: at most 24 visits and two repairs, no failure repaired twice, and a ready exit only on the classification of results that no repair has followed, or on a judgment of them |
| AgentPool.AgentGroup.AgentEnded | src/builtins/pi-agent-group.ts:152-173 | An agent's end files its result under its own index or notes the first error, and its slot goes on or stops |
| AgentPool.AgentGroup.QueuedCancellations | src/builtins/pi-agent-group.ts:1336-1354 | Exactly the requests never started are published as cancelled, each once |
| AgentPool.SettleKeeps | src/builtins/pi-agent-group.ts:152-173 | Every agent's end keeps the pool's invariant on starts, slots, results and the first error |
| AgentPool.RunGroup | src/builtins/pi-agent-group.ts:145-188 | For every number of agents, concurrency, outcome and order of ending: agents start in order, each once, never too many at a time; success means all were started and puts every result at its index; otherwise the first error is thrown, failing fast stops all later starts and else all are started, and exactly the never-started are reported cancelled |
| NdjsonFrames.NdjsonFrameDecoder.Push | src/client/protocol.ts:237-264 | A push throws exactly on an unfinished line over the limit or a line that with its newline exceeds it; otherwise it emits the non-empty lines and keeps the tail |
| NdjsonFrames.LinesConcat | src/client/protocol.ts:245-262 | Reading on from the tail gives the same lines as reading everything at once |
| NdjsonFrames.Decode | src/client/protocol.ts:237-264 | A decoder throws on a stream in chunks if and only if a line with its newline is over the limit, or a chunk that ends no line makes the unfinished one longer than it; otherwise it emits exactly the non-empty lines |
| NdjsonFrames.AlwaysAcceptedIff | src/client/protocol.ts:237-264 | No way of cutting a stream into chunks makes the decoder throw if and only if all its lines and its unfinished end are within the limit |
| NdjsonFrames.NeverAcceptedIff | src/client/protocol.ts:237-264 | Every way does if and only if a line is over the limit, or the stream is one unfinished line over it |
| NdjsonFrames.DependsOnCutsIff | src/client/protocol.ts:245-249 | The chunks alone decide if and only if all lines are within the limit, there is one, and the unfinished end is over it |
| NdjsonFrames.RoundTrip | src/client/protocol.ts:137-146 | Any chunking of a stream of encoded frames decodes to the messages |
| CharCanvas.TablesInvert | src/render/canvas.ts:32-48 | The two mask tables are inverse |
| CharCanvas.MeetingLinesHaveAGlyph | src/render/canvas.ts:102-110 | Any two line characters have a glyph together: the fallback to the incoming character is unreachable |
| CharCanvas.Canvas.Put | src/render/canvas.ts:87-118 | A put keeps every cell showing what was written on it |
| CharCanvas.Canvas.DrawHorizontal | src/render/canvas.ts:201-206 | A horizontal line is its puts, whichever end comes first |
| CharCanvas.Canvas.DrawVertical | src/render/canvas.ts:208-213 | A vertical line is its puts, whichever end comes first |
| CharCanvas.Draw | src/render/canvas.ts:87-118 | After any drawing each cell shows the last character other than a line written there, else the glyph of the union of its lines in their highest style, else nothing |
| CharCanvas.ShowsOneThing | src/render/canvas.ts:87-118 | That description determines the cell |
| CharCanvas.LineOrderIsIrrelevant | src/render/canvas.ts:67-118 | Among lines the order of drawing does not matter |
| PageCompletion.CompletePage | src/client/materialize.ts:122-175 | Whatever the server answers, completion ends after at most as many requests as items were missing; if the window and the pages are slices of one history the result is that history; if every answer has the item asked for it succeeds |
| MonitorGuard.RepeatedCompletedRepair | src/builtins/monitor.workflow.ts:550-570 | The scan asks whether a repair completed after the newest earlier observation that asked for this one |
| MonitorGuard.GuardStopsExactlyRepeats | src/builtins/monitor.workflow.ts:550-588 | While a run goes on the guard stops a repair if and only if that repair has been completed before |
| MonitorGuard.EveryRunIsSound | src/builtins/monitor.workflow.ts:889-908 | In every run each failure in each target state has at most one completed repair, no more than maxChecks observations are accepted, and the run ends within that many rounds |
| SessionDelivery.SessionDeliveryCoordinator.Synchronize | src/extension/session-delivery.ts:34-67 | A poll first settles the queued delivery, then sends the claim at hand, then asks for a new claim, and is refused while another poll is suspended |
| SessionDelivery.SessionDeliveryCoordinator.ResumeChecked | src/extension/session-delivery.ts:92-116 | After the deliverability check a claim is sent only if it is still live and Pi is still free, and leaves the coordinator's hands in the same step |
| SessionDelivery.SessionDeliveryCoordinator.ResumeSettled | src/extension/session-delivery.ts:154-173 | A stored receipt empties the queue; a failed one is reported once |
| SessionDelivery.SentOnAnswers | src/extension/session-delivery.ts:92-152 | Every message sent goes back to one answer that its claim can be delivered, into the world of that answer, and its claim to one answer of the server that made it |
| SessionDelivery.Run | src/extension/session-delivery.ts:29-174 | For every interleaving of polls, replies and clears the log is that of the steps; each claim is sent at most once, live, while Pi is free and with no other message outstanding, each is reported ambiguous at most once, and at most one delivery is queued or claimed |
| TelegramParts.RenderParts | src/channels/telegram.ts:298-313 | Every part is within 4096 UTF-16 code units and not empty unless the text is; the parts make up the text but for newlines at cuts; a shorter part was cut at a newline in the second half |
| Conditions.MergeConditions | src/resource-managers/conditions.ts:56-82 | A merge is rejected exactly when a type or reason is blank or a type is updated twice; otherwise updates replace conditions in place in the map by type that the current list builds, whatever it holds |
| Conditions.MergeMeans | src/resource-managers/conditions.ts:62-82 | The merged list has one condition of each type; an updated type keeps its transition time exactly when the last current condition of that type had the new status, and every other type keeps its last condition |
| Conditions.TransitionTimeIsLastChange | src/resource-managers/conditions.ts:56-82 | Over any history of merges a condition's transition time is that of its last change of status |
| Conditions.LastChangeMeans | src/resource-managers/conditions.ts:69-76 | That time is of a merge that gave the status, which differed before, and since which no merge gave another |

## Left out

- Graph layout: node glyphs, styles, route overlays and the drawing of back edges, which read the layout.
- Graph layout: `Object.keys` order of numeric-looking node names; the declared nodes are a list in the order the runtime gives.
- Barycenter scores are reals; the source uses floating point, whose rounding can order near-equal means differently.
- Message coordinator: `clear`, the session shutdown reset, and the guards that only it can make fail.
- Message coordinator: `toolCallBlockReason` and the parsing of message content, which read one field each.
- Message coordinator: random turn ids are numbers above all seen before; the clock is not used.
- Message coordinator: fencing during a call in flight is not claimed to stop it; only a call that begins fenced does nothing.
- Message coordinator: Pi's `sendMessage` may fire lifecycle events inside the call, but no snapshot arrives inside it.
- Autoimplement: an included workflow is one visit with exit ready or blocked and one visit of its return step; the engine's own recording of includes is not part of this model.
- Autoimplement: the engine's stop at `maxSteps: 320` is not a step of the machine; the 602 visits bound a run that the engine leaves alone, and the steps inside includes, which the engine counts too, are not part of this model.
- Autoimplement: prompts, evidence ledgers, settings and the text fields of a control decision; a decision that fails their checks is a failed decision. Putting the final result together is taken to succeed.
- Autoimplement: a published repository is its id, head and dependency fingerprint, and a review entry adds whether the invocation succeeded and the worst severity; paths, branches and findings are not kept here.
- Command batch: cancellation by signal, where commands not started are reported cancelled.
- Exact-cover parsers: the checks on single fields; paths are taken as already resolved.
- Recorder: owners of turns, messages and tools, the choice of the entry that a message end claims, and session bindings.
- Recorder: queued events are values updated in place by sequence number, where the source shares one object between the queue and the pending list.
- Recorder: synchronizations that resume while the last flushes run; they change nothing but the timer then.
- Change verification: planning and running of commands, workspace backup and restore, and the text replacement that normalizes outputs.
- Change verification: a failed cleanup is a flag, where the source looks for a word in the evidence.
- Agent pool: sessions, lifecycle updates of running agents and credential stores.
- Frame decoder: parsing of frames; canonical JSON is taken to be non-empty and free of raw newlines.
- Canvas: text of double-width or combining characters, `textIfEmpty`, `textOverRun` and terminal painting; masks are sets of sides instead of bits.
- Monitor: progress estimates, reports and the planning and implementation inside a repair, which is one answer.
- Session delivery: the text of notifications; a branch entry is visible or not per delivery id.
- Conditions: blank means the ASCII blanks; the source trims all Unicode white space.
- The client's run-list subscription and reconnection: a generation counter drops the pages of an older list, and the pages of one list are completed as in page completion.
- Telegram polling, Git, files, sockets and child processes: foreign effects.

# A verified model of the impact, test-run and document pipeline

The repository analyses a merge request, selects the code a change can affect, retrieves test design documents, has
tests generated, executed and repaired, and keeps budgets and queues for all of it. This project models the parts
of `backend/internal/` whose correctness rests on a loop invariant or on a whole protocol, and proves what they are
for. `dafny verify dfyconfig.toml` checks everything.

## How the model is built

- **Imperative code stays imperative.** Objects that update fields are classes (`ClientRateLimiter`, `Search`,
  `GraphData`), loops are loops, and every repository transaction is a method over tables held in fields, statement
  by statement, with its roll-back. Each such method is proved equal to a function of the old state; the theorems are
  about those functions.
- **Protocols are transition systems.** One SQL transaction is one atomic step. Workers, reviewers, uploaders and
  purgers are interleaved in any order, each holding the record it claimed; every event carries its own clock
  reading, and no theorem needs readings to be ordered unless it says so. A theorem about runs is a lemma about every list of
  events from an initial state.
- **Table rows are identified by position**, so that a foreign key is an index. An item that a scope decision deletes
  keeps its position with the status Removed, which no query sees; purging is the only other deletion.
- **A property that fails is shown to fail** on a run from the initial state or a concrete input, with the condition
  under which it holds, in both directions.

| modules | repository files | what is proved |
|---|---|---|
| ImpactGraph, ImpactSearch, ImpactReasons, ImpactEngine, ImpactDeterminism | `analyzer/impact_engine.go` | the capped search reports exact shortest distances whatever the cap cuts off; below the cap the complete selection, whose meaning is defined without a search and which does not depend on adjacency order; every reason and score read off the graph |
| RunModel, RunInvariants, RunWorkers, RunTheorems, RunBounds, RunStore | `execution/repository.go`, `execution/worker.go`, `automation/repository.go`, `scope/repository.go` | exclusive holders; commits with increasing attempts; bounded attempts; immutable contracts and bindings, under every interleaving; the unstated agreement between a run's counter and its items, kept exactly as long as scope decisions pass a check the code does not make |
| RunStock | the same | exactly which runs have nothing to execute, what empties and stocks them, what their claims find, and which never end |
| RunStuck, RunLoops | the same, `automation/repair_worker.go` | exactly when a run or a repair job is left RUNNING for good; runs that are claimed without end; concrete runs that reach these states |
| RepairJobs, RepairGuard | `automation/repository.go`, `automation/repair_processor.go` | dense job numbers, one active job, bounded claims, one holder; a chain of repairs of any length keeps the asserted meaning |
| RateLimiter | `httpapi/hardening.go` | token and table bounds, the window bound, invisibility of pruning, and the exact condition for both |
| AiBudget | `aibudget/budget.go` | the global bounds on used plus held tokens and cost |
| ParseQueue, GenerationQueue | `document/repository.go`, `generation/repository.go` | fencing: tokens are new, stale ones are powerless, one result is stored for good |
| IndexGenerations | `document/index_repository.go` | the status row mirrors the newest generation; settled generations stay settled |
| PurgeSaga | `document/service.go`, `document/repository.go` | rows never lose their files, over two stores without a common transaction; nothing is purged before its retention has passed |
| DiffParser, SymbolMapper | `analyzer/diff_parser.go`, `analyzer/mapper.go` | print and parse round trip; binary search against linear search; exact change list |
| Markdown, MarkdownMeaning, Semantic, Text | `document/parser.go`, `document/semantic.go` | every non-blank line in one block, the heading stack; conservation of text, bounded parts, distinct keys |
| SourceSnapshot | `document/source_snapshot_repository.go` | the fingerprint as canonical form; the acceptance rule; idempotence |
| EvaluationRules, EvaluationReport, EvaluationMeaning | `evaluation/validate.go`, `evaluation/aggregate.go` | the rules imply the counting laws and rule out the report's own errors; every figure counted from the observations, with its sign |
| Sorting, Results | shared | sorts of map contents; optional values and errors |

## Assumptions

- A digest is a parameter that tells its inputs apart; a new storage key is one never generated before.
- A run is created with `attempt_count` 0 and one NOT_RUN item of attempt 1 per included test case, and with at least one: a selection that comes out empty is replaced by the whole release (`backend/internal/scope/repository.go:227-283`, `RunModel.CreateRun`).
- A job enters GENERATING_TESTS with no lease and no error message, as `backend/internal/recommendation/repository.go:115-118` leaves it.
- Callers present only tokens they were handed.
- Starting an index generation is atomic. The code takes no lock while a set has no status row
  (`backend/internal/document/index_repository.go:67-82`); what the model says of a set's first generation rests on this.
- Configuration does not change during a run of the system; a budget ledger may go on under another price list. Prices are not negative.
- Letter folding leaves white space as it is and makes neither white space nor NUL out of anything else; a JSONB column accepts no NUL.
- Node keys, kinds, receivers and symbol names contain no NUL, file paths are already slash-separated, and an edge's relation is one of the three the graph builders write.
- Floating-point numbers are reals.

## What the proofs brought to light

- A scope decision can break the agreement of a run's counter with its items, because it looks at no run status. Excluding the one case that waits for a second attempt leaves the run queued with nothing to execute: every claim fails and is put back, without end (`RunLoops.ExclusionStrands`). Below the claim limit such a run never ends (`RunLoops.ExclusionStrandsForGood`, `RunStock.BarrenForever`). The agreement holds along a run of the system if and only if every decision leaves the run an item at its attempt, or no items at all, and includes no case too late (`RunInvariants.DecideScopeExact`, `RunWorkers.AlignedExactly`).
- The agreement alone does not mean that claims find work: excluding the only case of a queued run keeps it and leaves nothing to execute (`RunLoops.EmptyingStrands`). Claims always find items if and only if every exclusion that deletes anything leaves an item at the run's attempt (`RunStock.StockedExactly`, `RunStock.ClaimsFindItems`). The automatic queueing takes an emptied run for a fully automated one (`RunStock.EmptyIsAutomated`).
- The repair path overwrites `attempt_count`. It writes the value that is there if and only if the agreement holds (`RunInvariants.RequeueKeeps`); even without it no finished attempt is ever executed again (`RunTheorems.SavesAdvance`).
- A run stays RUNNING for good if and only if the worker that held it crashed, or its release did not reach the database in time (`RunStuck.OrphanedExactly`, `RunStuck.OrphanStuck`, `RunLoops.OrphanReached`). The same holds of repair jobs, and such a job blocks its run and case (`RunStuck.DesertedExactly`, `RunStuck.DesertedBlocks`).
- A run whose processing always fails is reclaimed without bound below its claim limit, because giving it back lowers the counter again (`RunLoops.ReclaimedExactly`).
- A released attempt number is handed out again, so the worker's wait for its renewals before giving a claim back is essential (`RunTheorems.TokensAreReused`).
- The rate limit holds for all runs exactly when `burst <= 600 * rate`; otherwise pruning hands an idle client a second full bucket (`RateLimiter.WindowBoundExactly`, `RateLimiter.PruningInvisibleExactly`).
- The reported cost remainder is clamped at zero. Under one price list it decides every request (`AiBudget.OneListPredicts`); after a change to a free one it can show room where a call is refused (`AiBudget.StatusCanMislead`).
- Chunk rows are shared between index generations. A READY generation's rows stand if and only if no later completion brings another payload for them (`IndexGenerations.ReadyRowsStandExactly`); a superseded generation that completes late does just that (`IndexGenerations.LateCompletionRewritesChunks`).
- A READY generation has as many members as `chunk_count` says if and only if it was not completed a second time, which takes a first completion with no chunks; the service never asks for one (`IndexGenerations.CountRightExactly`, `IndexGenerations.RecompletedWasEmpty`).
- The assertion guard joins with NUL characters. A proposal means the same as stored assertions if and only if it passes and has no NUL (`RepairGuard.GuardMeans`); the column that stores proposals accepts none, so stored chains of repairs keep their meaning (`RepairJobs.LineageKeeps`).
- A line of hashes followed by two or more spaces is a heading with empty content; the block table refuses a document if and only if it has one (`Markdown.RefusedExactly`).
- Long white space can leave an empty part of a split text: exactly if it may run on for more than half the limit (`Semantic.EmptyPartsExactly`).
- The order of reported changes is decided if and only if no two of them tie on start line and name (`SymbolMapper.OrderDecidedExactly`).

## Model

| member | source | states |
|---|---|---|
| ImpactGraph.GraphData.AddNode | backend/internal/analyzer/impact_engine.go:170-177 | A known key keeps its node and only gains the existing-test flag; an unknown key is added; the graph stays well formed |
| ImpactGraph.GraphData.AddEdge | backend/internal/analyzer/impact_engine.go:179-186 | A self-loop or an edge with a missing end changes nothing; any other edge is appended at exactly its two ends, so the two edge maps stay in step |
| ImpactGraph.AddReason | backend/internal/analyzer/impact_engine.go:530-537 | A reason list stays free of duplicates and gains exactly the given reason |
| ImpactGraph.DistanceIsShortestPath | backend/internal/analyzer/impact_engine.go:393-430 | Being first reached in layer d is the same as having a shortest undirected path of length d from a direct node |
| ImpactSearch.EndsSelected | backend/internal/analyzer/impact_engine.go:395-397 | While a node is expanded, every visited neighbour is already at most as deep as the new depth: the relaxation test depth < existingDepth never succeeds for a visited node |
| ImpactSearch.Search.WalkEdge | backend/internal/analyzer/impact_engine.go:393-424 | One edge of the current node keeps the whole search invariant (exact depths, monotone two-layer queue, merged reasons, best scores, recorded edges) and lowers the termination measure or keeps it |
| ImpactSearch.Search.Expand | backend/internal/analyzer/impact_engine.go:425-430 | Walking all edges of the current node, outgoing then incoming, leaves it done: below the cap every one of its walks has been made |
| ImpactSearch.Search.Run | backend/internal/analyzer/impact_engine.go:387-431 | The loop terminates with an empty queue and the invariant: depths exact, frontier closed, nodes and edges merged |
| ImpactEngine.MatchingNodes | backend/internal/analyzer/impact_engine.go:494-509 | Returns exactly the keys whose symbol, package, receiver (empty matches any) and file match, sorted and without duplicates |
| ImpactEngine.RepresentsEvery | backend/internal/analyzer/impact_engine.go:364-370 | Every direct symbol is represented among the seeds by a matching node or by a node of its own |
| ImpactEngine.RepresentedKeeps | backend/internal/analyzer/impact_engine.go:366-370 | Adding direct nodes never changes a node the graph already has |
| ImpactEngine.SelectMatches | backend/internal/analyzer/impact_engine.go:371-380 | Matches are selected at depth 0, score 1, reason DIRECT_CHANGE, in order, until the cap; below the cap all of them |
| ImpactEngine.SelectDirect | backend/internal/analyzer/impact_engine.go:358-381 | The direct part of the selection: known nodes are kept, missing ones added, and the seeds are all representing keys unless the cap was hit |
| ImpactEngine.SearchComplete | backend/internal/analyzer/impact_engine.go:387-431 | Below the cap the selected keys are exactly the nodes within MaxDepth, and exactly all walks from nodes nearer than MaxDepth have been made |
| ImpactEngine.LimitsHold | backend/internal/analyzer/impact_engine.go:364-431 | Even when MaxNodes cuts the search, at most MaxNodes nodes are reported, every depth is the true shortest distance from the seeds and within MaxDepth, and reported edges join reported nodes |
| ImpactEngine.SelectImpact | backend/internal/analyzer/impact_engine.go:348-464 | The whole selection: limits, exact depths and a cause for every reason, score and edge always; below the cap the complete, sorted report of nodes (reasons merged, score the best over all walks) and edges |
| ImpactDeterminism.OrderIndependent | backend/internal/analyzer/impact_engine.go:393-462 | Two graphs that list the same edges in different order have one and the same complete report, nodes and edges, in the same order |
| ImpactDeterminism.ReportedEdges | backend/internal/analyzer/impact_engine.go:417-423 | Between known nodes a raw edge is reported exactly when it touches a node nearer than MaxDepth |
| ImpactReasons.ReasonsExactly | backend/internal/analyzer/impact_engine.go:466-481 | A reported node carries CALLER exactly if it is no test and calls a node nearer than MaxDepth, CALLEE exactly if it is no test and is called by one, EXISTING_TEST exactly if it is a test with a call either way, INTERFACE_IMPLEMENTATION and TYPE_USAGE for such edges in either direction, and DIRECT_CHANGE exactly for direct nodes; or if it had the reason before |
| ImpactReasons.ScoreExactly | backend/internal/analyzer/impact_engine.go:483-492 | A direct node scores 1; any other the best of its causes, where a call by a test counts 0.92, a caller 0.88, an implementation 0.84, a callee 0.78 and a type use 0.74, each less 0.12 per step of distance and never below 0.1 |
| ImpactReasons.CallersAreImpacted | backend/internal/analyzer/impact_engine.go:474-479 | Whoever calls a function at distance d below MaxDepth, and is no test, is reported as CALLER and, unless direct, with at least max(0.1, 0.88 - 0.12 d) |
| ImpactReasons.CalleesAreImpacted | backend/internal/analyzer/impact_engine.go:474-480 | Whatever such a function calls, and is no test, is reported as CALLEE and, unless direct, with at least max(0.1, 0.78 - 0.12 d) |
| ImpactReasons.FadedFalls | backend/internal/analyzer/impact_engine.go:487-491 | Scores fall with each step of distance until they reach 0.1, and stay there |
| ImpactReasons.LawfulIsReported | backend/internal/analyzer/impact_engine.go:409-422 | For every graph edge with an end nearer than MaxDepth the complete selection reports an edge with the reason its relation, its direction and the test flag give, at least as deep |
| ImpactReasons.CodesInOrder | backend/internal/analyzer/impact_engine.go:436-437 | Reasons are sorted as their codes are |
| ImpactEngine.ReportIsExplained | backend/internal/analyzer/impact_engine.go:387-464 | Whatever the cap has cut off, every reported reason, score and edge has its cause in the graph, and nodes, edges and reason codes are in the documented order |
| ImpactEngine.DirectInOrder | backend/internal/analyzer/impact_engine.go:357-363 | Direct symbols are taken by file and then by name |
| Sorting.StringLeDecided | backend/internal/analyzer/impact_engine.go:436-462 | Of two strings that differ, the first place where they do decides the order |
| Sorting.StringLePrefix | backend/internal/analyzer/impact_engine.go:436-462 | Where two strings do not differ the shorter comes first |
| RunInvariants.SaveOutcomesExact | backend/internal/execution/repository.go:122-157 | A successful batch writes each outcome to its own NOT_RUN item of the claimed attempt, touches nothing else, and appends exactly one next-attempt clone per retried infrastructure error, in order |
| RunInvariants.SavedExactly | backend/internal/execution/repository.go:122-175 | A save writes every outcome, verdict and binding, to its own item; exactly the infrastructure errors, and only below the limit, get one next try each with the same expected result, in order; the run is PENDING after the delay exactly if there is one, and COMPLETED otherwise; nothing else changes |
| RunInvariants.SaveKeeps | backend/internal/execution/repository.go:111-177 | Saving keeps every item within its run, what is next unexecuted, and the agreement of the counter with the items attempts |
| RunInvariants.RetryOrFailKeeps | backend/internal/execution/repository.go:179-195 | Giving a claim back, counter lowered or run failed, leaves the run at the same attempt and keeps the agreement |
| RunInvariants.RequeueKeeps | backend/internal/automation/repository.go:209-249 | Re-queuing an approved repair adds one NOT_RUN item past the largest attempt; it writes attempt_count with the value it has exactly if the row agrees with the items, and a lower one otherwise |
| RunInvariants.ReviewKeeps | backend/internal/automation/repository.go:163-269 | A review, with all it sets off, keeps soundness and the agreement |
| RunInvariants.CreateKeeps | backend/internal/scope/repository.go:305-333 | A new run, pending at attempt 0 with first-attempt items, keeps soundness and the agreement |
| RunInvariants.TopIsMax | backend/internal/automation/repository.go:220-223 | For a run with items the largest attempt never exceeds the one its row is at, and the row agrees with the items exactly if they are equal |
| RunInvariants.DecideScopeSound | backend/internal/scope/repository.go:399-449 | A scope decision, on a run in any state, keeps every item within its run and what is next unexecuted |
| RunInvariants.DecideScopeExact | backend/internal/scope/repository.go:422-434 | Where the agreement holds a scope decision keeps it if and only if an exclusion leaves an item of the attempt or none at all, and an inclusion meets the case, other items or a first attempt |
| RunInvariants.DecideScopeStays | backend/internal/scope/repository.go:422-434 | A decision removes or adds only items that have not run |
| RunWorkers.StepKeeps | backend/internal/execution/worker.go:46-95 | Every step of every run worker, repair worker, reviewer of artifacts and of scope, and requester keeps the system invariant, for any clock readings |
| RunWorkers.Reachable | backend/internal/execution/worker.go:46-95 | Every state reachable by any interleaving, scope decisions included, satisfies it: items within their runs, holders hold running rows at their attempt, holders are exclusive, commits lie in the past |
| RunWorkers.StepAligned | backend/internal/scope/repository.go:422-434 | From an agreeing state a step keeps the agreement if and only if it is not a scope decision that fails that check |
| RunWorkers.AlignedExactly | backend/internal/scope/repository.go:399-449 | The agreement of counters and attempts holds all along a run of the system if and only if every scope decision in it passed that check in the state it met; whether runs then have something to execute is RunStock.StockedExactly |
| RunWorkers.ReviewIsQuiet | backend/internal/automation/repository.go:239-263 | A review never starts or stops a running run, and never takes a counter back below an attempt that has finished items |
| RunTheorems.ContractsForever | backend/internal/execution/repository.go:147-156 | Along any run of the system all live items of one run and test case keep one expected snapshot and hash, through every retry, repair, exclusion and inclusion; attempt numbers stay unique per case; finished items stay finished |
| RunTheorems.HolderKeepsLease | backend/internal/execution/repository.go:179-207 | A worker that holds a run never loses it: renewal and release succeed, and nobody else holds the run |
| RunTheorems.HolderSavesIff | backend/internal/execution/repository.go:111-177 | A holder's save commits exactly when it reports at least one outcome and every outcome names its own distinct item of the attempt with a legal artifact binding |
| RunTheorems.SavesAdvance | backend/internal/execution/repository.go:163-175 | Commits of one run carry strictly increasing attempt numbers: no attempt is saved twice |
| RunTheorems.TokensAreReused | backend/internal/execution/worker.go:53-71 | A release and the next claim use the same attempt number, so a renewal left in flight would hit the new claim; the worker waits for its renewals first |
| RunStuck.OrphanedExactly | backend/internal/execution/worker.go:46-72 | After any events a run is RUNNING with nobody on it if and only if, somewhere before, the worker that held it crashed or its release did not get through |
| RunStuck.OrphanStuck | backend/internal/execution/repository.go:45-65 | Such a run is never claimed again: no sequence of events changes its row |
| RunLoops.OrphanReached | backend/internal/execution/worker.go:46-72 | Such a run is reached from the empty database by create, ask, claim, crash |
| RunLoops.ReclaimedExactly | backend/internal/execution/repository.go:179-195 | A run whose processing always fails is put back at the same attempt n times for every n if that attempt is below the limit; at the limit the first failing turn ends it |
| RunLoops.FailedAtLimitForever | backend/internal/execution/repository.go:182-190 | In every reachable state a FAILED run has attempt_count at least maxRunAttempts |
| RunStock.ClaimFindsWork | backend/internal/execution/repository.go:45-109 | After a claim nothing of the attempt has run and nothing is ahead of it, and the attempt has items to execute exactly if the run was stocked, that is, had an item at its attempt |
| RunStock.StockedMeans | backend/internal/automation/repository.go:220-223 | A run on record has an item at its attempt exactly if it has items at all and its counter agrees with them |
| RunStock.StepStock | backend/internal/scope/repository.go:422-434 | After any step a run on record has nothing to execute if and only if the step is an exclusion that leaves no item at the run's attempt, or it had nothing before and the step neither includes a case at the first attempt nor approves a repair of one of its items |
| RunStock.EmptyExactly | backend/internal/scope/repository.go:399-449 | After any events a run has nothing to execute if and only if it was emptied by an exclusion on the way and not stocked again since |
| RunStock.StockedExactly | backend/internal/scope/repository.go:425-434 | Every run has something to execute all along a run of the system if and only if every exclusion that deletes anything leaves an item at its run's attempt |
| RunStock.ClaimsFindItems | backend/internal/execution/repository.go:45-109 | In every reachable state a claim finds items if and only if its run was not left empty by the events before, and all the items it finds have not run |
| RunStock.StrandedSavesNothing | backend/internal/execution/repository.go:111-145 | A claim of an attempt without items can save nothing, whatever is reported |
| RunStock.BarrenForever | backend/internal/execution/repository.go:179-195 | A run that is empty past its first attempt and below the claim limit never completes and never fails: whatever events follow it stays pending or running at the same attempt with nothing to execute |
| RunStock.EmptyIsAutomated | backend/internal/automation/repository.go:250-262 | A pending run emptied at its first attempt counts as fully automated, so an approval for its analysis queues it |
| RunLoops.EmptyingStrands | backend/internal/scope/repository.go:425-434 | A run from the empty database whose decisions all keep the agreement: taking its only case out of scope leaves it queued with nothing to execute, and it is claimed in vain n times for every n |
| RunLoops.ExclusionStrandsForGood | backend/internal/scope/repository.go:425-434 | Whatever events follow that exclusion at the second attempt, the run never completes, never fails and never has anything to execute |
| RunLoops.ExclusionStrands | backend/internal/scope/repository.go:425-434 | A run from the empty database: excluding the one case queued for a second attempt leaves the run queued without items at that attempt, and it is claimed in vain n times for every n |
| RunBounds.AttemptsBounded | backend/internal/execution/repository.go:147-148 | No attempt number of a live item exceeds max(1, maxInfraAttempts) plus the approved repairs of the run |
| RunBounds.BoundForever | backend/migrations/000018_document_execution.up.sql:44-63 | No item is ever bound to an artifact that is not approved, made for its case, and of its expected result |
| RunStore.Store.ClaimNext | backend/internal/execution/repository.go:45-65 | Claims a claimable run that is not locked, or reports that there is none |
| RunStore.Store.LoadAttempt | backend/internal/execution/repository.go:67-109 | Loads exactly the items of the attempt, in id order; fails exactly if there are none |
| RunStore.Store.Save | backend/internal/execution/repository.go:111-177 | The statement-by-statement transaction has exactly the specified result and leaves nothing behind when it fails |
| RunStore.Store.RetryOrFail | backend/internal/execution/repository.go:179-195 | The guarded update: pending with a lowered counter, or failed, or lease lost |
| RunStore.Store.RenewLease | backend/internal/execution/repository.go:197-207 | Extends the lease of the run at the token, or reports the lease as lost |
| RunStore.Store.RunOnce | backend/internal/execution/worker.go:46-72 | A worker that returns leaves its run RUNNING exactly if it saved nothing and its release did not get through; saved exactly if the save could commit, otherwise items untouched at the same attempt; other runs untouched |
| RunStore.Store.Review | backend/internal/automation/repository.go:163-269 | The review transaction has exactly the specified result, including roll-back when a repair is not eligible |
| RunStore.Store.CreateRun | backend/internal/scope/repository.go:227-333 | The run, a scope row per case and a first item per included case, or nothing if there is no case or a case is repeated |
| RunStore.Store.RequestRun | backend/internal/execution/repository.go:21-43 | Queues a pending run at once; refuses a blank requester, an unknown run and any other status |
| RunStore.Store.ReviewClassification | backend/internal/execution/repository.go:283-316 | Changes the verdict of a finished item of a run that is not RUNNING; refuses blank input and anything else |
| RunStore.Store.SaveArtifact | backend/internal/automation/repository.go:90-126 | Stores a generated test as a draft; refuses what its columns refuse |
| RunStore.Store.LoadRepairSubject | backend/internal/automation/repository.go:380-411 | Hands out the source artifact exactly if the claim holds and everything the job pinned is unchanged |
| RunStore.Store.RenewRepairLease | backend/internal/automation/repository.go:510-521 | Extends the lease exactly under the claim |
| RunStore.Store.DecideScope | backend/internal/scope/repository.go:399-449 | Refuses a blank reviewer or comment, then a case that is not approved; else the decision has exactly the specified result: insert unless there, delete what has not run, refuse when there is nothing to delete |
| RunStore.Store.Requeue | backend/internal/automation/repository.go:209-249 | The three statements of a repair re-queue, with their eligibility errors |
| RunStore.Store.RequestRepair | backend/internal/automation/repository.go:273-340 | Refuses a blank requester and limits out of range; else returns the active job of the run and case, or queues the next one within the limit, with every refusal |
| RunStore.Store.CompleteRepair | backend/internal/automation/repository.go:425-473 | Inserts the draft and ends the job together, or neither when the claim is lost |
| RunStore.Store.ClaimNextRepair | backend/internal/automation/repository.go:366-378 | Claims a queued, due, unlocked repair job and counts the claim, or reports that there is none |
| RunStore.Store.EndRepair | backend/internal/automation/repository.go:475-508 | Ends a repair as unrepairable, or puts it back while claims remain; refuses a lost claim |
| RepairJobs.DenseNumbering | backend/internal/automation/repository.go:317-325 | Repair jobs of one run and test case are numbered 1 to their count, each number once, in order |
| RepairJobs.JobsForever | backend/internal/automation/repository.go:273-508 | In every reachable state: dense numbers within the limit, one active job per run and case, at most max(1, maxQueueAttempts) claims per job, each job in at most one worker, which holds it; results that match their decisions; assertions the column accepts |
| RunStuck.DesertedExactly | backend/internal/automation/repair_worker.go:71-102 | After any events a repair job is RUNNING with nobody on it if and only if its worker crashed or could not give it back somewhere before |
| RunStuck.DesertedBlocks | backend/internal/automation/repository.go:307-325 | Such a job stays, and from then on every repair request for its run and case that succeeds returns it: no other is ever queued |
| RunLoops.DesertedReached | backend/internal/automation/repository.go:366-378 | Such a job is reached from the empty database |
| RepairJobs.StepJobs | backend/internal/automation/repository.go:366-508 | Every step keeps the jobs in order: identities and numbers fixed, claim counters growing, repaired artifacts permanent |
| RepairJobs.LineageKeeps | backend/internal/automation/repair_processor.go:87-111 | However many repairs lie between two artifacts they test the same case for the same expected hash, pass the assertion guard, and their normalized assertions are the same multiset |
| RepairGuard.NormalizedAssertions | backend/internal/automation/repair_processor.go:141-151 | The loop and sort produce the sorted non-empty normal forms |
| RepairGuard.NormalFormTellsWords | backend/internal/automation/repair_processor.go:144-144 | Two assertions have the same normal form exactly if they have the same number of words and these agree one by one but for letter case |
| RepairGuard.NormalFormKeepsVisible | backend/internal/automation/repair_processor.go:144-144 | A normal form has exactly the visible characters of the assertion, in lower case |
| Text.FieldsExactly | backend/internal/automation/repair_processor.go:144-144 | A text has one list of words between its white space, and splitting finds it |
| Text.TrimSpaceExactly | backend/internal/document/parser.go:111-114 | Trimming takes off the white space at both ends, and there is no other way to do so |
| RepairGuard.GuardExact | backend/internal/automation/repair_processor.go:137-151 | For assertions without NUL the guard passes exactly when both lists, blank ones aside, have the same assertions word for word but for order, spacing and letter case |
| RepairGuard.GuardComparesForms | backend/internal/automation/repair_processor.go:137-139 | Whatever the letter folding, for assertions without NUL the guard compares multisets of normal forms |
| RepairGuard.GuardComplete | backend/internal/automation/repair_processor.go:137-139 | Lists of equal meaning always pass |
| RepairGuard.GuardMeans | backend/internal/automation/repair_processor.go:137-139 | Against stored assertions a proposal means the same if and only if it passes the guard and has no NUL in its normal forms; meaning is the multiset of word lists |
| RepairGuard.NulFreeStored | backend/migrations/000017_exports_scopes_automation.up.sql:119-119 | What a JSONB column accepts has no NUL, and neither have its normal forms |
| RepairGuard.GuardConfusedByNul | backend/internal/automation/repair_processor.go:137-139 | A proposal with a NUL inside passes for two stored assertions |
| RateLimiter.ClientRateLimiter.Allow | backend/internal/httpapi/hardening.go:130-158 | Allows exactly if the client has room in the table and a token; updates, prunes and counts as specified |
| RateLimiter.ClientRateLimiter.PruneClients | backend/internal/httpapi/hardening.go:160-167 | Removes exactly the clients idle for more than ten minutes |
| RateLimiter.RunValid | backend/internal/httpapi/hardening.go:130-167 | Over any run tokens stay in [0, burst] and the table within maxClients |
| RateLimiter.WindowBound | backend/internal/httpapi/hardening.go:150-157 | If an idle bucket refills before pruning, one client gets through at most burst plus rate times forward clock movement in any window, even with clock readings out of order |
| RateLimiter.ForwardIsLength | backend/internal/httpapi/hardening.go:149-150 | With a clock that never goes back the forward movement is the window's length |
| RateLimiter.PruningInvisible | backend/internal/httpapi/hardening.go:160-167 | If an idle bucket refills before pruning, every request the table has room for is answered as a never-pruned bucket would answer it |
| RateLimiter.PruningInvisibleExactly | backend/internal/httpapi/hardening.go:126-167 | Every admitted request of every run is answered as a never-pruned bucket would answer it if and only if an idle bucket refills before pruning |
| RateLimiter.WindowBoundExactly | backend/internal/httpapi/hardening.go:126-167 | The window bound holds for all runs exactly when burst <= 600 * rate; otherwise one client can spend two bursts |
| AiBudget.Manager.ReserveCall | backend/internal/aibudget/budget.go:76-146 | Reserves exactly if the set is active and both budgets fit; otherwise nothing changes |
| AiBudget.Manager.Totals | backend/internal/aibudget/budget.go:111-120 | The four filtered sums |
| AiBudget.Manager.FinalizeCall | backend/internal/aibudget/budget.go:148-166 | Completes a held reservation with clamped usage; refuses any other |
| AiBudget.Manager.ResolveProviderError | backend/internal/aibudget/budget.go:187-198 | Releases only on a local rejection; otherwise keeps the hold and marks it expired |
| AiBudget.ReserveFits | backend/internal/aibudget/budget.go:121-128 | Right after a successful reservation used plus held tokens fit the current budget, and costs fit a positive cost budget |
| AiBudget.TokensBounded | backend/internal/aibudget/budget.go:76-185 | Over any run used plus held tokens never exceed the largest budget in force (or the start) plus what finished calls used beyond their reservations |
| AiBudget.CostBounded | backend/internal/aibudget/budget.go:125-128 | The same for cost once a cost budget is set, and a set cost budget is never switched off |
| AiBudget.ResolvedOnce | backend/internal/aibudget/budget.go:148-185 | A reservation keeps its amounts and leaves RESERVED at most once |
| AiBudget.UncertainKeepsHold | backend/internal/aibudget/budget.go:177-185 | An uncertain call keeps its whole hold and counts as unreconciled at once |
| AiBudget.NoOverrun | backend/internal/aibudget/budget.go:231-233 | A call within its reserved input and output overruns neither tokens nor cost |
| AiBudget.CostMonotone | backend/internal/aibudget/budget.go:231-233 | Rounding up keeps cost monotone in both token counts |
| AiBudget.CostExactly | backend/internal/aibudget/budget.go:231-233 | A cost is the least whole amount that pays the input tokens at the input rate and the output tokens at theirs |
| AiBudget.Manager.BudgetStatus | backend/internal/aibudget/budget.go:200-222 | Reports what is left of both budgets, never below zero, and how many reservations have run out unresolved |
| AiBudget.Manager.ChangeBudgets | backend/internal/document/repository.go:98-103 | A zero budget keeps the one that is there |
| AiBudget.StatusPredictsReserve | backend/internal/aibudget/budget.go:200-222 | For any ledger the reported remainders decide whether a request gets through, except for free calls against an overdrawn cost budget |
| AiBudget.OneListPredicts | backend/internal/aibudget/budget.go:200-222 | For a ledger kept under one price list from its start the reported remainders decide without exception |
| AiBudget.StatusCanMislead | backend/internal/aibudget/budget.go:219-220 | The exception is reached: an overdraft under one price list, then a call under a free one |
| ParseQueue.Repository.ClaimNext | backend/internal/document/repository.go:497-521 | Claims a ready or expired version that is not locked, or reports that there is none |
| ParseQueue.Repository.RenewLease | backend/internal/document/repository.go:523-535 | Extends the lease of a version being parsed under this token, or changes nothing |
| ParseQueue.Repository.RetryOrFail | backend/internal/document/repository.go:537-555 | Returns the version to the queue while attempts remain, fails it otherwise; refuses a superseded token |
| ParseQueue.Repository.SaveParsed | backend/internal/document/repository.go:557-593 | Replaces the blocks and ends the claim together, or changes nothing |
| ParseQueue.TokensIssuedOnce | backend/internal/document/repository.go:497-507 | No token of a version is handed out twice |
| ParseQueue.OnlyTheNewestActs | backend/internal/document/repository.go:523-593 | Whoever renews, returns or saves holds the newest token handed out |
| ParseQueue.SupersededForever | backend/internal/document/repository.go:523-593 | A superseded token can never again renew, return or save, whatever happens |
| ParseQueue.ParsedForever | backend/internal/document/repository.go:557-593 | A PARSED version keeps forever exactly the blocks of the one save that committed, the last claim's, numbered 1 to block_count |
| GenerationQueue.Repository.ClaimNext | backend/internal/generation/repository.go:19-51 | Claims a ready or expired job that is not locked, with token 1 if neither lease nor error is left, the next token otherwise |
| GenerationQueue.Repository.RetryOrFail | backend/internal/generation/repository.go:53-73 | Back to the queue with an error noted, or failed; refuses a superseded token |
| GenerationQueue.Repository.RenewLease | backend/internal/generation/repository.go:75-86 | Extends the lease under the newest token, or changes nothing |
| GenerationQueue.Repository.Save | backend/internal/generation/repository.go:88-132 | Replaces the tests and advances the job together, or changes nothing; every test must belong to a recommendation of this analysis |
| GenerationQueue.ResetsOnFirstClaimOnly | backend/internal/generation/repository.go:31-39 | The branch that sets the counter to 1 fires on the first claim of a visit and never again |
| GenerationQueue.TokensCountUp | backend/internal/generation/repository.go:19-51 | The tokens of a visit are 1, 2, 3 and so on |
| GenerationQueue.OneSave | backend/internal/generation/repository.go:88-132 | At most one save commits in a visit, with the newest token, and the stored tests are exactly its tests |
| GenerationQueue.SupersededForever | backend/internal/generation/repository.go:53-132 | A superseded token is refused from then on |
| IndexGenerations.IndexRepository.BeginIndex | backend/internal/document/index_repository.go:50-123 | Starts the next generation and supersedes a running one, or finds the index unchanged |
| IndexGenerations.IndexRepository.CompleteIndex | backend/internal/document/index_repository.go:125-197 | Stores all chunks and memberships and settles both rows, or changes nothing |
| IndexGenerations.IndexRepository.FailIndex | backend/internal/document/index_repository.go:199-218 | Fails the generation if it is still indexing, and the status row only if it still shows that generation |
| IndexGenerations.AlwaysMirrors | backend/internal/document/index_repository.go:50-218 | The status row always carries the largest generation and mirrors its state; no older generation is INDEXING |
| IndexGenerations.AtMostOneIndexing | backend/internal/document/index_repository.go:67-111 | At most one generation is INDEXING, and it is the current one |
| IndexGenerations.SettledForever | backend/internal/document/index_repository.go:167-218 | A superseded or failed generation never becomes READY; a READY one stays as it is |
| IndexGenerations.LateCallsAreHarmless | backend/internal/document/index_repository.go:125-218 | Complete or Fail for an older generation touches neither the status row nor any generation's state nor other memberships |
| IndexGenerations.ReadyIsComplete | backend/internal/document/index_repository.go:160-187 | A READY generation has exactly chunk_count members, ordinals 1 to n, over distinct chunks, as long as no completion is empty |
| IndexGenerations.CountKeptExactly | backend/internal/document/index_repository.go:160-187 | A step spoils the count of a READY generation if and only if it completes it a second time, with a list that is not empty, and no step mends a wrong count |
| IndexGenerations.CountRightExactly | backend/internal/document/index_repository.go:125-197 | After any events a READY generation has chunk_count members if and only if it was not completed a second time on the way |
| IndexGenerations.RecompletedWasEmpty | backend/internal/document/index_repository.go:125-197 | Only a generation that an empty completion made READY can be completed a second time |
| IndexGenerations.EmptyCompletionBreaksTheCount | backend/internal/document/index_repository.go:125-197 | Of the repository method alone, whose caller never passes an empty list: an empty completion leaves room for a second one and a wrong count |
| IndexGenerations.RowChangesExactly | backend/internal/document/index_repository.go:133-143 | A step changes a stored chunk row if and only if it is a completion that goes through, for whichever generation, and carries another payload for the row's version and key |
| IndexGenerations.RowStandsExactly | backend/internal/document/index_repository.go:133-143 | A stored chunk row stands forever if and only if no later completion brings another payload for its version and key |
| IndexGenerations.ReadyRowsStandExactly | backend/internal/document/index_repository.go:133-143 | A READY generation keeps its members, and their rows stand exactly as long as no later completion brings another payload for one of them |
| IndexGenerations.LateCompletionRewritesChunks | backend/internal/document/index_repository.go:133-143 | A run from the empty index: the superseded first generation completes late and the READY second one serves its payload |
| PurgeSaga.StepKeeps | backend/internal/document/service.go:125-234 | Every step of uploads, lifecycle changes and purges keeps the invariant over both stores |
| PurgeSaga.VersionsHaveObjects | backend/internal/document/service.go:222-233 | In every reachable state each version of a set that is not PURGING has its stored object |
| PurgeSaga.PurgingUntilDeleted | backend/internal/document/repository.go:78-130 | PURGING is left only by deletion, no version is added meanwhile, and a deleted set never returns |
| PurgeSaga.PurgeBeginsExactly | backend/internal/document/repository.go:173-236 | A set starts being purged exactly by a confirmed request, with nothing referring to it, once it is archived and its retention has passed |
| PurgeSaga.PurgedAfterRetention | backend/internal/document/repository.go:104-107 | Along any run: before a purge begins somebody archived the set, nobody activated it again, and at least its retention has passed since |
| PurgeSaga.Service.MarkPurging | backend/internal/document/repository.go:173-256 | The transaction check by check |
| PurgeSaga.Service.UpdateLifecycle | backend/internal/document/repository.go:78-130 | Archiving keeps the first time it was done, activating clears it; a set being purged is left alone |
| PurgeSaga.PurgeRemovesEverything | backend/internal/document/repository.go:258-277 | A purge removes a set only when all its objects are gone, also with several purges at work |
| PurgeSaga.ObjectsAreAccounted | backend/internal/document/service.go:222-230 | Every stored object belongs to a version, an upload in flight, or an owner that crashed or failed to clean up |
| PurgeSaga.Service.Upload | backend/internal/document/service.go:180-234 | Stores file and row, or removes the file again; the sequence is one the interleaved actors may take |
| PurgeSaga.Service.Purge | backend/internal/document/service.go:125-156 | Succeeds exactly if the purge may begin and every object can be deleted; then set, versions and objects are gone; otherwise the set stays PURGING |
| DiffParser.ParseChangedLines | backend/internal/analyzer/diff_parser.go:12-53 | The loop computes the specified line tracking |
| DiffParser.FailsOnBadHeader | backend/internal/analyzer/diff_parser.go:20-33 | Parsing fails exactly when some line starts with @@ and is no valid header |
| DiffParser.HeaderExactly | backend/internal/analyzer/diff_parser.go:10-33 | A line of the form of the header pattern gives its two start numbers, or an error if one exceeds 63 bits |
| DiffParser.HeaderHasForm | backend/internal/analyzer/diff_parser.go:10-10 | No other line is read as a header |
| DiffParser.RoundTrip | backend/internal/analyzer/diff_parser.go:12-53 | Printing any hunks in unified format and parsing gives exactly the deleted old and inserted new line numbers |
| SymbolMapper.SymbolsByKey | backend/internal/analyzer/mapper.go:47-56 | The last symbol with a key wins |
| SymbolMapper.SearchInts | backend/internal/analyzer/mapper.go:69-73 | Halving finds the first line at or after the symbol's start |
| SymbolMapper.SearchFindsOverlap | backend/internal/analyzer/mapper.go:69-73 | The search answers the overlap question as looking at every line would |
| SymbolMapper.HitSymbols | backend/internal/analyzer/mapper.go:58-75 | Hits exactly the keys with a symbol that overlaps a changed line |
| SymbolMapper.Classify | backend/internal/analyzer/mapper.go:22-37 | Added, deleted or modified by membership in the two files; the last branch is dead |
| SymbolMapper.MapChangedSymbols | backend/internal/analyzer/mapper.go:8-45 | Exactly one change per hit key, classified by membership, sorted by start line and name |
| SymbolMapper.OrderIndependent | backend/internal/analyzer/mapper.go:21-45 | Map order never changes which changes are reported |
| SymbolMapper.OrderDecidedExactly | backend/internal/analyzer/mapper.go:81-88 | A result is the only possible one if and only if no two changed keys have reported symbols with one start line and name |
| SymbolMapper.TieReached | backend/internal/analyzer/mapper.go:81-88 | A method and a function of one name on one line tie |
| SymbolMapper.KeysTellSymbolsApart | backend/internal/analyzer/mapper.go:77-79 | Keys agree exactly when kind, receiver and name do, without NULs |
| Markdown.ParseMarkdown | backend/internal/document/parser.go:49-122 | Fails exactly on NUL or when all lines are blank; otherwise the blocks render spans that cover the lines, with content, locator and enclosing headings |
| MarkdownMeaning.LineKindExactly | backend/internal/document/parser.go:25-26 | A line is blank, a heading, a fence, a list, a table or text exactly as its characters say: one to six hashes and white space; three back quotes; a bullet or number mark; two bars with one at the margin; tried in this order |
| MarkdownMeaning.BlockExactly | backend/internal/document/parser.go:58-135 | In every parse each block has the kind of its first line, a heading the level and title behind its hashes, any other block its lines trimmed, and the locator its line numbers |
| MarkdownMeaning.LinesAreRead | backend/internal/document/parser.go:53-55 | However its lines end, with newline, carriage return or both, a text is read as its lines |
| Markdown.EveryLineOnce | backend/internal/document/parser.go:58-117 | Every non-blank line lies in exactly one block; only code blocks hold blank lines |
| Markdown.Partition | backend/internal/document/parser.go:58-117 | Spans are disjoint and in order, and each is one heading, one fenced block or a maximal run of one kind of text |
| Markdown.ParseIsUnique | backend/internal/document/parser.go:49-122 | The specification admits one list of blocks |
| Markdown.ContentIsVisible | backend/internal/document/parser.go:113-116 | The check for empty content never fails |
| Markdown.UpdateHeadingPath | backend/internal/document/parser.go:142-153 | Truncates, pads and appends |
| Markdown.UpdatedPathEncloses | backend/internal/document/parser.go:142-153 | The updated path is the list of enclosing headings: per level the last heading no deeper, if exactly that deep |
| Markdown.LocatorNamesRange | backend/internal/document/parser.go:130-135 | Locators of different line ranges differ |
| Markdown.TitleOfAnyMatch | backend/internal/document/parser.go:69-71 | However the pattern captures the title, trimming gives the same text |
| Markdown.ContentExactly | backend/internal/document/parser.go:60-117 | All blocks of a parse have content if and only if no heading in it is hashes and white space alone; levels are at most six |
| Markdown.RefusedExactly | backend/migrations/000015_document_testing_foundation.up.sql:62-75 | Saving a parse is refused by the block table if and only if a heading in it is hashes and white space alone |
| Markdown.EmptyHeading | backend/internal/document/parser.go:25-25 | A text of one hash and two spaces parses to one heading without content |
| Semantic.CutsExact | backend/internal/document/semantic.go:188-200 | The raw cuts are the text end to end, none longer than the limit, all but the last longer than half of it, hence few |
| Semantic.SplitExact | backend/internal/document/semantic.go:178-202 | Splitting keeps every visible character in order, within the limit, in a bounded number of parts |
| Semantic.SplitContent | backend/internal/document/semantic.go:178-202 | The loop computes the specified parts |
| Semantic.EmptyPartsExactly | backend/internal/document/semantic.go:188-200 | Texts whose white space comes in runs of at most n never leave an empty part if and only if n is at most half the limit |
| Semantic.PartsCanBeEmpty | backend/internal/document/semantic.go:19-19 | With the limit of 1800 a text of 4501 characters leaves one |
| Semantic.TableRows | backend/internal/document/semantic.go:204-215 | The trimmed lines that are neither blank nor rules |
| Semantic.ChunkDocument | backend/internal/document/semantic.go:21-69 | The chunker with its running heading path, flow and parent computes the specified chunks |
| Semantic.SeedsDistinct | backend/internal/document/semantic.go:83-84 | In a document with distinct ordinals all chunk-key seeds differ |
| Semantic.KeysDistinct | backend/internal/document/semantic.go:83-84 | With a collision-free digest all chunk keys differ |
| Semantic.ParentsComeEarlier | backend/internal/document/semantic.go:63-66 | A non-empty parent key is the key of an earlier chunk: the first of the nearest identified heading before |
| Semantic.ChunkExactly | backend/internal/document/semantic.go:28-109 | Of the i-th chunk of block k, from the blocks alone: the title is the nearest heading; the flow is the one the last deciding heading names; the identifier is its own or, within a flow, that of the nearest identified heading before; the type follows from the identifier's prefix or the block's kind; the content is the normalized text; the key is the digest of version, ordinal, type and place |
| Semantic.EveryChunkFits | backend/internal/document/semantic.go:28-69 | Every chunk of a document is such a chunk of some block |
| Semantic.NormalizedKeepsWords | backend/internal/document/semantic.go:174-176 | Normalizing keeps the words and puts one space between them |
| Semantic.BlockTextConserved | backend/internal/document/semantic.go:53-62 | The chunks of a block together show every visible character of it in order |
| Semantic.RowsConserved | backend/internal/document/semantic.go:41-52 | A row table yields one chunk per row after the header, and no visible row is lost |
| Semantic.NormalizedKeepsVisible | backend/internal/document/semantic.go:174-176 | Normalizing keeps every visible character |
| SourceSnapshot.FingerprintCanonical | backend/internal/document/source_snapshot_repository.go:182-191 | Fingerprints agree exactly for permutations on document, version, digest, inclusion and reason |
| SourceSnapshot.SnapshotFingerprint | backend/internal/document/source_snapshot_repository.go:182-191 | The loop computes the specified fingerprint |
| SourceSnapshot.SnapshotRepository.CreateSourceSnapshot | backend/internal/document/source_snapshot_repository.go:15-180 | Accepts exactly if ids are positive and latest, every other latest version is parsed with blocks, and one remains; the stored snapshot, new or found, is about the same versions and verdicts, and counts them; each refusal is given for exactly its cause, in the order missing set, invalid id, no items, id not latest, blocked, nothing left; a blocked one names exactly the blocking items |
| SourceSnapshot.SnapshotRepository.CreateTwice | backend/internal/document/source_snapshot_repository.go:126-158 | Asking again at the same revision returns the same snapshot and stores nothing |
| EvaluationRules.ValidateDataset | backend/internal/evaluation/validate.go:18-75 | Accepts exactly the valid datasets |
| EvaluationRules.ValidateObservation | backend/internal/evaluation/validate.go:77-167 | The checks one by one accept exactly the observations that meet every rule |
| EvaluationRules.BytesExactly | backend/internal/evaluation/validate.go:78-82 | A length limit counts, per character, the least number of bytes that carries its code point |
| EvaluationRules.PairKeyTells | backend/internal/evaluation/validate.go:42-48 | The pair key tells experiment, scenario and replicate apart even if a scenario contains NULs |
| EvaluationReport.BuildReport | backend/internal/evaluation/aggregate.go:11-56 | Fails exactly on an invalid dataset: the missing-group errors never occur; the report carries the schema version, name, description and digest, the six groups in order and the three comparisons |
| EvaluationMeaning.ReportMeans | backend/internal/evaluation/aggregate.go:118-159 | Of each of the three comparisons, counted from the observations of its own two groups: every rate change is there exactly if both groups answer that metric, and is the treatment's share less the baseline's, each to the hundredth; likewise the coverage change; the duration saving is the baseline's mean less the treatment's, and its percentage is of the baseline; the repair rate is the treatment's |
| EvaluationMeaning.SummaryMeans | backend/internal/evaluation/aggregate.go:58-116 | Each figure of a group summary is the count, share or mean of its own metric over the observations that answer it |
| EvaluationMeaning.RateChangeSigned | backend/internal/evaluation/aggregate.go:145-151 | A rate change lies within a hundredth of the difference of the shares and never has the opposite sign |
| EvaluationMeaning.MeanChangeSigned | backend/internal/evaluation/aggregate.go:153-159 | The same holds of a change of means |
| EvaluationMeaning.SavingSigned | backend/internal/evaluation/aggregate.go:133-140 | The saving in per cent has the sign of the saving |
| EvaluationReport.BoolRate | backend/internal/evaluation/aggregate.go:81-98 | Counts successes over the observations that report the metric |
| EvaluationReport.Mean | backend/internal/evaluation/aggregate.go:100-116 | The rounded mean over the observations that report the measure |
| EvaluationReport.PairedGroups | backend/internal/evaluation/validate.go:42-59 | Both sides of an experiment hold each scenario and replicate exactly once, so they have the same size |
| EvaluationReport.ValidityRatesOrdered | backend/internal/evaluation/aggregate.go:58-98 | In the context and repair groups execution <= compile <= syntactic validity, over all observations |
| EvaluationReport.RepairAccounting | backend/internal/evaluation/aggregate.go:58-98 | Final successes are first-pass plus repair successes, repairs are counted over exactly the first-pass failures |
| EvaluationReport.GenerateOnlyIsFirstPass | backend/internal/evaluation/aggregate.go:58-98 | Without repair final, first-pass and execution success are one rate |

## Left out

Contracts stated more narrowly than the code runs:

- ImpactEngine.SelectImpact: direct symbols that tie on file and name are taken in the order given, because the sort there is not stable and any order of ties is possible; the metadata of the result (mode, algorithm, package count, fallback reason) is not modelled, because it is copied through.
- ImpactDeterminism.OrderIndependent: is about selections below the node cap; which nodes a full selection keeps does depend on edge order.
- RunStore.Store.ClaimNext: which claimable run is taken is left open, because the order by request time changes no property here; the same holds for the other queues.
- RunStore.Store.Save: logs, evidence rows, screenshots, time stamps and error messages of items are not modelled, because no step reads them.
- RunWorkers.Reachable: the removal of runs together with their document set is not among the events, because it removes everything the properties speak of.
- PurgeSaga.PurgeRemovesEverything: audit rows and the record of a failed purge are not modelled, because the set's status does not depend on them.
- PurgeSaga.Service.Upload: file name validation, media types and the allocation of version numbers are not modelled, because they do not touch the agreement of the two stores.
- DiffParser.RoundTrip: speaks of one file's diff, lines before the first hunk and then hunks; a following file's header would be counted as changed lines, because the code is given one file at a time.
- Markdown.ParseMarkdown: cancellation and the check for valid UTF-8 are not modelled, because the text is a sequence of characters here.
- Semantic.ChunkDocument: the patterns that recognise identifiers and flow names, and the labels and metadata derived from them, are parameters or left out, because the chunk structure holds for any of them.
- SourceSnapshot.SnapshotRepository.CreateSourceSnapshot: the query for each document's latest version is an input, because it is the database's work.
- SymbolMapper.MapChangedSymbols: the summary sentence of a change is not modelled, because it repeats the other fields.
- RepairJobs.JobsForever: the repair processor's budget calls and cost estimate are not events of the repair worker, because the ledger is proved on its own in AiBudget.

Not modelled at all:

- The user interface, HTTP handlers, routing, webhooks, repository hosting clients, configuration and commands: input and output.
- The graph builders and the Go parser: they depend on the compiler's packages; the graph is an arbitrary input.
- Model calls, embeddings, retrieval scoring, prompts: decided elsewhere.
- Word and spreadsheet documents, and the syntax check of generated code: external parsers.
- JSON, digests and random keys: parameters.
- Report rendering, output classification by substring, listings: easy members only.
- The status trigger of test cases and the source intents of chunks: bookkeeping beside the protocols.
- Overflow of the diff parser's line counters while counting up: unbounded integers; a header number beyond 64 bits is an error, as in the code.
- Commits whose outcome the client never learns.

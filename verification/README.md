# Proofgraph: verified model of runs, patches, canvases and contexts

Proofgraph keeps a research canvas (typed nodes, typed edges, an append-only operation log) and lets background
workers generate candidate patches for it. This project models the parts of it that are hard to get right, in
Dafny 4.11, and proves what they keep over every run. To verify it: `dafny verify dfyconfig.toml`.

## What is modelled

Each database transaction is one atomic step. Code that updates rows in place is a class or a method over mutable
state, proved to be a step of a value-level model; the laws of the system are lemmas about that model.

- **Graph searches** (`Reachability`, `GraphTypes`, `DependencyPaths`, `Ordering`, `GraphSearch`, `Traversal`,
  `SearchAgreement`, `DependencyOrder`). The four breadth-first searches and the ancestor search of the repository,
  each as its own loop, against one reachability relation and against paths along edges read by their kind; cycles
  included. The recursive acyclicity check and the round-based ordering of a patch.
- **Canvas** (`CanvasModel`, `CanvasStore`, `CanvasInvariant`, `CanvasStaleness`, `CanvasInvalidation`,
  `CanvasOutcomes`, `CanvasRefusals`, `CanvasTeardown`, `DependentsKept`).
  The ten graph operations with optimistic versions, operation keys, revisions and staleness causes; what one
  operation makes of every node, edge and log entry, what exactly it stales and when exactly it is refused; that any
  node no ingestion refers to can be taken apart; and that no run of the three writers loses a dependent.
- **Patches** (`PatchCandidates`, `CandidateOutcomes`, `CandidateChecks`, `PatchInvariant`, `PatchPasses`,
  `RegenerationContract`, `ContractReading`, `PatchReview`, `PatchConflicts`, `PatchService`, `ReviewOutcomes`,
  `PatchHistory`, `PatchWitnesses`). Candidate operations, preflight, the two passes
  with one group sweep between them, the contract of an always-parallel regeneration patch, the conflicts that other
  people's work can bring about, decisions, statuses and repeats, and one patch among the other writers of its canvas.
- **Runs** (`StagePlan`, `RunModel`, `RunLog`, `RunInvariant`, `RunOutcomes`, `RunTraces`, `RunProgress`, `RunPhases`,
  `RunWitnesses`, `RunDatabase`, `DemoSessions`). Leases with epochs, attempts, stages, cancellation, retry,
  recovery, poisoning, cleanup and reset, for any interleaving of any number of actors; the per-canvas event log.
- **Browser** (`ClientReducer`, `ServerClient`, `EventDelivery`, `ClientReconcile`, `ClientView`). The reducer as a fold
  of the event log, its agreement with the server, replay over any number of streams, snapshots that arrive while
  the log is still being replayed, and what the view shows of the events.
- **Workers** (`CheckpointResume`, `StageOrder`, `WorkerProgress`, `StageWorker`). Any number of workers executing a
  run's plan from its checkpoints, crashing and resuming at any point, the order in which they open its stages, and
  what a worker that is left alone still achieves.
- **Source ingestion** (`SourceIngestion`, `IngestionOutcomes`, `SourceService`). The second lease protocol, beside the
  two other writers of a canvas.
- **Contexts** (`ContextSelection`, `ContextPacking`). Regeneration units, branch constraints, candidate tiers,
  capped first-fit packing and the trim loop.

## Main results

1. Crash and resume refine an uninterrupted run: a stored patch is the last answer of one straight execution of
   the plan whose answers are exactly the committed outputs (`CheckpointResume.PatchRefinesUninterruptedRun`).
2. No crash wedges a run: from whatever state crashes, expiries and other workers have led to, once a run that nobody
   has asked to cancel is claimed and a worker has started on it, that worker's own moves lead to PATCH_READY, with
   every checkpoint of earlier attempts kept, as long as every stage input has an answer that validation accepts
   (`WorkerProgress.ClaimableRunCanFinish`, `CheckpointResume.CheckpointsOutliveCrashes`).
3. Fencing over whole traces: once a claim, a recovery, a cleanup or a reset has moved the epoch, or the run has
   ended, no step under an older lease changes anything at any later time (`RunTraces.InstallFencesHolder`,
   `RunTraces.OldLeaseNeverWrites`, `RunTraces.EffectsOrderedByEpoch`).
4. A browser that has read the log agrees with the server on every run, with one exactly characterised exception
   (`RunTraces.BrowserSimulatesServer`, `ServerClient.StrandedExactlyFromRequeue`).
5. A regeneration group is accepted wholly or not at all, whatever conflicts arise, exactly when a condition on the
   dependencies and the groups holds (`PatchPasses.WholeForAllConflictsIff`, `PatchReview.GroupsReviewedAtomically`,
   `PatchReview.ReviewedAtomicallyIff`). For the conflicts that can really arise, because the three writers have gone
   on since the patch was made, the exact condition looks at one deleted node at a time
   (`PatchConflicts.AtomicOnLaterCanvasesIff`). A patch that meets the regeneration contract can violate it, and one
   deletion then splits a group (`PatchWitnesses.OthersSplitGroup`).
6. All graph searches mean one relation, and the re-enqueueing traversal terminates with the unique best labels
   (`SearchAgreement.SearchesAgree`, `Traversal.Traverse`).
7. No dependent is lost: whatever the three writers do, in any order and number, an eligible dependent stays below a
   node until it is stale, and is stale when the node is gone (`DependentsKept.NoDependentIsLost`). Patches must
   leave it to invalidation, which is the exact condition for deleting an edge (`DependentsKept.CutLosesNothingIff`).
   A node can be taken apart and deleted by direct operations exactly when no ingestion refers to it
   (`CanvasTeardown.CanGoIff`, `CanvasStaleness.TeardownLosesNoDependent`).
8. Three writers share one gap-free log, and every committed request replays at any later point of any trace
   (`SourceIngestion.DirectReplays`, `PatchReplays`, `IngestionReplays`).
9. A patch leaves PENDING at most once: a review is a run of patch steps among the three writers, nobody else
   writes under its keys, and after the decision its row never changes (`PatchHistory.DecidedOnceForAll`).
10. Exactly-once delivery from an empty log on, for any batching, disconnects, reconnects and overlapping streams
   (`EventDelivery.ExactlyOnceDelivery`).
11. What every step computes is stated a second time without its functions: field by field over all actions, errors
   and events instead of action by action, over literal edge kinds, statuses, stages and caps. An operation stales
   exactly what paths along edges lead to (`CanvasInvalidation.StaledExactly`); each error arises exactly under its
   condition (`CanvasRefusals.RefusedExactly`); the regeneration contract is equivalent to a reading of the patch that
   names no members (`ContractReading.ContractIff`); stages are opened in pipeline order whoever crashes
   (`StageOrder.StagesOpenInOrder`); the fields of a run move in these ways and no other (`RunOutcomes.StatusFollows`
   and beside it); the page shows every source and claim that was told, once and as told last (`ClientView.PageTells`).

## Where the code does less than one would expect

These follow the code; each has a lemma that says exactly when the expectation holds, and an input that fails it.

- A run that fails, is retried, and is cancelled before the next claim writes no cancel event, because terminal
  events are deduplicated by attempt and a retry does not change the attempt. The browser keeps showing "queued".
  It happens exactly when a run ends from the queue after a retry (`ServerClient.StrandedExactlyFromRequeue`,
  `EndFromRequeueIsSilent`); six steps from an empty database lead there (`RunWitnesses.StrandedRun`); asking the
  server repairs it (`ClientReconcile.SnapshotThenReplay`).
- A server answer that arrives in the browser after newer events puts the view back to the older row. It is right
  exactly when none of the events of the run in between starts, resumes, retries or ends it or announces its patch
  (`ClientReconcile.LateSnapshotIsRightIff`); a claim in between makes it wrong (`LateSnapshotHidesClaim`).
- An expired patch-ready run can be poisoned before it is recovered exactly when it is on its last attempt, and then
  ends failed although it has a patch (`RunProgress.PatchReadyRace`). Two lost attempts and a third that executes the
  whole plan lead there (`RunWitnesses.PatchReadyOnLastAttempt`).
  One worker's own claim recovers before it poisons (`RunDatabase.SweptInTwo`); the race is between two actors.
- Group skips are propagated once. A group stays whole for all conflicts exactly when it keeps together: if one
  operation that no member depends on would have the sweep take groups that a member depends on, the root depends
  on one of those too (`PatchPasses.WholeForAllConflictsIff`). A clone that also depends on another group's successor
  violates it (`PatchPasses.GroupsCanSplit`; `PatchWitnesses.ReviewSplitsGroup` with stale targets and a sound review).
  The patch there fits the canvas it was made for, and one node deleted since makes the conflict
  (`PatchWitnesses.OthersSplitGroup`).
- Nodes that a patch means to delete are left out of invalidation while it is applied, whether or not their deletion
  goes through. If it is skipped as a conflict, the node stays, cut off from what it depended on and not stale
  (`DependentsKept.ReviewLosesSparedNode`, on a canvas that a renaming makes, `DependentsKept.EditedIsReached`). A patch
  that deletes an edge loses a dependent on no canvas exactly when it does not mean to delete that dependent and names
  the edge by its identity (`DependentsKept.CutLosesNothingIff`); a review whose derived identities are new always does
  the latter (`DependentsKept.ReviewKeepsDependents`).
- The check after a regeneration patch can fail although the patch is add-only and meets the regeneration contract.
  Local names inside metadata are rewritten, and a predecessor is accepted in any spelling of its UUID and then
  compared as text. It fails exactly when, for a successor that will be applied, the scope or the lineage mode is a
  patch-local name or the predecessor does not come out as its canonical text, which can be told from the canvas
  before (`PatchReview.PreservationCheckIff`, `PatchReview.AppliedIsForeseen`). `PatchWitnesses.LineageFailsCheck` has
  a patch of each kind, on a canvas that two direct operations make (`PatchWitnesses.BeforeIsReached`).
  The patches in `PatchWitnesses` and `DependentsKept` are stored rows as an application reads them. A generation
  that validates its own output is stricter (the edges must be exactly the expected ones, the predecessor is compared
  as text), so it would not have stored them as they are; applying does not look at that again.
- Finalizing an ingestion looks at token and epoch but not at the expiry, so a late holder that nobody reclaimed
  still finishes, always (`SourceIngestion.LateHolderStillFinishes`), and such a holder is reached
  (`SourceIngestion.LateHolderReached`).

One more follows from reading a function alone and does not happen in a review. A candidate taken by itself raises a
version by two exactly when it stales the node it edits, because invalidation reads its reference without the map of
local names (`PatchInvariant.CandidateVersionSteps`, `PatchWitnesses.OwnEditStaled`). For that the map must give an
identity that is on the canvas already. The identities a patch derives are new, and then no turn of a review raises
any version by more than one (`PatchReview.ReviewStepsOnce`).

## Assumptions

Hashes and fingerprints are injective, so a digest is its material; `uuid4` never repeats. There is one clock,
which only grows. An identity that was deleted is not drawn again, so a node that is on two canvases of one history has
one kind. A stage validator is deterministic and idempotent on its own output. The executor answers
anything, fails, or dies. Deleting a node deletes its cause rows; a node that a completed ingestion refers to
cannot be deleted. Rows that another transaction has locked (`skip_locked`) are a parameter.

## Model

| member | source | states |
|---|---|---|
| GraphSearch.BuildAdjacency | proofgraph/graph/staleness.py:63-70 | the adjacency dictionary holds a pair exactly when some edge row induces that dependency |
| GraphSearch.ReachableDependents | proofgraph/graph/staleness.py:56-86 | the result is exactly the nodes at the end of a path of edges from a root, where constrained_by and extracted_from edges are followed from target to source and all others from source to target, without the roots unless asked for and without the excluded nodes, cycles included |
| GraphSearch.BreadthFirst | proofgraph/graph/staleness.py:72-86 | the deque loop terminates on every graph and collects exactly the dependents |
| GraphSearch.DependentsLeadDown | proofgraph/graph/staleness.py:37-86 | the reachability relation of all searches and the paths along edges find the same dependents |
| GraphSearch.OneEdgeSearch | proofgraph/graph/staleness.py:37-86 | over a single edge the search goes from target to source for constrained_by and extracted_from, from source to target for each of the other five kinds, and nowhere the other way round |
| DependencyPaths.LeadsToIffReaches | proofgraph/graph/staleness.py:37-86 | a path of edges, each read by its own kind, leads from one node to another exactly when the dependency relation reaches it |
| Reachability.ConverseReaches | proofgraph/generation/pipeline_schemas.py:1194-1218 | reaching in the reversed relation is reaching backwards |
| Traversal.Traverse | proofgraph/generation/context.py:263-292 | terminates although improved nodes are queued again; labels exactly the reached nodes, each with its shortest distance and, at that distance, the most relevant last edge: 7 for contradicts, then extracted_from, supports, constrained_by, derived_from, evolves_into, and 1 for requires_validation; 99 for roots |
| Traversal.LabelSays | proofgraph/generation/context.py:246-292 | a best label names the most relevant kind of edge that a shortest walk ends with, by the order of kinds, and no shortest walk ends with a more relevant one |
| Traversal.BestRankUnique | proofgraph/generation/context.py:278-292 | a node has at most one best label, so the order of edges and roots cannot show in the result |
| Traversal.RelaxedBound | proofgraph/generation/context.py:278-292 | when no label can be improved, no walk from a root is shorter than the label at its end |
| Traversal.TotalCostImproves | proofgraph/generation/context.py:283-291 | every relabelling lowers one total over all labels, which is why re-enqueueing ends |
| SearchAgreement.AnchorDistances | proofgraph/generation/pipeline_schemas.py:1112-1119 | the distances are defined exactly on what the anchor reaches and are shortest |
| SearchAgreement.CloneTargets | proofgraph/generation/pipeline_schemas.py:1088-1128 | an anchored constraint gets exactly the closest regenerated roots it reaches, and an error exactly when it reaches none |
| SearchAgreement.SemanticAncestors | proofgraph/generation/pipeline_schemas.py:1194-1218 | exactly the other nodes that reach the given one, cycles included |
| SearchAgreement.SearchesAgree | proofgraph/generation/context.py:263-292 | labelled nodes, invalidated dependents and clone distances coincide, and dependents and ancestors are exact converses |
| SearchAgreement.BuildArcs | proofgraph/generation/context.py:437-442 | the forward arcs are the dependency relation and the reverse arcs its converse |
| DependencyOrder.Visit | proofgraph/generation/pipeline_schemas.py:716-726 | a refusal means that a cycle exists; an acceptance clears everything below the operation |
| DependencyOrder.CheckAcyclic | proofgraph/generation/pipeline_schemas.py:713-728 | the recursive check accepts exactly the acyclic dependency graphs |
| DependencyOrder.Selection | proofgraph/generation/patch_application.py:102-149 | unknown and incomplete selections are refused exactly; otherwise a permutation with prerequisites first, or a cycle inside the selection |
| DependencyOrder.StuckMeansCycle | proofgraph/generation/patch_application.py:132-148 | a round without a ready operation proves a cycle among the remaining ones |
| DependencyOrder.OrderedHasNoCycle | proofgraph/generation/patch_application.py:132-149 | a prerequisites-first order leaves no room for a cycle, so order and cycle error exclude each other |
| CanvasStore.Store.AddNodeRow | proofgraph/graph/operations.py:433-469 | creates the row or refuses with the first failing check and changes nothing |
| CanvasStore.Store.SemanticNodeChanges | proofgraph/graph/operations.py:472-575 | UPDATE_NODE and PATCH_NODE_METADATA: merge, root re-derivation and version, or a refusal that changes nothing |
| CanvasStore.Store.MoveNodeRow | proofgraph/graph/operations.py:578-595 | only position and position version change, under the position version |
| CanvasStore.Store.DeleteNodeRow | proofgraph/graph/operations.py:598-637 | refused while edges or branch constraints refer to the node; otherwise the row and its causes go |
| CanvasStore.Store.AddEdgeRow | proofgraph/graph/operations.py:640-668 | both ends must exist on the canvas |
| CanvasStore.Store.UpdateEdgeRow | proofgraph/graph/operations.py:671-701 | replaces the given fields, checks the resulting ends, raises the version by one |
| CanvasStore.Store.DeleteEdgeRow | proofgraph/graph/operations.py:704-715 | removes the row under its version |
| CanvasStore.Store.ReplaceAssumptionRow | proofgraph/graph/operations.py:718-796 | only an accepted assumption with exactly one owning opportunity; the previous text is kept in the result |
| CanvasStore.Store.RecomputeClaims | proofgraph/graph/operations.py:851-897 | every claim of the source is recomputed from its remaining sources; a claim without any is rejected |
| CanvasStore.Store.RejectEvidenceRow | proofgraph/graph/operations.py:799-934 | the rejection of a source or claim with the exact lists of rejected and retained claims |
| CanvasStore.Store.DispatchHandler | proofgraph/graph/operations.py:1056-1066 | every operation type has the outcome of the model, and a refusal leaves every row alone |
| CanvasStore.Store.CaptureDirectInvalidation | proofgraph/graph/staleness.py:89-195 | where the traversal of each operation starts and what it excludes; what that comes to is CanvasInvalidation.StaledExactly |
| CanvasStore.Store.ResolveDirectInvalidation | proofgraph/graph/staleness.py:198-224 | the affected set on the canvas after the handler; an updated edge adds its new descendant end |
| CanvasStore.Store.ApplyStaleness | proofgraph/graph/staleness.py:227-286 | one cause per eligible node; only fresh nodes become stale and gain a version |
| CanvasStore.Store.CommitChange | proofgraph/graph/operations.py:1072-1159 | the table writes in their order are the one commit of the model: log entry, audit stamps, staleness, next revision |
| CanvasStore.Store.ApplyGraphOperation | proofgraph/graph/operations.py:1014-1159 | a known key replays its stored result or conflicts; a refused operation leaves the canvas untouched; otherwise one commit |
| CanvasStore.Store.ApplyCandidateOperation | proofgraph/generation/patch_application.py:1095-1170 | a candidate commits like a direct operation under its patch key, without staling nodes the patch deletes |
| CanvasStore.FindKey | proofgraph/graph/operations.py:1033-1054 | finds the logged operation of a key, or none has it |
| CanvasInvariant.HandleKeepsValid | proofgraph/graph/operations.py:433-934 | every handler keeps edges attached, branch anchors on existing nodes of an anchoring kind, staleness consistent and the log gap-free |
| CanvasInvariant.CommitKeepsStaleness | proofgraph/graph/staleness.py:227-286 | a node is stale exactly when it has a cause, and stale since its first cause |
| CanvasInvariant.CommitKeepsValid | proofgraph/graph/operations.py:1072-1159 | logging under a fresh key keeps the whole invariant, with revision equal to the length of the log |
| CanvasInvariant.ApplyKeepsValid | proofgraph/graph/operations.py:1014-1159 | every committed direct operation keeps the invariant |
| CanvasStaleness.CommitEffect | proofgraph/graph/staleness.py:227-286 | staleness grows by exactly the affected eligible nodes, each newly stale node gains one version, edges and positions stay |
| CanvasStaleness.BumpedNodesExcluded | proofgraph/graph/staleness.py:89-195 | a node whose version the handler raised is outside the traversal that follows |
| CanvasStaleness.VersionStepsByAtMostOne | proofgraph/graph/operations.py:1014-1159 | no operation raises the version of a surviving node by more than one |
| CanvasStaleness.OldBelowStillBelow | proofgraph/graph/staleness.py:198-224 | what was below the old descendant end is still reached from it after the edge is gone |
| CanvasStaleness.EdgeChangeStales | proofgraph/graph/staleness.py:105-138 | after UPDATE_EDGE or DELETE_EDGE every eligible node below the old end before, or below the new end after, is stale |
| CanvasStaleness.DeletionKeepsBelow | proofgraph/graph/operations.py:704-715 | deleting one edge of a node leaves each eligible dependent below it still, or stale |
| CanvasStaleness.TeardownLosesNoDependent | proofgraph/graph/operations.py:598-637 | deleting the incident edges in any order and then the node leaves every eligible former strict dependent stale |
| CanvasInvalidation.StaledExactly | proofgraph/graph/staleness.py:89-286 | for every committed operation: a surviving node goes stale, gets a cause naming the edited entity and is listed in the stored result exactly when it is open to invalidation and a path along edges leads to it from the edited node, from the owning opportunity of a replaced assumption (that one included), or from the old or new dependent end of the edge; not the edited node, and not the claims of a rejected source |
| CanvasInvalidation.EditStalesNeighbour | proofgraph/graph/staleness.py:37-86 | an edit stales the other end of each constrained_by and extracted_from edge that points to the node and of each other edge that points away from it |
| CanvasInvalidation.WrongWayIsLeftAlone | proofgraph/graph/staleness.py:37-86 | when the only edge runs the other way round, the other node stays exactly as it was |
| CanvasInvalidation.RejectionOutcome | proofgraph/graph/operations.py:799-934 | after a rejection each claim that rests on the source holds exactly the remaining sources that are neither rejected nor provisional, their independence keys and how many those are, and is rejected itself exactly without any; the result names the claims; every other node keeps its content |
| CanvasInvalidation.RejectionStamps | proofgraph/graph/operations.py:937-988 | the evidence and the claims that lost their last source are stamped with the operation as rejected, the other claims as reviewed, and nothing else is stamped |
| CanvasOutcomes.NodesFollow | proofgraph/graph/operations.py:433-934 | what a committed operation makes of any node, field by field: text, metadata merged field by field, anchor, position, both versions, staleness; which node is added with what, which is deleted, and that every other one stays |
| CanvasOutcomes.EdgesFollow | proofgraph/graph/operations.py:640-715 | the same for any edge |
| CanvasOutcomes.LogFollows | proofgraph/graph/operations.py:1072-1159 | one entry under the key of the request with what was done; a replacement records the previous text, version and the owning opportunity |
| CanvasRefusals.RefusedExactly | proofgraph/graph/operations.py:180-934 | every error of the ten operations arises exactly under its own condition on canvas and request, so an operation is handled exactly when none of them holds |
| CanvasRefusals.KeyDecides | proofgraph/graph/operations.py:1033-1054 | a logged key answers the same request with the stored result and refuses any other |
| CanvasTeardown.AnyNodeCanGo | proofgraph/graph/operations.py:598-637 | direct operations take any node that no ingestion refers to off the canvas, with its edges and the anchors on it, and leave the content of the other nodes alone |
| CanvasTeardown.CanGoIff | proofgraph/graph/operations.py:598-637 | a node can be gone after some work of the three writers exactly when no ingestion refers to it |
| DependentsKept.BelowUntilStale | proofgraph/graph/staleness.py:89-286 | over any run of the three writers a dependent that stays eligible (on the canvas, no placeholder, not rejected) stays below the node until it is stale, and is stale from then on |
| DependentsKept.NoDependentIsLost | proofgraph/graph/staleness.py:89-286 | when the node is gone, however it was taken apart and by whom, each former dependent that stayed eligible is stale |
| DependentsKept.CutLosesNothingIff | proofgraph/generation/patch_application.py:1095-1170 | a patch operation that deletes an edge loses a dependent on no canvas exactly when the dependent is not spared and the edge is named by its identity |
| DependentsKept.ReviewKeepsDependents | proofgraph/generation/patch_application.py:1357-1405 | a sound review whose derived identities are new loses no eligible dependent that it does not mean to delete |
| DependentsKept.ReviewLosesSparedNode | proofgraph/generation/patch_application.py:1292-1296 | a sound review that cuts a node off, skips its deletion, and leaves it neither stale nor below what it depended on |
| DependentsKept.EditedIsReached | proofgraph/graph/operations.py:472-575 | renaming the node makes the canvas of that review |
| PatchInvariant.ApplyCandidateKeepsValid | proofgraph/generation/patch_application.py:1095-1170 | every applied candidate keeps the canvas invariant |
| PatchInvariant.AddOnlyIsFrameStep | proofgraph/generation/patch_application.py:889-930 | adding a node or an edge changes no existing node, edge, stale flag or cause |
| PatchInvariant.CandidateVersionSteps | proofgraph/generation/patch_application.py:1095-1170 | a candidate raises the version of a surviving node by at most two, and by two exactly when its reference is a local name for a fresh eligible dependent of the identity it spells |
| PatchInvariant.PreflightedStepsOnce | proofgraph/generation/patch_application.py:675-836 | as long as the identities a patch derives are not on the canvas of the preflight, a candidate that passed it raises no surviving version by more than one, on whatever canvas it is applied |
| CandidateOutcomes.CandidateNodesFollow | proofgraph/generation/patch_application.py:881-1092 | what an applied candidate makes of any node, field by field, with local names in metadata and anchors replaced by identities; an added node is accepted and names its patch |
| CandidateOutcomes.CandidateEdgesFollow | proofgraph/generation/patch_application.py:881-1092 | the same for any edge |
| CandidateOutcomes.CandidateLogFollows | proofgraph/generation/patch_application.py:1112-1170 | one entry under the patch key with the candidate and the entity it changed |
| CandidateOutcomes.CandidateStalesExactly | proofgraph/generation/patch_application.py:1124-1160 | a candidate that names what it changes by identity stales exactly what paths lead to, as the direct operation does, except the nodes the patch means to delete |
| CandidateChecks.PassesIff | proofgraph/generation/patch_application.py:675-836 | a candidate passes the preflight exactly when its references are local names or on the canvas, versions match, added identities are new, the anchor is of a kind that can be one, and whatever refers to a deleted node goes with the selection |
| CandidateChecks.AppliesIff | proofgraph/generation/patch_application.py:845-1123 | a candidate under a new key can be applied exactly when this holds of the canvas its turn finds |
| PatchPasses.SkipPass | proofgraph/generation/patch_application.py:1299-1350 | skips exactly what is bad or transitively depends on something bad |
| PatchPasses.PropagateGroupSkips | proofgraph/generation/patch_application.py:476-497 | one sweep adds exactly the members of every group that has a skipped member |
| PatchPasses.WholeForAllConflictsIff | proofgraph/generation/patch_application.py:1351-1370 | a group is kept or skipped as one for every set of conflicts exactly when it keeps together, a condition on dependencies, order and groups alone |
| PatchPasses.WholeIffWithstands | proofgraph/generation/patch_application.py:1351-1370 | for one set of conflicts a group is kept or skipped as one exactly when it withstands them |
| PatchPasses.WithstandsInParts | proofgraph/generation/patch_application.py:476-497 | conflicts that come in parts are withstood together when each part is withstood alone |
| PatchPasses.GroupsStayWhole | proofgraph/generation/patch_application.py:1299-1405 | first pass, one sweep and second pass skip a group that keeps together wholly or not at all, for every set of conflicts |
| PatchPasses.ThroughRootKeepsTogether | proofgraph/generation/patch_application.py:419-445 | a group keeps together when whatever a member needs from outside, the root needs too |
| PatchPasses.InsideKeepsTogether | proofgraph/generation/patch_application.py:419-445 | in particular when non-root members depend only on their own group |
| PatchPasses.GroupsCanSplit | proofgraph/generation/patch_application.py:1351-1373 | two rooted groups and one conflict: a clone that also depends on the other successor is skipped alone |
| RegenerationContract.FrozenWorkset | proofgraph/generation/patch_application.py:160-190 | a manifest is refused exactly when scope, targets or a stale-member list is malformed or a target is named twice; otherwise its targets and all their stale members, a target without a list standing for itself |
| RegenerationContract.FrozenIsSound | proofgraph/generation/patch_application.py:160-190 | what a manifest freezes has targets and stale members and one of the two scopes |
| RegenerationContract.SoundIsFrozen | proofgraph/generation/patch_application.py:160-190 | every such workset is frozen by some manifest |
| ContractReading.ManifestReads | proofgraph/generation/patch_application.py:160-190 | which manifests are accepted, field by field: one of two scopes that was also requested, and targets that can be read and are named once |
| ContractReading.ManifestFreezes | proofgraph/generation/patch_application.py:160-190 | what they freeze: the nodes named, and the stale members listed with each, or the node itself |
| RegenerationContract.CollectSuccessors | proofgraph/generation/patch_application.py:271-330 | succeeds exactly when the production roots of the patch are one successor per target, in any spelling of the predecessor, and nothing else names a predecessor |
| RegenerationContract.OnlyLineage | proofgraph/generation/patch_application.py:334-356 | the lineage edge of a target: there is exactly one match and this run made it |
| RegenerationContract.CollectLineage | proofgraph/generation/patch_application.py:332-356 | succeeds exactly when every target has its one lineage edge behind its successor |
| RegenerationContract.CollectClones | proofgraph/generation/patch_application.py:358-417 | succeeds exactly when the constraint candidates are one faithful clone per constraint anchored at a target |
| RegenerationContract.BuildGroups | proofgraph/generation/patch_application.py:419-445 | one group per target, refused exactly when some group is selected in part; the groups are disjoint |
| RegenerationContract.DecompositionUnique | proofgraph/generation/patch_application.py:271-417 | a patch decomposes into successors, lineage and clones in at most one way |
| RegenerationContract.ValidateRegeneration | proofgraph/generation/patch_application.py:209-473 | accepts exactly the patches that meet the regeneration contract, with the groups of their decomposition; refuses for the selection exactly those that would meet it under another one |
| ContractReading.FitsIff | proofgraph/generation/patch_application.py:209-417 | what a patch must satisfy whatever is selected, without naming members: one successor per target of its kind, scope and run, one edge that leads there, one copy of each anchored constraint, and a place for every added node |
| ContractReading.ContractIff | proofgraph/generation/patch_application.py:209-473 | the whole contract is equivalent to that reading and every group being selected as a whole or not at all |
| RegenerationContract.ChainedIsRooted | proofgraph/generation/patch_application.py:419-445 | every member of an accepted group depends on its successor |
| PatchReview.PassSettles | proofgraph/generation/patch_application.py:1357-1405 | after the second pass each operation is applied or skipped, never both, and what is applied has its prerequisites applied |
| PatchReview.StrictPassSkipsDependents | proofgraph/generation/patch_application.py:1357-1405 | a strict pass that survives skips exactly what depends on something skipped before it |
| PatchReview.PassConserves | proofgraph/generation/patch_application.py:1357-1405 | the canvas stays valid and the log grows by one entry per applied operation, at the revision noted for it |
| PatchReview.AddOnlyPassFrames | proofgraph/generation/patch_application.py:889-930 | an add-only pass changes no existing row, whatever it skips, and creates the nodes it applied |
| PatchReview.PreservationCheckIff | proofgraph/generation/patch_application.py:500-549 | the check after a regeneration patch succeeds exactly when every successor that will be applied has a predecessor that comes out as its canonical text and a scope and mode that are no local names |
| PatchReview.AppliedIsForeseen | proofgraph/generation/patch_application.py:1357-1405 | what a surviving strict review applies is the selection without what conflicts, sweep and dependencies skip, known before anything is applied |
| PatchReview.AllForeseen | proofgraph/generation/patch_application.py:1299-1350 | without conflicts it is the whole selection |
| PatchReview.RewrittenField | proofgraph/generation/patch_application.py:575-582 | a metadata text comes out as its identity when it is a local reference and as itself otherwise |
| PatchReview.ReviewPartitions | proofgraph/generation/patch_application.py:1357-1458 | accepted and skipped partition the selection, and the accepted set is closed under prerequisites |
| PatchReview.ReviewConservesLog | proofgraph/generation/patch_application.py:1357-1458 | the revision grows by the number of accepted operations, each of which is one log entry of this patch |
| PatchReview.AllOrNothing | proofgraph/generation/patch_application.py:1299-1405 | without apply_nonconflicting_only a successful review accepts its whole selection |
| PatchReview.RegenerationIsFrame | proofgraph/generation/patch_application.py:235-238 | a regeneration patch changes nothing that was on the canvas before |
| PatchReview.GroupsReviewedAtomically | proofgraph/generation/patch_application.py:1351-1405 | every group that keeps together is accepted wholly or not at all, in both modes |
| PatchReview.ReviewedAtomicallyIff | proofgraph/generation/patch_application.py:1351-1405 | a selected group is accepted as one for all conflicts exactly when it keeps together |
| PatchReview.ReviewStepsOnce | proofgraph/generation/patch_application.py:1357-1405 | as long as derived identities are new, no turn of the second pass raises a surviving node's version by more than one |
| PatchConflicts.RefusedIffGone | proofgraph/generation/patch_application.py:675-836 | an addition that fits a canvas is refused on a later one exactly when a node it mentions has gone |
| PatchConflicts.ConflictsAreMentions | proofgraph/generation/patch_application.py:1299-1350 | the preflight conflicts of a later canvas are exactly the selected operations that mention a node gone since |
| PatchConflicts.OnlyDispensableGo | proofgraph/generation/patch_application.py:209-417 | as long as the contract is met, no target, stale member, constraint to be cloned or ingested source is gone |
| PatchConflicts.OneCanGo | proofgraph/generation/patch_application.py:209-417 | any other node can be deleted by direct operations without breaking the contract, and then the conflicts are what mentions it |
| PatchConflicts.AtomicOnLaterCanvasesIff | proofgraph/generation/patch_application.py:1299-1405 | whatever the three writers do until the review, a selected group of a patch that fitted its canvas is accepted as one, exactly when it withstands what mentions any single dispensable node |
| PatchWitnesses.BeforeIsReached | proofgraph/graph/operations.py:1014-1159 | cutting an edge and deleting the node above it make the canvas of the following patches, with both targets stale |
| PatchWitnesses.ReviewSplitsGroup | proofgraph/generation/patch_application.py:1351-1405 | a patch with stale targets that meets the regeneration contract, and a sound review of it that applies a successor without its clone |
| PatchWitnesses.OthersSplitGroup | proofgraph/generation/patch_application.py:1351-1405 | the same patch fits the canvas it was made for and meets its contract there; one node is deleted, and its sound review splits a group |
| PatchWitnesses.LineageFailsCheck | proofgraph/generation/patch_application.py:500-549 | patches that meet the regeneration contract and pass both passes but not the check: one with a local name that is the text of the lineage mode, one with its predecessor in another spelling |
| PatchWitnesses.OwnEditStaled | proofgraph/generation/patch_application.py:1095-1170 | a candidate that passes the preflight and raises a version by two, under a map to an identity already on the canvas |
| PatchService.RulingsRecorded | proofgraph/generation/patch_application.py:1414-1478 | one decision per operation in order with the revision of each accepted one; APPLIED exactly when all were accepted and there is one, PARTIALLY_APPLIED when some were and some were not, REJECTED when none was; a repeat of the selection is recognised |
| PatchService.CountsSay | proofgraph/generation/patch_application.py:1459-1478 | the status taken from the counts says of the decisions whether all, some or none were accepted |
| PatchService.LastRevision | proofgraph/generation/patch_application.py:1198-1222 | the greatest accepted revision, or the current one when nothing was accepted |
| PatchService.RepeatReportsSameRevision | proofgraph/generation/patch_application.py:1173-1226 | the revision a repeat reports is the one the first answer reported |
| PatchService.FirstPass | proofgraph/generation/patch_application.py:1299-1373 | first pass and group sweep block exactly the operations of the model |
| PatchService.SecondPass | proofgraph/generation/patch_application.py:1357-1405 | the store follows the pass turn by turn |
| PatchService.GraphPatch.constructor | proofgraph/generation/models.py:486-530 | a new patch is pending and undecided |
| PatchService.GraphPatch.Select | proofgraph/generation/patch_application.py:1245-1247 | which of the three selection errors, exactly, or an order with prerequisites first |
| PatchService.GraphPatch.RetryResult | proofgraph/generation/patch_application.py:1173-1226 | a decided patch answers exactly the request it was decided by |
| PatchService.GraphPatch.CheckRegeneration | proofgraph/generation/patch_application.py:209-221 | accepts exactly patches that meet the regeneration contract, or declare nothing when of another operation; says whether the patch or its selection is at fault |
| PatchService.GraphPatch.Prepare | proofgraph/generation/patch_application.py:585-636 | refuses exactly selections with a reference that is neither local nor an identity |
| PatchService.GraphPatch.Review | proofgraph/generation/patch_application.py:1297-1412 | a whole sound review, or a refusal for a conflict or for lost lineage, each justified, with the canvas rolled back |
| PatchService.GraphPatch.RecordDecisions | proofgraph/generation/patch_application.py:1414-1486 | decisions, accepted local identities, and the status that the decisions give |
| PatchService.GraphPatch.ApplyGraphPatch | proofgraph/generation/patch_application.py:1230-1486 | a pending patch is decided once by a whole review or refused for an exact reason with nothing changed; a decided one changes nothing and answers only its own request; APPLIED, PARTIALLY_APPLIED and REJECTED say that all, some or none of the decisions are acceptances |
| ReviewOutcomes.RulingsSay | proofgraph/generation/patch_application.py:1414-1458 | an operation is not accepted exactly when it was not chosen, a conflict when chosen and not applied, and otherwise carries the revision of its own log entry |
| ReviewOutcomes.NamesSay | proofgraph/generation/patch_application.py:1248-1296 | the local names of the chosen additions with their derived identities, the nodes the selection deletes, the conflicts as exactly the chosen operations that fail the check, and the reported names as those of the accepted additions |
| ReviewOutcomes.AcceptedExactly | proofgraph/generation/patch_application.py:1351-1405 | a chosen operation is accepted exactly when nothing blocks it, its prerequisites are accepted and it can be applied to the canvas its turn finds |
| ReviewOutcomes.ReferencesAre | proofgraph/generation/patch_application.py:585-636 | which references have to parse, per candidate |
| PatchService.GraphPatch.RejectGraphPatch | proofgraph/generation/patches.py:215-261 | rejects a pending patch with one decision per operation; repeats change nothing |
| PatchService.GraphPatch.RegenerateGraphPatch | proofgraph/generation/patches.py:296-523 | links one run and rejects the patch, answers the same request again, refuses every other with its reason |
| PatchHistory.ReviewIsOwnSteps | proofgraph/generation/patch_application.py:1357-1405 | what a review makes of a canvas is what some steps of its patch make of it among the three writers |
| PatchHistory.OthersLogNothingOfPatch | proofgraph/graph/operations.py:1033-1159 | direct operations, ingestion and other patches log nothing under the keys of a patch, over any trace |
| PatchHistory.ApplyMoves | proofgraph/generation/patch_application.py:1297-1486 | a successful apply moves the patch and its canvas as a history allows: decided once, by steps of its own |
| PatchHistory.QuietCallMoves | proofgraph/generation/patches.py:215-261 | so do a rejection, a regeneration, a refusal and a repeat, without touching the canvas |
| PatchHistory.PendingIsUnlogged | proofgraph/generation/patch_application.py:1248-1273 | while a patch is pending nothing of it is in the log, which is what applying it relies on |
| PatchHistory.DecidedOnceForAll | proofgraph/generation/patch_application.py:1173-1486 | over any history of calls and other writers a patch leaves PENDING at most once: its row never changes afterwards and nothing more is logged under its keys |
| StagePlan.EveryPlanIsKeyed | proofgraph/generation/execution.py:129-163 | every plan ends with the one patch step, and no two steps share phase and stage |
| StagePlan.BranchTargetsInTheirPhase | proofgraph/generation/execution.py:146-163 | a branch plan works on every supported target in all stages of its own phase and nowhere else before the patch |
| StagePlan.PlanIsPipeline | proofgraph/generation/execution.py:41-163 | each operation with a plan runs exactly its stages, per kind of the first target or of the targets present, phases in the order strategy, claim_evidence, opportunity_family, patch, and within a phase planning, researching, extracting, clustering, synthesizing, critiquing, constructing_patch |
| StagePlan.StepTargets | proofgraph/generation/execution.py:129-163 | every step works on exactly the targets of its phase in order, the patch step on all of them |
| RunLog.AppendKeepsLog | proofgraph/generation/events.py:24-55 | one append keeps the log gap-free and is heard by its own run only; a second ending of an attempt is dropped |
| RunLog.RunSequenceIsPosition | proofgraph/generation/events.py:42-55 | the run sequence of an event is its position among the events of its run |
| RunLog.RunSequencesIncrease | proofgraph/generation/events.py:42-55 | run sequences follow the canvas order |
| RunLog.LogsStayGapFree | proofgraph/generation/events.py:24-55 | canvas sequences are exactly 1..last in every reachable state, whatever the actors do |
| RunInvariant.ActionKeepsRow | proofgraph/generation/models.py:135-155 | every transaction keeps the lease-state constraint, the attempt bound, the error state, and COMPLETED or PATCH_READY with a patch |
| RunInvariant.ActionKeepsStages | proofgraph/generation/models.py:197-210 | stage keys stay unique and a stage has an output exactly when completed |
| RunInvariant.ActionKeepsEndings | proofgraph/generation/events.py:33-40 | a run that is over has one terminal event for its attempt, a leased run has none |
| RunOutcomes.StatusFollows | proofgraph/generation/execution.py:188-574 | for every transaction: when the status moves and where to, when the attempt counts up, and that the epoch moves exactly on claim, recovery and fence |
| RunOutcomes.LeaseFollows | proofgraph/generation/queue.py:210-340 | who holds the lease after any transaction and until when: 60 seconds from a claim, recovery or renewal, nobody once the run has ended |
| RunOutcomes.TimesFollow | proofgraph/demo/cleanup.py:60-138 | start, end and cancel request after any transaction, cleanup and reset included |
| RunOutcomes.ContentFollows | proofgraph/generation/execution.py:398-574 | the stored error, the patch and the current stage after any transaction, and that the request of a run never changes |
| RunOutcomes.NewsFollows | proofgraph/generation/queue.py:41-280 | exactly the events every transaction appends, in order; cleanup completes a run without naming a patch |
| RunOutcomes.StagesFollow | proofgraph/generation/execution.py:188-481 | what any transaction makes of any stage row: new, begun again, completed, failed or as it was |
| RunOutcomes.CreationFollows | proofgraph/generation/services.py:86-159 | a run is created once per canvas and key: queued, three attempts, nothing else to show |
| ClientReducer.ReducerFoldsEachRun | web/src/generation.ts:106-279 | folding a gap-free log gives every run exactly the fold of its own events |
| ClientView.ViewTells | web/src/generation.ts:98-221 | the view of a run shows every source and claim its events told, once, in the order first told and as told last, and the stage and cancellation of the latest event about them |
| ClientView.PageTells | web/src/generation.ts:223-279 | whatever the page tracks, asks, reconnects or resets to, its sources and claims are exactly those of the events it has taken in since |
| ClientView.AnswerShown | proofgraph/generation/services.py:169-195 | an answer of the server replaces every field but sources and claims, shows a cancellation as asked for until the run is cancelled, and touches no other run |
| ServerClient.ActionKeepsAgreement | web/src/generation.ts:106-221 | every transaction keeps server row and browser view in agreement |
| ServerClient.StrandedExactlyFromRequeue | proofgraph/generation/services.py:208-219 | the one kind of step that makes the browser's status wrong is ending a run from the queue after a retry |
| ServerClient.EndFromRequeueIsSilent | proofgraph/generation/events.py:33-40 | such an ending appends no event and leaves the browser at "queued" |
| RunWitnesses.StrandedRun | proofgraph/generation/services.py:198-257 | open, create, claim, fail, retry, cancel: the run is cancelled and the fold of its whole log shows it queued |
| ServerClient.RetryOfferedIffAccepted | web/src/generation.ts:285-291 | the browser offers a retry exactly when the server would accept it |
| ClientReconcile.SnapshotThenEvents | web/src/generation.ts:247-279 | a snapshot over any earlier view and then the remaining events leave the view in agreement with the later row; "queued" for a cancelled run only if its attempt had failed before |
| ClientReconcile.SnapshotThenReplay | web/src/App.tsx:412-498 | over any trace of the system, asking at any point of the replay and reading on to the end agrees with the server, and repairs a stranded run |
| RunPhases.ActionMoves | proofgraph/generation/events.py:24-55 | a transaction that is heard without a phase event leaves status, attempt, error and patch, or cancels silently from the requeue; with a phase event it lowers the measure |
| ClientReconcile.LateSnapshotIsRightIff | web/src/generation.ts:247-266 | an answer older than what was already read is right exactly when no event in between announces a phase of the run |
| ClientReconcile.LateSnapshotOverTrace | web/src/App.tsx:412-498 | the same over any trace of the system between asking and showing |
| ClientReconcile.LateSnapshotHidesClaim | web/src/App.tsx:428-431 | an answer given before a claim and shown after it hides the claim |
| ClientReconcile.AfterIsLater | proofgraph/generation/events.py:24-55 | over any trace the events of a surviving run only grow, and a cancelled run never changes again |
| RunTraces.SoundStays | proofgraph/generation/queue.py:41-340 | every interleaving of workers, recovery, clients, cleanup and reset keeps rows, log and browser sound |
| RunTraces.TerminalEventExactlyOnce | proofgraph/generation/events.py:33-55 | in every reachable state a finished run has exactly one terminal event for its attempt and a leased run has none |
| RunTraces.BrowserSimulatesServer | web/src/generation.ts:106-279 | in every reachable state the fold of the log gives the server's attempt, error, patch and retry offer, and its status unless the run was cancelled from the queue after a retry |
| RunTraces.OldLeaseNeverWrites | proofgraph/generation/queue.py:283-308 | a step under a lease of an older epoch, or of the epoch of a run that is leased no more, changes nothing at any later time |
| RunTraces.EpochMovesExactlyOnInstall | proofgraph/generation/queue.py:210-280 | the epoch moves by one exactly on a claim, a recovery takeover, or a fence of cleanup or reset |
| RunTraces.InstallFencesHolder | proofgraph/demo/cleanup.py:106-138 | after an installing step every lease that could write before is fenced for good |
| RunTraces.WindowsAreDisjoint | proofgraph/generation/queue.py:283-308 | while a holder may write nobody may claim, recover or poison, and the other way round except at the instant of expiry |
| RunTraces.EffectsOrderedByEpoch | proofgraph/generation/queue.py:283-340 | over any trace the effective writes on a run are ordered by epoch |
| RunProgress.ActionSpendsMeasure | proofgraph/generation/execution.py:398-481 | every change of status or attempt lowers (remaining attempts, status rank); renewal, takeover and cancel requests do not move it |
| RunProgress.ChangesAreBounded | proofgraph/generation/queue.py:210-280 | no trace changes status or attempt of a run more often than its measure |
| RunProgress.NewRunChangesBounded | proofgraph/generation/services.py:53-159 | from its creation on a run goes through at most sixteen changes of status or attempt, whatever the actors do |
| RunProgress.AttemptCountsClaims | proofgraph/generation/queue.py:231-252 | the attempt counts exactly the successful claims |
| RunProgress.QueuedRunsAreClaimable | proofgraph/generation/services.py:267-275 | a queued run can be claimed and never poisoned; a retryable failure can be retried |
| RunProgress.PatchReadyRace | proofgraph/generation/queue.py:41-101 | an expired patch-ready run can be poisoned exactly on its last attempt, and then ends failed with its patch |
| RunWitnesses.PatchReadyOnLastAttempt | proofgraph/generation/queue.py:41-101 | from a run that two workers have claimed and lost, under two tokens, a third one's claim and own moves lead to such a run on attempt three of three, and a poisoning ends it failed with its patch |
| RunProgress.CancellationIsSticky | proofgraph/generation/execution.py:230-261 | a run asked to cancel while running reaches neither PATCH_READY nor COMPLETED in any trace without a retry |
| RunProgress.CheckpointsArePermanent | proofgraph/generation/execution.py:264-389 | completed stages and a stored patch are never overwritten, in any trace |
| RunProgress.OneOutputPerKey | proofgraph/generation/models.py:197-210 | at most one completed output per stage and input hash, across time |
| EventDelivery.BatchIsSlice | proofgraph/generation/sse.py:20-29 | the query has one answer on a gap-free log, the next slice |
| EventDelivery.BatchIsFull | proofgraph/generation/sse.py:20-29 | a batch has a hundred rows or all that were left |
| EventDelivery.CanvasEventStream.constructor | proofgraph/generation/sse.py:48-56 | a stream starts at the requested cursor |
| EventDelivery.CanvasEventStream.Poll | proofgraph/generation/sse.py:48-75 | sends exactly the next slice, a hundred events or all that are left, and moves the cursor to its end; sends nothing only at the end of the log |
| EventDelivery.ExactlyOnceDelivery | web/src/generation.ts:268-279 | in every state reached from an empty log, for any batching, disconnects, reconnects and overlapping streams, the browser is one in-order fold of a prefix of the log |
| EventDelivery.IdleStreamMeansCaughtUp | proofgraph/generation/sse.py:48-75 | a stream with nothing left to send has brought the browser to the end of the log |
| RunDatabase.Database.AppendEventLocked | proofgraph/generation/events.py:24-55 | next canvas and run sequence, or nothing for a second ending of an attempt |
| RunDatabase.Database.TerminalizeExhaustedRuns | proofgraph/generation/queue.py:41-101 | poisons every visible exhausted run once, counts them, and leaves every other row alone |
| RunDatabase.Database.FinalizeExpiredPatchReadyRuns | proofgraph/generation/queue.py:104-207 | completes every visible expired patch-ready run by a takeover and a completion, counts them, and moves no other row |
| RunDatabase.SweptInTwo | proofgraph/generation/queue.py:210-212 | recovery and then poisoning leave nothing recoverable or exhausted among the visible runs: recoverable ones completed, the other exhausted ones failed, no other row moved |
| RunDatabase.Database.ClaimNext | proofgraph/generation/queue.py:210-280 | after such a sweep, claims the visible claimable run that was created first, identities settling a tie, under a new epoch, or there is none |
| RunDatabase.Database.RenewLease | proofgraph/generation/queue.py:311-340 | extends the expiry exactly for the holder of an unexpired lease |
| RunDatabase.Database.CancelIfRequested | proofgraph/generation/execution.py:230-261 | ends the run exactly when the lease is held and a cancel request is there |
| RunDatabase.Database.FinalizeCancelledRun | proofgraph/generation/execution.py:188-227 | active stage failed, lease released, cancel event |
| RunDatabase.Database.BeginStage | proofgraph/generation/execution.py:264-335 | reuses a completed row of the same name and hash unchanged, or leaves an active row to work on |
| RunDatabase.Database.CompleteStage | proofgraph/generation/execution.py:338-389 | commits the output only under the lease and only into an active stage |
| RunDatabase.Database.AppendProgressEvent | proofgraph/generation/execution.py:392-395 | progress is appended only under the lease |
| RunDatabase.Database.FailRun | proofgraph/generation/execution.py:398-481 | fails the run; a retryable error on the last attempt is stored as exhausted |
| RunDatabase.Database.PersistPatch | proofgraph/generation/execution.py:499-525 | stores the patch once and moves to PATCH_READY, or ends the run that was asked to cancel |
| RunDatabase.Database.CompleteRun | proofgraph/generation/execution.py:554-574 | completes the run only under an unexpired patch-ready lease, and keeps its patch |
| RunDatabase.Database.CreateGenerationRun | proofgraph/generation/services.py:53-159 | one run per canvas and key; the same request answers the stored run, another fingerprint conflicts |
| RunDatabase.Database.CancelGenerationRun | proofgraph/generation/services.py:198-257 | ends a queued run, marks a running one, refuses the statuses that are past cancelling |
| RunDatabase.Database.RetryGenerationRun | proofgraph/generation/services.py:260-305 | requeues exactly retryable failures without a lease and with attempts left |
| RunDatabase.Database.FenceAndTerminalizeRun | proofgraph/demo/cleanup.py:106-138 | ends the run, releases the lease and raises the epoch |
| RunDatabase.Database.CleanupRun | proofgraph/demo/cleanup.py:69-84 | fences a run without a live owner and asks one with a live owner to cancel |
| RunDatabase.Database.ResetRun | proofgraph/demo/services.py:75-95 | fences and cancels an active run |
| DemoSessions.VisitEndsOrAsks | proofgraph/demo/cleanup.py:69-84 | after cleanup's visit a run without a live owner is over at the next epoch; one with a live owner keeps its lease and carries a cancel request |
| DemoSessions.VisitRuns | proofgraph/demo/cleanup.py:60-84 | the loop visits every active run of the session once and reports whether one is live |
| DemoSessions.SessionVisited | proofgraph/demo/cleanup.py:55-138 | status, lease and times of every run after a cleanup or reset of a session: those of its own transaction when the run is of the session and canvas and on its way, unchanged otherwise |
| DemoSessions.LiveIffAttended | proofgraph/demo/cleanup.py:60-84 | the session is waited for exactly when some run of it is running or patch-ready under a lease whose time is not up |
| DemoSessions.DemoSession.CleanupLockedSession | proofgraph/demo/cleanup.py:55-103 | canvas and session go exactly when no run of the session has a live lease |
| DemoSessions.DemoSession.ResetDemoSession | proofgraph/demo/services.py:57-100 | refuses exactly a session that is gone or expired; otherwise every active run on the old canvas is fenced and cancelled before the canvas is swapped |
| DemoSessions.CleanedSessionIsFenced | proofgraph/demo/cleanup.py:55-103 | when cleanup may delete, no run of the session is active and no step under any lease its runs ever had changes anything later |
| CheckpointResume.ChainKept | proofgraph/generation/execution.py:622-720 | what the committed checkpoints determine stays determined by the same outputs |
| CheckpointResume.ChainHoldsEveryOutput | proofgraph/generation/execution.py:172-185 | no step overwrites the entry of another, because phase and stage key the prior outputs; an entry holds the phase, the target nodes and the committed output of its step |
| CheckpointResume.ChainCounts | proofgraph/generation/execution.py:622-720 | after n steps there are exactly n prior outputs |
| CheckpointResume.ConsistentStays | proofgraph/generation/execution.py:598-780 | for any crashes, expiries, reclaims and retries every worker holds exactly the prior outputs its run's checkpoints determine |
| CheckpointResume.CheckpointsOutliveCrashes | proofgraph/generation/execution.py:264-389 | over any moves of workers and other actors, crashes included, every run that survives keeps its completed stages and its patch, and a run that appears was never there before |
| CheckpointResume.ResumedWorkersAgree | proofgraph/generation/execution.py:622-720 | in every reached state two workers of a run at the same step hold the same prior outputs |
| CheckpointResume.PatchRefinesUninterruptedRun | proofgraph/generation/execution.py:598-780 | in every state that any moves reach from an empty database, a stored patch is the last answer of an uninterrupted run whose answers are the committed, validated outputs |
| StageOrder.StagesOpenInOrder | proofgraph/generation/execution.py:598-748 | in every state that any moves reach, a stage of a run is there only when every earlier stage of its phase, and every stage of an earlier phase, is completed |
| WorkerProgress.StepsOn | proofgraph/generation/execution.py:622-748 | a worker that holds its run gets one step on by its own moves from that state, by reusing a committed output or by executing and committing |
| WorkerProgress.StartedWorkerCanFinish | proofgraph/generation/execution.py:598-780 | from whatever checkpoints and broken stages are there, the own moves of a worker started under a live lease lead to the stored patch, under the same terms and with every checkpoint kept |
| WorkerProgress.ClaimableRunCanFinish | proofgraph/generation/queue.py:210-280 | from every reached state with a claimable run and no cancel request: claim it, start a worker, and its own moves alone lead to PATCH_READY at the next attempt, with every checkpoint kept |
| StageWorker.Observe | proofgraph/generation/execution.py:230-261 | looking for a cancellation is its model step, and goes on exactly when undisturbed |
| StageWorker.Open | proofgraph/generation/execution.py:640-656 | opening a stage is a reuse or an active row of the model |
| StageWorker.Execute | proofgraph/generation/execution.py:657-718 | a refused execution fails the run with the error of the executor said of this stage, exhausted on the last attempt, or as an invalid answer; otherwise the validated output is committed |
| StageWorker.RunStep | proofgraph/generation/execution.py:624-748 | one turn of the plan loop advances the worker by one step or ends it for an exact reason |
| StageWorker.PersistThenComplete | proofgraph/generation/execution.py:750-780 | finishes exactly when the last output is a patch against the run's base revision; otherwise the error says whether it is missing, for another revision or no patch |
| StageWorker.ProcessClaimedRun | proofgraph/generation/execution.py:598-780 | a worker's whole pass consists of moves of the checkpoint model and opens the stages in pipeline order; each ending says what became of the run, and a failure which stage or what about the last output caused it |
| SourceIngestion.SoundStays | proofgraph/generation/source_ingestion.py:98-394 | any interleaving of ingestions, direct operations and patches keeps canvas, requests and log sound |
| SourceIngestion.SingleEffect | proofgraph/generation/source_ingestion.py:98-394 | in every state reached from a blank canvas an operation key has at most one request and one logged operation, the latter exactly when the request is completed, and the source is still there |
| SourceIngestion.FinishedStaysFinished | proofgraph/generation/models.py:425-475 | a completed or failed request keeps its row for ever |
| SourceIngestion.ReclaimSupersedes | proofgraph/generation/source_ingestion.py:98-206 | a running request is taken over exactly when its lease has run out, and every earlier lease of it is superseded |
| IngestionOutcomes.RowFollows | proofgraph/generation/source_ingestion.py:98-394 | what a step makes of any ingestion request: created by the first reservation of a key, taken over by the same request when its lease has run out, finished or failed by its holder, unchanged otherwise; leases run 30 seconds |
| IngestionOutcomes.CanvasFollows | proofgraph/generation/source_ingestion.py:301-394 | a finished ingestion adds one fresh node of kind source with the title, excerpt and metadata of the document, logs it under its key and stales nothing; no other step of ingestion touches the canvas |
| IngestionOutcomes.ReservationAnswers | proofgraph/generation/source_ingestion.py:98-206 | a reservation hands out a lease exactly when it wrote the row, and then the one of that row |
| SourceIngestion.ReclaimedHolderIsFenced | proofgraph/generation/source_ingestion.py:209-234 | a superseded holder can finalize neither way at any later time |
| SourceIngestion.LateHolderStillFinishes | proofgraph/generation/source_ingestion.py:209-234 | finalizing does not look at the expiry |
| SourceIngestion.LateHolderReached | proofgraph/generation/source_ingestion.py:98-206 | a reservation and the clock lead to a holder whose lease has run out and who still holds |
| SourceIngestion.RunningKeyIsFree | proofgraph/generation/source_ingestion.py:314-344 | the operation key of an unfinished request was never logged, so its unique constraint cannot fail |
| SourceIngestion.RevisionCountsOperations | proofgraph/graph/operations.py:1072-1159 | the revision counts the logged operations of all three writers, numbered without gaps |
| SourceIngestion.DirectReplays | proofgraph/graph/operations.py:1033-1054 | a committed direct operation repeated at any later point returns its stored result and changes nothing |
| SourceIngestion.PatchReplays | proofgraph/generation/patch_application.py:1112-1123 | the same for an operation of a patch |
| SourceIngestion.IngestionReplays | proofgraph/generation/source_ingestion.py:98-206 | the same for a finished ingestion |
| SourceService.IngestionTable.Reserve | proofgraph/generation/source_ingestion.py:98-206 | a new lease, a reclaimed one, or the stored answer, as in the model |
| SourceService.IngestionTable.FinalizeSuccess | proofgraph/generation/source_ingestion.py:301-394 | source node, log entry, revision and completed request in one step, exactly for the holder |
| SourceService.IngestionTable.FinalizeFailure | proofgraph/generation/source_ingestion.py:237-263 | fails the request exactly for the holder and touches nothing else |
| ContextSelection.OpportunityFamilyOwner | proofgraph/generation/context.py:220-244 | an opportunity owns itself; a member is owned by the source of the owning edge at the first position that holds one, and by none exactly when no position does |
| ContextSelection.OwnerIsFirst | proofgraph/generation/context.py:220-244 | the recursive owner is the first owning edge of the order |
| ContextSelection.ProductionUnits | proofgraph/generation/context.py:495-534 | every target's unit, with its family, its stale members and the distance of its nearest target |
| ContextSelection.UnitsPartitionTargets | proofgraph/generation/context.py:495-534 | every target is in exactly one unit, among its stale members exactly when stale, and units share no member |
| ContextSelection.BranchConstraints | proofgraph/generation/context.py:568-583 | exactly the pinned, eligible branch constraints whose anchor reaches every generated node of the run |
| ContextSelection.GovernsIff | proofgraph/generation/context.py:568-583 | a run takes a branch constraint exactly when it is pinned, scoped to a branch, admitted to contexts, and every generated node depends on its anchor |
| ContextSelection.TiersAreDisjoint | proofgraph/generation/context.py:589-624 | the candidate tiers and the mandatory nodes are disjoint, and the first three tiers cover every eligible ancestor and descendant |
| ContextSelection.TierOf | proofgraph/generation/context.py:589-624 | which tier a node is in, from its kind, its directions and whether it is fresh, applied and not mandatory |
| ContextSelection.UnitIsFirstTie | proofgraph/generation/context.py:220-260 | the unit of a node is the source of the first edge that ties it to an opportunity by its kind, or the node itself |
| ContextSelection.RankedTiersAreWellPosed | proofgraph/generation/context.py:589-624 | any ranking of the tiers offers no node twice and no mandatory node |
| ContextPacking.GreedyFits | proofgraph/generation/context.py:639-654 | a tier never exceeds its cap |
| ContextPacking.GreedyPassesOverOnlyMisfits | proofgraph/generation/context.py:639-654 | a candidate is taken exactly when it fits what the better ranked ones left |
| ContextPacking.PlanStaysWithinCaps | proofgraph/generation/context.py:656-719 | before trimming the packed counts stay within the semantic budget and every tier cap |
| ContextPacking.PlanTakesFirstFits | proofgraph/generation/context.py:656-719 | per tier a candidate is taken exactly when it fits what is left of a fifth (provenance, evidence), a quarter of that (contradictions), a tenth (descendants) or a twentieth (related) of the budget and of the whole |
| ContextPacking.FrozenPartition | proofgraph/generation/context.py:721-819 | at every point of the trimming the mandatory nodes are in, and included, over budget and out of scope partition the canvas |
| ContextPacking.ContextBuilder.Pack | proofgraph/generation/context.py:639-654 | includes the first-fit choice in rank order and marks the rest over budget |
| ContextPacking.ContextBuilder.PackTiers | proofgraph/generation/context.py:656-719 | five tiers in turn give the plan and its packing order |
| ContextPacking.ContextBuilder.Trim | proofgraph/generation/context.py:800-808 | drops optional nodes in reverse packing order and stops at the largest prefix that fits, or none does |
| ContextPacking.ContextBuilder.Build | proofgraph/generation/context.py:585-819 | a built context contains all mandatory nodes, fits the hard limit with both reserves, its edges are exactly the canvas edges with both ends included, its tier lists hold the first-fit choices cut from the end, and its three sets partition the canvas; it is refused exactly when nothing fits |

## Left out

- CanvasStore.Store.AddNodeRow: text limits, whitespace, position bounds and per-kind allow lists of metadata fields
  are not modelled; an empty title, server-owned fields and the constraint fields stand for these single checks.
- CanvasStore.Store.SemanticNodeChanges: the same text limits and allow lists are not modelled.
- Rewriting of local references in titles, bodies and nested JSON objects: only strings and lists are rewritten.
- `_apply_entity_change` of a candidate: modelled on values inside one step; update in place is not captured there.
- A patch that deletes a source some ingestion refers to: refused as a conflict here, where the database would
  abort the transaction at commit.
- `DELETE_NODE` error details (the lists of required identities) and all other error payloads.
- RegenerationContract.ValidateRegeneration: a refusal says whether patch or selection is at fault, as the code's two
  error codes do; messages and details are not modelled.
- PatchService.GraphPatch.ApplyGraphPatch: an apply conflict carries neither the conflicts of its details nor their
  codes.
- PatchService.GraphPatch.RegenerateGraphPatch: input validation (canvas, selection, profile, context) is not
  modelled; two flags say its outcome.
- RunDatabase.Database.CreateGenerationRun: execution profiles, context building, quotas, demo-session checks and the
  two-active-runs limit are not modelled.
- DemoSessions.DemoSession.ResetDemoSession: the content of the seeded canvas is not modelled; nor are the retention
  walkers beside it.
- `canvas_event_stream` is one turn of its endless loop per call; heartbeats, timeouts and text framing of events.
- Stage events other than the five progress kinds as executor output: an executor that emits a terminal event
  kind as progress is not modelled.
- Progress callbacks during an execution, seen from StageWorker.ProcessClaimedRun: they are steps of other moves of
  the model (`Report` under the lease).
- WorkerProgress.ClaimableRunCanFinish: the clock stands still during that attempt; the heartbeats that keep a lease
  alive through a long one are steps of RunTraces.
- StageWorker.ProcessClaimedRun: the method runs undisturbed between its transactions, so what other actors do in
  between is not modelled there; CheckpointResume covers every interleaving of the same transactions.
- StageWorker.RunStep: undisturbed in the same way.
- StageWorker.Execute: undisturbed in the same way.
- A regeneration run whose plan cannot be made (no first target, or one without a plan): the worker crashes there
  and StageWorker.ProcessClaimedRun asks for a plan.
- Cancellation state and current stage of the browser's view: ClientView says what the events make of them; no agreement
  with the server's row is claimed.
- ClientReconcile.LateSnapshotIsRightIff: speaks of one late answer, not of several that overtake each other.
- ContextPacking.ContextBuilder.Build: the mandatory set is a parameter; of its parts only the regeneration units and
  the branch constraints are modelled (ContextSelection).
- Rank keys of context candidates (strength, authority, recency): a ranking is any sequence of the tier's members.
- The token counter: an arbitrary function of the assembled context; percentages are floors of integer divisions,
  not of floating-point products.
- Agreement of generation-time clone specifications with the apply-time clone check: they use different anchors
  and differ in general; the apply-time rule is modelled as it is.
- Order of edge rows and of neighbours in the traversals beyond one fixed order; the results do not depend on it.
- HTTP, caches, telemetry, retrieval, fixtures, clustering, evaluation and the user interface.

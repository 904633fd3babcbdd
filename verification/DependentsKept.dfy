/** Between the moment a node depends on another and the moment the other is gone, nobody loses it: whatever the three
    writers of a canvas do in between, it stays below or it is stale (proofgraph/graph/staleness.py:89-286,
    proofgraph/graph/operations.py:1014-1159, proofgraph/generation/patch_application.py:1095-1170). */
module DependentsKept {
  import opened Reachability
  import opened GraphTypes
  import opened DependencyOrder
  import opened CanvasModel
  import opened CanvasInvariant
  import opened CanvasStaleness
  import opened PatchCandidates
  import opened PatchInvariant
  import opened PatchPasses
  import opened PatchReview
  import opened RegenerationContract
  import opened SourceIngestion

  // ---- what happens to the edges ----

  /** No row of the edge table is lost or changed. */
  predicate EdgesGrow(before: map<Id, Edge>, after: map<Id, Edge>) {
    forall e :: e in before ==> e in after && after[e] == before[e]
  }

  /** At most the row e is lost or changed. */
  predicate OneEdgeMoves(before: map<Id, Edge>, after: map<Id, Edge>, e: Id) {
    e in before && forall d :: d in before && d != e ==> d in after && after[d] == before[d]
  }

  lemma GrowthKeepsBelow(before: map<Id, Edge>, after: map<Id, Edge>, node: Id, y: Id)
    requires EdgesGrow(before, after) && StrictlyReaches(Dependencies(before), node, y)
    ensures StrictlyReaches(Dependencies(after), node, y)
  {
    DependenciesGrow(before, after);
    var z :| Reaches(Dependencies(before), node, z) && (z, y) in Dependencies(before);
    ReachesMonotone(Dependencies(before), Dependencies(after), node, z);
  }

  /** Whatever happens to one edge, what was below the node is below it still or below the edge's former end. */
  lemma BelowOrUnderOldEnd(before: map<Id, Edge>, after: map<Id, Edge>, e: Id, node: Id, y: Id)
    requires OneEdgeMoves(before, after, e) && y != node && StrictlyReaches(Dependencies(before), node, y)
    ensures StrictlyReaches(Dependencies(after), node, y) || Reaches(Dependencies(after), PairOf(before[e]).1, y)
  {
    var (tail, head) := PairOf(before[e]);
    OtherPairsKept(before, after, e);
    StrictImpliesReaches(Dependencies(before), node, y);
    RemovedPairCovered(Dependencies(before), Dependencies(after), node, head, tail, y);
    StrictImpliesReaches(Dependencies(after), node, y);
  }

  // ---- one operation ----

  /** What one transaction does to the edges and, below the end of an edge it takes away, to the node y. */
  ghost predicate Careful(c: Canvas, d: Canvas, y: Id) {
    && (y in c.nodes && c.nodes[y].stale && y in d.nodes ==> d.nodes[y].stale)
    && (EdgesGrow(c.edges, d.edges)
        || exists e :: OneEdgeMoves(c.edges, d.edges, e)
             && (Reaches(Dependencies(d.edges), PairOf(c.edges[e]).1, y) && y in d.nodes ==> d.nodes[y].stale))
  }

  lemma CarefulKeepsBelow(c: Canvas, d: Canvas, node: Id, y: Id)
    requires Careful(c, d, y) && y != node && y in d.nodes && StillBelowOrStale(c, node, y)
    ensures StillBelowOrStale(d, node, y)
  {
    hide Dependencies, EdgesGrow, PairOf;
    if !c.nodes[y].stale {
      if EdgesGrow(c.edges, d.edges) {
        GrowthKeepsBelow(c.edges, d.edges, node, y);
      } else {
        var e :| OneEdgeMoves(c.edges, d.edges, e)
          && (Reaches(Dependencies(d.edges), PairOf(c.edges[e]).1, y) && y in d.nodes ==> d.nodes[y].stale);
        BelowOrUnderOldEnd(c.edges, d.edges, e, node, y);
      }
    }
  }

  /** What a direct operation's handler does to edges and staleness, before anything is staled. */
  lemma HandlerKeeps(c: Canvas, request: Request, newId: Id, y: Id)
    requires Handle(c, request, newId).Ok?
    ensures var d := Handle(c, request, newId).value.0;
            && (y in c.nodes && y in d.nodes ==> d.nodes[y].stale == c.nodes[y].stale)
            && (if EdgeRequest(request) then request.edge in c.edges && OneEdgeMoves(c.edges, d.edges, request.edge) && d.nodes == c.nodes
                else EdgesGrow(c.edges, d.edges))
  {
    hide RemainingSources, IndependenceKeys, ImpactedClaims, Owners, CheckMetadata, ConstraintRoot, HasReview;
  }

  /** Either no edge is taken away, or one is and y is staled if it is below that edge's former end. */
  ghost predicate Prepared(c: Canvas, handled: Canvas, affected: set<Id>, y: Id) {
    && (y in c.nodes && y in handled.nodes ==> handled.nodes[y].stale == c.nodes[y].stale)
    && (EdgesGrow(c.edges, handled.edges)
        || exists e :: OneEdgeMoves(c.edges, handled.edges, e)
             && (Reaches(Dependencies(handled.edges), PairOf(c.edges[e]).1, y) ==> y in affected && Eligible(handled.nodes, y)))
  }

  lemma CommitIsCareful(c: Canvas, handled: Canvas, key: Key, audit: Audit, change: Change, affected: set<Id>,
                        origin: Origin, y: Id)
    requires Prepared(c, handled, affected, y)
    ensures Careful(c, Commit(handled, key, audit, change, affected, origin), y)
  {
    hide Dependencies, Eligible, PairOf, Commit, EdgesGrow, OneEdgeMoves;
    CommitKeepsKeys(handled, key, audit, change, affected, origin);
    CommitKeepsEdges(handled, key, audit, change, affected, origin);
    if y in handled.nodes {
      CommitEffect(handled, key, audit, change, affected, origin, y);
    }
  }

  lemma CommitKeepsEdges(c: Canvas, key: Key, audit: Audit, change: Change, affected: set<Id>, origin: Origin)
    ensures Commit(c, key, audit, change, affected, origin).edges == c.edges
  {
  }

  lemma DirectIsPrepared(c: Canvas, request: Request, newId: Id, y: Id)
    requires Handle(c, request, newId).Ok? && Eligible(c.nodes, y)
    ensures var handled := Handle(c, request, newId).value.0;
            Prepared(c, handled, ResolveInvalidation(handled, request, CaptureInvalidation(c, request)), y)
  {
    hide Handle, Dependencies, Eligible, PairOf, Reaches, EdgesGrow, OneEdgeMoves;
    HandlerKeeps(c, request, newId, y);
    if EdgeRequest(request) {
      assert PairOf(c.edges[request.edge]).1 in CaptureInvalidation(c, request).roots;
    }
  }

  lemma DirectIsCareful(c: Canvas, id: Id, request: Request, newId: Id, y: Id)
    requires ApplyOperation(c, id, request, newId).Committed? && Eligible(c.nodes, y)
    ensures Careful(c, ApplyOperation(c, id, request, newId).canvas, y)
  {
    hide Handle, Eligible, Commit, Careful, Prepared, CaptureInvalidation, ResolveInvalidation;
    var handled, capture := Handle(c, request, newId).value, CaptureInvalidation(c, request);
    DirectIsPrepared(c, request, newId, y);
    CommitIsCareful(c, handled.0, DirectKey(id), Direct(request), handled.1,
                    ResolveInvalidation(handled.0, request, capture), OriginOf(capture), y);
  }

  // ---- one operation of a patch ----

  /** The patch names the edge it takes away by its identity. Invalidation does not know the patch's local names. */
  predicate NamesOldEdge(op: Candidate, ids: IdMap) {
    op.UpdateEdgeCandidate? || op.DeleteEdgeCandidate? ==> SpellsId(op.edge) && Resolve(op.edge, ids) == Fine(op.edge.id)
  }

  lemma CandidateHandlerKeeps(c: Canvas, patch: Id, op: Candidate, ids: IdMap, y: Id)
    requires HandleCandidate(c, patch, op, ids).Fine? && NamesOldEdge(op, ids)
    ensures var d := HandleCandidate(c, patch, op, ids).value.0;
            && (y in c.nodes && y in d.nodes ==> d.nodes[y].stale == c.nodes[y].stale)
            && (if op.UpdateEdgeCandidate? || op.DeleteEdgeCandidate?
                then OneEdgeMoves(c.edges, d.edges, op.edge.id) && d.nodes == c.nodes
                else EdgesGrow(c.edges, d.edges))
  {
    hide RewriteAll, CandidateRoot, AcceptedMetadata;
  }

  lemma CandidateIsPrepared(c: Canvas, patch: Id, op: Candidate, ids: IdMap, excluded: set<Id>, y: Id)
    requires HandleCandidate(c, patch, op, ids).Fine? && NamesOldEdge(op, ids) && y !in excluded && Eligible(c.nodes, y)
    ensures var handled := HandleCandidate(c, patch, op, ids).value.0;
            Prepared(c, handled, AffectedByCandidate(c, handled, op, excluded), y)
  {
    hide HandleCandidate, Dependencies, Eligible, PairOf, Reaches, EdgesGrow, OneEdgeMoves;
    CandidateHandlerKeeps(c, patch, op, ids, y);
    var handled := HandleCandidate(c, patch, op, ids).value.0;
    if op.UpdateEdgeCandidate? || op.DeleteEdgeCandidate? {
      OneMoved(c.edges, handled.edges, op.edge.id);
      assert PairOf(c.edges[op.edge.id]).1 in CaptureCandidate(c, op).roots;
    }
  }

  lemma OneMoved(before: map<Id, Edge>, after: map<Id, Edge>, e: Id)
    requires OneEdgeMoves(before, after, e)
    ensures e in before
  {
  }

  lemma CandidateIsCareful(c: Canvas, patch: Id, operation: Id, op: Candidate, ids: IdMap, excluded: set<Id>, y: Id)
    requires ApplyCandidate(c, patch, operation, op, ids, excluded).Fine?
    requires NamesOldEdge(op, ids) && y !in excluded && Eligible(c.nodes, y)
    ensures Careful(c, ApplyCandidate(c, patch, operation, op, ids, excluded).value.0, y)
  {
    if forall i: nat :: !KeyUsed(c.log, PatchKey(patch, operation), i) {
      hide HandleCandidate, Eligible, Commit, Careful, Prepared, CaptureCandidate, AffectedByCandidate, NamesOldEdge;
      FineIsHandled(c, patch, operation, op, ids, excluded);
      var handled := HandleCandidate(c, patch, op, ids).value;
      CandidateIsPrepared(c, patch, op, ids, excluded, y);
      CommitIsCareful(c, handled.0, PatchKey(patch, operation), FromPatch(patch, operation, op), handled.1,
                      AffectedByCandidate(c, handled.0, op, excluded), OriginOf(CaptureCandidate(c, op)), y);
    } else {
      RepeatedIsNoStep(c, patch, operation, op, ids, excluded);
      UnchangedIsCareful(c, y);
    }
  }

  lemma UnchangedIsCareful(c: Canvas, y: Id)
    ensures Careful(c, c, y)
  {
  }

  // ---- the three writers ----

  /** A patch neither takes the dependent out of invalidation, which it does for nodes that it deletes, nor touches
      an edge under a local name. */
  predicate LeavesToInvalidation(step: Step, y: Id) {
    step.ByPatch? ==> y !in step.excluded && NamesOldEdge(step.candidate, step.ids)
  }

  lemma StepIsCareful(sys: System, step: Step, y: Id)
    requires Eligible(sys.canvas.nodes, y) && LeavesToInvalidation(step, y)
    ensures Careful(sys.canvas, Next(sys, step).canvas, y)
  {
    hide Eligible, ApplyOperation, ApplyCandidate, Careful, NamesOldEdge;
    match step
    case Directly(id, request, newId) =>
      if ApplyOperation(sys.canvas, id, request, newId).Committed? {
        DirectIsCareful(sys.canvas, id, request, newId, y);
      } else {
        UnchangedIsCareful(sys.canvas, y);
      }
    case ByPatch(patch, operation, candidate, ids, excluded) =>
      if ApplyCandidate(sys.canvas, patch, operation, candidate, ids, excluded).Fine? {
        CandidateIsCareful(sys.canvas, patch, operation, candidate, ids, excluded, y);
      } else {
        UnchangedIsCareful(sys.canvas, y);
      }
    case Succeed(lease, document, nodeId) => IngestionIsCareful(sys, lease, document, nodeId, y);
    case _ =>
      assert Next(sys, step).canvas == sys.canvas;
      UnchangedIsCareful(sys.canvas, y);
  }

  lemma IngestionIsCareful(sys: System, lease: SourceLease, document: Document, nodeId: Id, y: Id)
    ensures Careful(sys.canvas, Next(sys, Succeed(lease, document, nodeId)).canvas, y)
  {
  }

  /** The node y stays on the canvas and open to invalidation after every one of these steps. */
  ghost predicate StaysEligible(sys: System, steps: seq<Step>, y: Id) {
    forall i :: 0 <= i <= |steps| ==> Eligible(After(sys, steps[..i]).canvas.nodes, y)
  }

  /** Whatever the three writers do, in any order and number: a dependent stays below the node until it is stale, and
      is stale from then on. */
  lemma {:induction false} BelowUntilStale(sys: System, steps: seq<Step>, node: Id, y: Id)
    requires StaysEligible(sys, steps, y) && (forall step :: step in steps ==> LeavesToInvalidation(step, y))
    requires y != node && StillBelowOrStale(sys.canvas, node, y)
    ensures StillBelowOrStale(After(sys, steps).canvas, node, y)
    decreases |steps|
  {
    if steps != [] {
      var earlier, step := steps[..|steps| - 1], steps[|steps| - 1];
      assert forall i :: 0 <= i <= |earlier| ==> earlier[..i] == steps[..i];
      assert steps[..|steps|] == steps && steps[..|earlier|] == earlier;
      hide Eligible, StillBelowOrStale, Next, LeavesToInvalidation;
      BelowUntilStale(sys, earlier, node, y);
      StepIsCareful(After(sys, earlier), step, y);
      hide Careful;
      EligibleIsThere(After(sys, steps).canvas, y);
      CarefulKeepsBelow(After(sys, earlier).canvas, After(sys, steps).canvas, node, y);
    }
  }

  lemma EligibleIsThere(c: Canvas, y: Id)
    requires Eligible(c.nodes, y)
    ensures y in c.nodes
  {
  }

  /** So when the node is gone, however it was taken apart and by whom, each of its former dependents is stale. */
  lemma NoDependentIsLost(sys: System, steps: seq<Step>, node: Id, y: Id)
    requires SystemSound(sys) && StaysEligible(sys, steps, y)
    requires forall step :: step in steps ==> LeavesToInvalidation(step, y)
    requires y != node && StrictlyReaches(Dependencies(sys.canvas.edges), node, y)
    ensures node !in After(sys, steps).canvas.nodes ==>
              y in After(sys, steps).canvas.nodes && After(sys, steps).canvas.nodes[y].stale
  {
    hide *;
    StandsAtFirst(sys, steps, node, y);
    BelowUntilStale(sys, steps, node, y);
    SoundStays(sys, steps);
    if node !in After(sys, steps).canvas.nodes {
      StaleWhenGone(After(sys, steps), node, y);
    }
  }

  lemma StandsAtFirst(sys: System, steps: seq<Step>, node: Id, y: Id)
    requires StaysEligible(sys, steps, y) && StrictlyReaches(Dependencies(sys.canvas.edges), node, y)
    ensures StillBelowOrStale(sys.canvas, node, y)
  {
    hide Dependencies;
    assert steps[..0] == [] && Eligible(After(sys, steps[..0]).canvas.nodes, y);
  }

  lemma StaleWhenGone(sys: System, node: Id, y: Id)
    requires SystemSound(sys) && node !in sys.canvas.nodes && StillBelowOrStale(sys.canvas, node, y)
    ensures y in sys.canvas.nodes && sys.canvas.nodes[y].stale
  {
    hide Dependencies, SystemSound;
    GoneHasNoEdges(sys, node);
    NoEdgesNoDependents(sys.canvas.edges, node, y);
  }

  lemma GoneHasNoEdges(sys: System, node: Id)
    requires SystemSound(sys) && node !in sys.canvas.nodes
    ensures forall e :: e in sys.canvas.edges ==> !Incident(sys.canvas.edges, e, node)
  {
    assert EdgesAttached(sys.canvas);
  }

  // ---- exactly when a patch may take an edge away ----

  /** The operation commits on this canvas, and afterwards y, open to invalidation, is neither stale nor below the node
      it was below. */
  ghost predicate Loses(c: Canvas, patch: Id, o: Id, op: Candidate, ids: IdMap, excluded: set<Id>, node: Id, y: Id) {
    && Valid(c) && Eligible(c.nodes, y) && y != node && StillBelowOrStale(c, node, y)
    && ApplyCandidate(c, patch, o, op, ids, excluded).Fine?
    && y in ApplyCandidate(c, patch, o, op, ids, excluded).value.0.nodes
    && !StillBelowOrStale(ApplyCandidate(c, patch, o, op, ids, excluded).value.0, node, y)
  }

  function Plain(): Node {
    Node(Strategy, "strategy", None, map[], None, None, false, None, 1, 1)
  }

  /** Two nodes and the one edge between them. */
  function OneEdge(edge: Id, version: nat, node: Id, y: Id): Canvas {
    Canvas(map[node := Plain(), y := Plain()], map[edge := Edge(node, y, Supports, map[], version)], map[], {}, 0, [])
  }

  lemma OneEdgeFacts(edge: Id, version: nat, node: Id, y: Id)
    requires y != node
    ensures var c := OneEdge(edge, version, node, y);
            && Valid(c) && Eligible(c.nodes, y) && StillBelowOrStale(c, node, y) && y in c.nodes && !c.nodes[y].stale
            && c.edges.Keys == {edge} && c.edges[edge].version == version && c.log == []
  {
    var c := OneEdge(edge, version, node, y);
    assert edge in c.edges && PairOf(c.edges[edge]) == (node, y);
    ReachesSelf(Dependencies(c.edges), node);
    assert c.nodes.Keys == {node, y};
  }

  /** On that canvas the edge goes, and invalidation misses y when it does not see the edge or spares y. */
  lemma CutIsHandled(c: Canvas, e: Id, patch: Id, op: Candidate, ids: IdMap, excluded: set<Id>, y: Id)
    requires op.DeleteEdgeCandidate? && Resolve(op.edge, ids) == Fine(e)
    requires c.edges.Keys == {e} && c.edges[e].version == op.expected && (y in excluded || !NamesOldEdge(op, ids))
    ensures HandleCandidate(c, patch, op, ids) == Fine((c.(edges := c.edges - {e}), EdgeDeleted(e)))
    ensures y !in AffectedByCandidate(c, c.(edges := c.edges - {e}), op, excluded)
  {
    hide Dependencies, PairOf;
  }

  lemma CutCommits(c: Canvas, e: Id, patch: Id, o: Id, op: Candidate, ids: IdMap, excluded: set<Id>, node: Id, y: Id)
    requires forall i: nat :: !KeyUsed(c.log, PatchKey(patch, o), i)
    requires HandleCandidate(c, patch, op, ids) == Fine((c.(edges := c.edges - {e}), EdgeDeleted(e)))
    requires c.edges.Keys == {e} && y in c.nodes && !c.nodes[y].stale
    requires y !in AffectedByCandidate(c, c.(edges := c.edges - {e}), op, excluded)
    ensures var r := ApplyCandidate(c, patch, o, op, ids, excluded);
            r.Fine? && y in r.value.0.nodes && !StillBelowOrStale(r.value.0, node, y)
  {
    hide HandleCandidate, AffectedByCandidate, CaptureCandidate, Commit, StrictlyReaches, Eligible;
    var key, audit, origin := PatchKey(patch, o), FromPatch(patch, o, op), OriginOf(CaptureCandidate(c, op));
    var handled, change := c.(edges := c.edges - {e}), EdgeDeleted(e);
    var affected := AffectedByCandidate(c, handled, op, excluded);
    CommitKeepsKeys(handled, key, audit, change, affected, origin);
    CommitEffect(handled, key, audit, change, affected, origin, y);
    CommitKeepsEdges(handled, key, audit, change, affected, origin);
    assert handled.edges.Keys == {};
    NoEdgesNoDependents(handled.edges, node, y);
  }

  lemma CutLoses(patch: Id, o: Id, op: Candidate, ids: IdMap, excluded: set<Id>, node: Id, y: Id)
    requires op.DeleteEdgeCandidate? && Resolve(op.edge, ids).Fine? && y != node
    requires y in excluded || !NamesOldEdge(op, ids)
    ensures Loses(OneEdge(Resolve(op.edge, ids).value, op.expected, node, y), patch, o, op, ids, excluded, node, y)
  {
    var e := Resolve(op.edge, ids).value;
    var c := OneEdge(e, op.expected, node, y);
    hide OneEdge, NamesOldEdge, HandleCandidate, AffectedByCandidate, ApplyCandidate, Valid, Eligible, StillBelowOrStale;
    OneEdgeFacts(e, op.expected, node, y);
    CutIsHandled(c, e, patch, op, ids, excluded, y);
    assert forall i: nat :: !KeyUsed(c.log, PatchKey(patch, o), i);
    CutCommits(c, e, patch, o, op, ids, excluded, node, y);
  }

  /** A patch that deletes an edge loses y on no canvas exactly when it names the edge by its identity and does not mean
      to delete y itself: nodes it means to delete are spared, whether or not their deletion goes through. */
  lemma CutLosesNothingIff(op: Candidate, ids: IdMap, excluded: set<Id>, y: Id)
    requires op.DeleteEdgeCandidate? && Resolve(op.edge, ids).Fine?
    ensures (forall c, patch, o, node :: !Loses(c, patch, o, op, ids, excluded, node, y))
            <==> y !in excluded && NamesOldEdge(op, ids)
  {
    hide NamesOldEdge, Loses;
    if y !in excluded && NamesOldEdge(op, ids) {
      forall c, patch, o, node ensures !Loses(c, patch, o, op, ids, excluded, node, y) {
        KeptByCare(c, patch, o, op, ids, excluded, node, y);
      }
    } else {
      var node := Uuid(y.value + 1);
      CutLoses(Uuid(0), Uuid(0), op, ids, excluded, node, y);
    }
  }

  lemma KeptByCare(c: Canvas, patch: Id, o: Id, op: Candidate, ids: IdMap, excluded: set<Id>, node: Id, y: Id)
    requires y !in excluded && NamesOldEdge(op, ids)
    ensures !Loses(c, patch, o, op, ids, excluded, node, y)
  {
    hide Valid, Eligible, ApplyCandidate, StillBelowOrStale, NamesOldEdge, Careful;
    if Loses(c, patch, o, op, ids, excluded, node, y) {
      CandidateIsCareful(c, patch, o, op, ids, excluded, y);
      CarefulKeepsBelow(c, ApplyCandidate(c, patch, o, op, ids, excluded).value.0, node, y);
    }
  }

  // ---- a review ----

  /** The edges a patch derives identities for are not on the canvas it is reviewed against. */
  predicate DerivedEdgesAreNew(c: Canvas, ids: IdMap) {
    forall t :: t in ids ==> ids[t] !in c.edges
  }

  lemma PreflightedNamesOldEdge(before: Canvas, selected: set<Candidate>, op: Candidate, ids: IdMap)
    requires Preflight(before, op, ids, selected) == None && DerivedEdgesAreNew(before, ids)
    ensures NamesOldEdge(op, ids)
  {
  }

  /** The node y stays on the canvas and open to invalidation through the first n turns of the pass. */
  ghost predicate EligibleThrough(job: Job, c: Canvas, blocked: set<Id>, n: nat, y: Id)
    requires JobSound(job) && n <= |job.ordered|
  {
    forall i :: 0 <= i <= n ==> Pass(job, c, blocked, i).Walking? && Eligible(Pass(job, c, blocked, i).canvas.nodes, y)
  }

  lemma TurnKeepsBelow(job: Job, w: Walked, o: Id, node: Id, y: Id)
    requires o in job.ops && o in job.depends && w.Walking? && Turn(job, w, o).Walking?
    requires o !in w.skipped ==> NamesOldEdge(job.ops[o], job.ids)
    requires y !in job.excluded && y != node && Eligible(w.canvas.nodes, y) && y in Turn(job, w, o).canvas.nodes
    requires StillBelowOrStale(w.canvas, node, y)
    ensures StillBelowOrStale(Turn(job, w, o).canvas, node, y)
  {
    hide ApplyCandidate, Eligible, StillBelowOrStale, NamesOldEdge, Careful;
    if o !in w.skipped && job.depends[o] * w.skipped == {}
       && ApplyCandidate(w.canvas, job.patch, o, job.ops[o], job.ids, job.excluded).Fine? {
      CandidateIsCareful(w.canvas, job.patch, o, job.ops[o], job.ids, job.excluded, y);
      CarefulKeepsBelow(w.canvas, Turn(job, w, o).canvas, node, y);
    }
  }

  lemma NextTurnKeepsBelow(c: Canvas, request: ApplyRequest, workset: Option<Workset>, r: Review, n: nat, node: Id, y: Id)
    requires ReviewSound(c, request, workset, r) && DerivedEdgesAreNew(c, r.job.ids) && n < |r.job.ordered|
    requires EligibleThrough(r.job, c, Blocked(r.job.depends, r.job.ordered, r.groups, r.bad), n + 1, y)
    requires y !in r.job.excluded && y != node
    requires StillBelowOrStale(Pass(r.job, c, Blocked(r.job.depends, r.job.ordered, r.groups, r.bad), n).canvas, node, y)
    ensures StillBelowOrStale(Pass(r.job, c, Blocked(r.job.depends, r.job.ordered, r.groups, r.bad), n + 1).canvas, node, y)
  {
    var blocked := Blocked(r.job.depends, r.job.ordered, r.groups, r.bad);
    var w, v, o := Pass(r.job, c, blocked, n), Pass(r.job, c, blocked, n + 1), r.job.ordered[n];
    StillEligible(r.job, c, blocked, n + 1, y);
    hide *;
    PassTurns(r.job, c, blocked, n);
    UnskippedPassed(c, request, workset, r, n);
    EligibleIsThere(v.canvas, y);
    if o !in w.skipped {
      PreflightedNamesOldEdge(c, SelectedCandidates(r.job.ops, r.selected), r.job.ops[o], r.job.ids);
    }
    TurnKeepsBelow(r.job, w, o, node, y);
  }

  lemma StillEligible(job: Job, c: Canvas, blocked: set<Id>, n: nat, y: Id)
    requires JobSound(job) && 0 < n <= |job.ordered| && EligibleThrough(job, c, blocked, n, y)
    ensures EligibleThrough(job, c, blocked, n - 1, y)
    ensures var w, v := Pass(job, c, blocked, n - 1), Pass(job, c, blocked, n);
            w.Walking? && v.Walking? && Eligible(w.canvas.nodes, y) && Eligible(v.canvas.nodes, y)
  {
    hide Pass, JobSound, Eligible;
  }

  /** A review whose derived identities are new loses no dependent that it does not mean to delete. */
  lemma {:induction false} ReviewKeepsDependents(c: Canvas, request: ApplyRequest, workset: Option<Workset>, r: Review,
                                                 n: nat, node: Id, y: Id)
    requires ReviewSound(c, request, workset, r) && DerivedEdgesAreNew(c, r.job.ids) && n <= |r.job.ordered|
    requires EligibleThrough(r.job, c, Blocked(r.job.depends, r.job.ordered, r.groups, r.bad), n, y)
    requires y !in r.job.excluded && y != node && StillBelowOrStale(c, node, y)
    ensures StillBelowOrStale(Pass(r.job, c, Blocked(r.job.depends, r.job.ordered, r.groups, r.bad), n).canvas, node, y)
    decreases n
  {
    var blocked := Blocked(r.job.depends, r.job.ordered, r.groups, r.bad);
    assert JobSound(r.job);
    hide *;
    if n == 0 {
      PassStarts(r.job, c, blocked);
    } else {
      StillEligible(r.job, c, blocked, n, y);
      ReviewKeepsDependents(c, request, workset, r, n - 1, node, y);
      NextTurnKeepsBelow(c, request, workset, r, n - 1, node, y);
    }
  }

  // ---- one that it means to delete ----

  const KEPT := Uuid(51)
  const CUT_OFF := Uuid(52)
  const LINE := Uuid(53)
  const PATCH := Uuid(54)

  function Rename(): Request {
    UpdateNode(CUT_OFF, 1, Some("renamed"), None, None, MissingRoot)
  }

  function EditedNode(): Node {
    Plain().(title := "renamed", version := 2)
  }

  /** Somebody has renamed the lower node since the patch was made. */
  function Edited(): Canvas {
    Canvas(map[KEPT := Plain(), CUT_OFF := EditedNode()], map[LINE := Edge(KEPT, CUT_OFF, Supports, map[], 1)], map[], {}, 1,
           [Entry(DirectKey(Uuid(55)), Direct(Rename()), Payload(1, NodeSaved(CUT_OFF), {}, {}))])
  }

  lemma RenameIsHandled()
    ensures var c, d := OneEdge(LINE, 1, KEPT, CUT_OFF), Edited().(revision := 0, log := []);
            && Handle(c, Rename(), Uuid(0)) == Ok((d, NodeSaved(CUT_OFF))) && c.edges == d.edges && c.log == []
  {
    assert Plain().metadata + map[] == Plain().metadata;
    assert OneEdge(LINE, 1, KEPT, CUT_OFF).nodes[CUT_OFF := EditedNode()] == Edited().nodes;
  }

  lemma NothingBelow()
    ensures Dependents(Dependencies(map[LINE := Edge(KEPT, CUT_OFF, Supports, map[], 1)]), {CUT_OFF}, false, {CUT_OFF}) == {}
  {
    var edges := map[LINE := Edge(KEPT, CUT_OFF, Supports, map[], 1)];
    assert forall p :: p in Dependencies(edges) ==> p == (KEPT, CUT_OFF);
    forall y | Reaches(Dependencies(edges), CUT_OFF, y) ensures y == CUT_OFF {
      ClosedReaches(Dependencies(edges), CUT_OFF, y, iset{CUT_OFF});
    }
  }

  lemma QuietCommit(c: Canvas, key: Key, audit: Audit, change: Change, origin: Origin)
    requires !change.EvidenceRejected?
    ensures Commit(c, key, audit, change, {}, origin)
            == c.(revision := c.revision + 1, log := c.log + [Entry(key, audit, Payload(c.revision + 1, change, {}, {}))])
  {
    assert StaleTargets(c.nodes, {}) == {} && NewlyStale(c.nodes, {}) == {};
    var d := MarkStale(c, {}, c.revision + 1, origin);
    assert d.nodes == c.nodes && d.causes == c.causes;
  }

  lemma EditedIsReached()
    ensures var outcome := ApplyOperation(OneEdge(LINE, 1, KEPT, CUT_OFF), Uuid(55), Rename(), Uuid(0));
            outcome.Committed? && outcome.canvas == Edited()
  {
    RenameIsHandled();
    NothingBelow();
    var c, d := OneEdge(LINE, 1, KEPT, CUT_OFF), Edited().(revision := 0, log := []);
    assert ResolveInvalidation(d, Rename(), CaptureInvalidation(c, Rename())) == {};
    QuietCommit(d, DirectKey(Uuid(55)), Direct(Rename()), NodeSaved(CUT_OFF), FromNode(CUT_OFF));
    assert [] + Edited().log == Edited().log;
    hide Handle, Commit, Dependents, Dependencies;
    assert forall i: nat :: !KeyUsed(c.log, DirectKey(Uuid(55)), i);
  }

  function CutIt(): Candidate {
    DeleteEdgeCandidate(IdText(LINE), 1)
  }

  function DropIt(): Candidate {
    DeleteNodeCandidate(IdText(CUT_OFF), 1)
  }

  /** The patch deletes the edge and then the lower node, as it was when the patch was made. */
  function Removal(): Job {
    Job(PATCH, map[Uuid(1) := CutIt(), Uuid(2) := DropIt()], map[Uuid(1) := {}, Uuid(2) := {Uuid(1)}],
        [Uuid(1), Uuid(2)], map[], {CUT_OFF}, false)
  }

  lemma RemovalSound()
    ensures JobSound(Removal()) && IsPermutationOf(Removal().ordered, {Uuid(1), Uuid(2)})
    ensures Removal().depends.Keys == {Uuid(1), Uuid(2)} == Removal().ops.Keys
  {
    var ordered := Removal().ordered;
    assert ordered[0] == Uuid(1) && ordered[1] == Uuid(2) && ordered[..1] == [Uuid(1)];
    assert forall o :: o in ordered <==> o in {Uuid(1), Uuid(2)};
  }

  lemma RemovalConflicts()
    ensures PreflightConflicts(Edited(), Removal().ops, {Uuid(1), Uuid(2)}, map[]) == {Uuid(2)}
  {
    var ops := Removal().ops;
    assert ops[Uuid(1)] == CutIt() && ops[Uuid(2)] == DropIt();
    assert LINE in Edited().edges && Edited().edges[LINE].version == 1 && Edited().nodes[CUT_OFF].version == 2;
  }

  lemma RemovalBlocked()
    ensures Blocked(Removal().depends, Removal().ordered, [], {Uuid(2)}) == {Uuid(2)}
  {
    var depends, ordered := Removal().depends, Removal().ordered;
    assert ordered[0] == Uuid(1) && ordered[1] == Uuid(2);
    assert depends[Uuid(1)] == {} && depends[Uuid(2)] == {Uuid(1)};
    hide DependsOnSome;
    DependsUnfold(depends, Uuid(1), {Uuid(2)});
    DependsUnfold(depends, Uuid(2), {Uuid(2)});
  }

  lemma CutApplies()
    ensures var d := ApplyCandidate(Edited(), PATCH, Uuid(1), CutIt(), map[], {CUT_OFF});
            d.Fine? && CUT_OFF in d.value.0.nodes && !StillBelowOrStale(d.value.0, KEPT, CUT_OFF)
  {
    var c := Edited();
    assert Resolve(CutIt().edge, map[]) == Fine(LINE) && c.edges.Keys == {LINE} && c.edges[LINE].version == 1;
    assert !c.nodes[CUT_OFF].stale && forall i: nat :: !KeyUsed(c.log, PatchKey(PATCH, Uuid(1)), i);
    hide Edited, HandleCandidate, AffectedByCandidate, ApplyCandidate, StillBelowOrStale;
    CutIsHandled(c, LINE, PATCH, CutIt(), map[], {CUT_OFF}, CUT_OFF);
    CutCommits(c, LINE, PATCH, Uuid(1), CutIt(), map[], {CUT_OFF}, KEPT, CUT_OFF);
  }

  lemma CutsThenSkips(job: Job, w: Walked)
    requires w == Walking(Edited(), map[], {Uuid(2)}) && Uuid(1) in job.ops && Uuid(2) in job.ops && job.ops[Uuid(1)] == CutIt()
    requires Uuid(1) in job.depends && Uuid(2) in job.depends && job.depends[Uuid(1)] == {}
    requires job.patch == PATCH && job.ids == map[] && job.excluded == {CUT_OFF}
    ensures var v := Turn(job, Turn(job, w, Uuid(1)), Uuid(2));
            v.Walking? && CUT_OFF in v.canvas.nodes && !StillBelowOrStale(v.canvas, KEPT, CUT_OFF)
  {
    CutApplies();
    hide Edited, CutIt, ApplyCandidate, StillBelowOrStale;
  }

  lemma RemovalPass()
    ensures JobSound(Removal())
    ensures var w := Pass(Removal(), Edited(), {Uuid(2)}, 2);
            w.Walking? && CUT_OFF in w.canvas.nodes && !StillBelowOrStale(w.canvas, KEPT, CUT_OFF)
  {
    var job, c := Removal(), Edited();
    RemovalSound();
    assert job.ordered[0] == Uuid(1) && job.ordered[1] == Uuid(2) && job.ops[Uuid(1)] == CutIt();
    assert job.depends[Uuid(1)] == {} && Uuid(2) in job.ops && Uuid(2) in job.depends && |job.ordered| == 2;
    assert job.patch == PATCH && job.ids == map[] && job.excluded == {CUT_OFF};
    hide *;
    PassStarts(job, c, {Uuid(2)});
    PassTurns(job, c, {Uuid(2)}, 0);
    PassTurns(job, c, {Uuid(2)}, 1);
    CutsThenSkips(job, Pass(job, c, {Uuid(2)}, 0));
  }

  function Anyway(): ApplyRequest {
    ApplyRequest(None, true)
  }

  /** A sound review of that patch loses the lower node: it cuts the edge, skips the deletion of the renamed node, and
      leaves the node neither stale nor below what it depended on. */
  lemma ReviewLosesSparedNode() returns (r: Review)
    ensures ReviewSound(Edited(), Anyway(), None, r) && r.job == Removal() && CUT_OFF in r.job.excluded
    ensures Eligible(Edited().nodes, CUT_OFF) && StillBelowOrStale(Edited(), KEPT, CUT_OFF)
    ensures CUT_OFF in r.after.canvas.nodes && !StillBelowOrStale(r.after.canvas, KEPT, CUT_OFF)
  {
    RemovalSound();
    RemovalConflicts();
    RemovalBlocked();
    RemovalPass();
    EditedStanding();
    hide Pass, Edited, Blocked, PreflightConflicts, JobSound, StillBelowOrStale, Eligible;
    r := Review(Removal(), {Uuid(1), Uuid(2)}, {Uuid(2)}, [], Pass(Removal(), Edited(), {Uuid(2)}, 2));
  }

  lemma EditedStanding()
    ensures Eligible(Edited().nodes, CUT_OFF) && StillBelowOrStale(Edited(), KEPT, CUT_OFF)
  {
    var c := Edited();
    assert LINE in c.edges && PairOf(c.edges[LINE]) == (KEPT, CUT_OFF);
    ReachesSelf(Dependencies(c.edges), KEPT);
  }
}

/** What one operation does to staleness and versions, and why deleting a node piece by piece
    loses no dependent. */
module CanvasStaleness {
  import opened Reachability
  import opened GraphTypes
  import opened CanvasModel

  // ------------------------------------------------------------------ one commit

  /** Staleness only grows, by exactly the affected eligible nodes, and each newly stale node
      gains one version. */
  lemma CommitEffect(c: Canvas, key: Key, audit: Audit, change: Change, affected: set<Id>, origin: Origin, n: Id)
    requires n in c.nodes
    ensures var d := Commit(c, key, audit, change, affected, origin);
            && d.edges == c.edges && d.nodes.Keys == c.nodes.Keys
            && d.nodes[n].kind == c.nodes[n].kind
            && (d.nodes[n].stale <==> c.nodes[n].stale || (n in affected && Eligible(c.nodes, n)))
            && d.nodes[n].version == c.nodes[n].version + (if d.nodes[n].stale && !c.nodes[n].stale then 1 else 0)
            && d.nodes[n].positionVersion == c.nodes[n].positionVersion
  {
  }

  // ------------------------------------------------------------------ versions

  /** A node whose version the handler raised is outside the traversal that follows. */
  lemma BumpedNodesExcluded(c: Canvas, request: Request, newId: Id, n: Id)
    requires Handle(c, request, newId).Ok? && n in c.nodes && n in Handle(c, request, newId).value.0.nodes
    ensures var d := Handle(c, request, newId).value.0;
            && d.nodes[n].stale == c.nodes[n].stale
            && c.nodes[n].version <= d.nodes[n].version <= c.nodes[n].version + 1
            && (d.nodes[n].version != c.nodes[n].version ==>
                  n !in ResolveInvalidation(d, request, CaptureInvalidation(c, request)))
  {
    hide Dependencies, ConstraintRoot, CheckMetadata, Get, RejectEvidenceIn;
    match request {
      case RejectEvidence(e, _) => RejectionExcludes(c, request, n);
      case _ =>
    }
  }

  lemma RejectionExcludes(c: Canvas, request: Request, n: Id)
    requires request.RejectEvidence? && RejectEvidenceIn(c, request.node, request.expected).Ok? && n in c.nodes
    ensures var d := RejectEvidenceIn(c, request.node, request.expected).value.0;
            && d.nodes.Keys == c.nodes.Keys && d.nodes[n].stale == c.nodes[n].stale
            && c.nodes[n].version <= d.nodes[n].version <= c.nodes[n].version + 1
            && (d.nodes[n].version != c.nodes[n].version ==>
                  n !in ResolveInvalidation(d, request, CaptureInvalidation(c, request)))
  {
    hide Dependencies, RemainingSources, IndependenceKeys, HasReview;
    var capture := CaptureInvalidation(c, request);
    assert n == request.node || n in ImpactedClaims(c, request.node) ==> n in capture.excluded;
  }

  /** No operation raises the semantic version of a surviving node by more than one, whatever it
      edits and invalidates at once. */
  lemma VersionStepsByAtMostOne(c: Canvas, id: Id, request: Request, newId: Id, n: Id)
    requires ApplyOperation(c, id, request, newId).Committed?
    requires n in c.nodes && n in ApplyOperation(c, id, request, newId).canvas.nodes
    ensures var d := ApplyOperation(c, id, request, newId).canvas;
            c.nodes[n].version <= d.nodes[n].version <= c.nodes[n].version + 1
  {
    hide CaptureInvalidation, ResolveInvalidation, Handle, Eligible, Commit;
    var handled, capture := Handle(c, request, newId).value, CaptureInvalidation(c, request);
    var affected := ResolveInvalidation(handled.0, request, capture);
    CommitKeepsKeys(handled.0, DirectKey(id), Direct(request), handled.1, affected, OriginOf(capture));
    BumpedNodesExcluded(c, request, newId, n);
    CommitEffect(handled.0, DirectKey(id), Direct(request), handled.1, affected, OriginOf(capture), n);
  }

  lemma CommitKeepsKeys(c: Canvas, key: Key, audit: Audit, change: Change, affected: set<Id>, origin: Origin)
    ensures Commit(c, key, audit, change, affected, origin).nodes.Keys == c.nodes.Keys
  {
  }

  // ------------------------------------------------------------------ invalidation covers both graphs

  /** The edge table after one edge was removed or replaced: other pairs are unchanged. */
  lemma OtherPairsKept(before: map<Id, Edge>, after: map<Id, Edge>, e: Id)
    requires e in before && forall d :: d in before && d != e ==> d in after && after[d] == before[d]
    ensures forall p :: p in Dependencies(before) ==> p in Dependencies(after) || p == PairOf(before[e])
  {
    forall p | p in Dependencies(before) ensures p in Dependencies(after) || p == PairOf(before[e]) {
      var d :| d in before && PairOf(before[d]) == p;
      if d != e {
        assert PairOf(after[d]) in Dependencies(after);
      }
    }
  }

  /** Reachability is computed after the change, yet it covers everything that was below the old
      descendant end before it: a removed pair is only needed to come back to its own head. */
  lemma OldBelowStillBelow(before: map<Id, Edge>, after: map<Id, Edge>, e: Id, y: Id)
    requires e in before && forall d :: d in before && d != e ==> d in after && after[d] == before[d]
    requires Reaches(Dependencies(before), PairOf(before[e]).1, y)
    ensures Reaches(Dependencies(after), PairOf(before[e]).1, y)
  {
    OtherPairsKept(before, after, e);
    var (tail, head) := PairOf(before[e]);
    RemovedPairCovered(Dependencies(before), Dependencies(after), head, head, tail, y);
  }

  ghost predicate EdgeRequest(request: Request) {
    request.UpdateEdge? || request.DeleteEdge?
  }

  /** UPDATE_EDGE and DELETE_EDGE: every eligible node below the old descendant end in the old
      graph, or below the new one in the new graph, is stale afterwards. */
  lemma EdgeChangeStales(c: Canvas, id: Id, request: Request, newId: Id, y: Id)
    requires EdgeRequest(request) && ApplyOperation(c, id, request, newId).Committed?
    requires y in c.nodes && Eligible(c.nodes, y)
    requires Reaches(Dependencies(c.edges), PairOf(c.edges[request.edge]).1, y)
          || (request.UpdateEdge? && var d := ApplyOperation(c, id, request, newId).canvas;
                request.edge in d.edges && Reaches(Dependencies(d.edges), PairOf(d.edges[request.edge]).1, y))
    ensures y in ApplyOperation(c, id, request, newId).canvas.nodes
    ensures ApplyOperation(c, id, request, newId).canvas.nodes[y].stale
  {
    hide Dependencies, Eligible, PairOf;
    var handled, capture := Handle(c, request, newId).value, CaptureInvalidation(c, request);
    var after := handled.0;
    var affected := ResolveInvalidation(after, request, capture);
    CommitKeepsKeys(after, DirectKey(id), Direct(request), handled.1, affected, OriginOf(capture));
    CommitEffect(after, DirectKey(id), Direct(request), handled.1, affected, OriginOf(capture), y);
    if Reaches(Dependencies(c.edges), PairOf(c.edges[request.edge]).1, y) {
      OldBelowStillBelow(c.edges, after.edges, request.edge, y);
    }
    assert y in affected;
  }

  // ------------------------------------------------------------------ forced teardown

  datatype Deletion = Deletion(key: Id, edge: Id, version: nat)

  /** The edges are deleted one after the other, each as its own operation, all of them committed. */
  ghost predicate TornDown(c: Canvas, deletions: seq<Deletion>, end: Canvas)
    decreases |deletions|
  {
    if deletions == [] then end == c
    else
      var first := deletions[0];
      var outcome := ApplyOperation(c, first.key, DeleteEdge(first.edge, first.version), first.edge);
      outcome.Committed? && TornDown(outcome.canvas, deletions[1..], end)
  }

  ghost predicate StillBelowOrStale(c: Canvas, node: Id, y: Id) {
    y in c.nodes && (c.nodes[y].stale || StrictlyReaches(Dependencies(c.edges), node, y))
  }

  /** Deleting one edge of the node leaves each dependent either below it still, or stale. */
  lemma DeletionKeepsBelow(c: Canvas, deletion: Deletion, node: Id, y: Id)
    requires var o := ApplyOperation(c, deletion.key, DeleteEdge(deletion.edge, deletion.version), deletion.edge);
             o.Committed?
    requires deletion.edge in c.edges ==> Incident(c.edges, deletion.edge, node)
    requires y != node && Eligible(c.nodes, y)
    requires StillBelowOrStale(c, node, y)
    ensures var d := ApplyOperation(c, deletion.key, DeleteEdge(deletion.edge, deletion.version), deletion.edge).canvas;
            && StillBelowOrStale(d, node, y) && Eligible(d.nodes, y)
            && d.edges == c.edges - {deletion.edge}
  {
    hide Dependencies, StrictlyReaches, PairOf, HasReview;
    var request := DeleteEdge(deletion.edge, deletion.version);
    var handled, capture := Handle(c, request, deletion.edge).value, CaptureInvalidation(c, request);
    var affected := ResolveInvalidation(handled.0, request, capture);
    CommitEffect(handled.0, DirectKey(deletion.key), Direct(request), handled.1, affected, OriginOf(capture), y);
    if !c.nodes[y].stale {
      BelowAfterDeletion(c.edges, deletion.edge, node, y);
    }
  }

  lemma BelowAfterDeletion(edges: map<Id, Edge>, e: Id, node: Id, y: Id)
    requires Incident(edges, e, node) && y != node && StrictlyReaches(Dependencies(edges), node, y)
    ensures StrictlyReaches(Dependencies(edges - {e}), node, y)
         || y in Dependents(Dependencies(edges - {e}), {PairOf(edges[e]).1}, true, {})
  {
    var (tail, head) := PairOf(edges[e]);
    var small := Dependencies(edges - {e});
    OtherPairsKept(edges, edges - {e}, e);
    StrictImpliesReaches(Dependencies(edges), node, y);
    RemovedPairCovered(Dependencies(edges), small, node, head, tail, y);
    StrictImpliesReaches(small, node, y);
    assert head in {head};
  }

  lemma {:induction false} TeardownKeepsBelow(c: Canvas, deletions: seq<Deletion>, end: Canvas, node: Id, y: Id)
    requires TornDown(c, deletions, end) && y != node && Eligible(c.nodes, y) && StillBelowOrStale(c, node, y)
    requires forall i :: 0 <= i < |deletions| && deletions[i].edge in c.edges ==> Incident(c.edges, deletions[i].edge, node)
    ensures StillBelowOrStale(end, node, y)
    ensures end.edges == c.edges - set i | 0 <= i < |deletions| :: deletions[i].edge
    decreases |deletions|
  {
    hide ApplyOperation, StillBelowOrStale, Eligible;
    if deletions != [] {
      var first, rest := deletions[0], deletions[1..];
      DeletionKeepsBelow(c, first, node, y);
      var next := ApplyOperation(c, first.key, DeleteEdge(first.edge, first.version), first.edge).canvas;
      TeardownKeepsBelow(next, rest, end, node, y);
      assert (set i | 0 <= i < |deletions| :: deletions[i].edge)
          == {first.edge} + set i | 0 <= i < |rest| :: rest[i].edge;
    }
  }

  /** A node without incident edges has no strict dependents left. */
  lemma NoEdgesNoDependents(edges: map<Id, Edge>, node: Id, y: Id)
    requires forall e :: e in edges ==> !Incident(edges, e, node)
    ensures !StrictlyReaches(Dependencies(edges), node, y)
  {
    if StrictlyReaches(Dependencies(edges), node, y) {
      OutwardStepIsIncident(edges, node, y);
    }
  }

  lemma OutwardStepIsIncident(edges: map<Id, Edge>, node: Id, y: Id)
    requires StrictlyReaches(Dependencies(edges), node, y)
    ensures exists e :: e in edges && Incident(edges, e, node)
  {
    var rel := Dependencies(edges);
    if v :| (node, v) in rel {
      var e :| e in edges && PairOf(edges[e]) == (node, v);
      assert Incident(edges, e, node);
    } else {
      var z :| Reaches(rel, node, z) && (z, y) in rel;
      ClosedReaches(rel, node, z, iset{node});
    }
  }

  /** Deleting the incident edges of a node in any order, and then the node, leaves every eligible
      former strict dependent stale - although no traversal ever starts at the node itself. */
  lemma TeardownLosesNoDependent(c: Canvas, deletions: seq<Deletion>, mid: Canvas, key: Id, node: Id, version: nat, y: Id)
    requires TornDown(c, deletions, mid) && ApplyOperation(mid, key, DeleteNode(node, version), node).Committed?
    requires forall i :: 0 <= i < |deletions| && deletions[i].edge in c.edges ==> Incident(c.edges, deletions[i].edge, node)
    requires y != node && Eligible(c.nodes, y) && StrictlyReaches(Dependencies(c.edges), node, y)
    ensures var end := ApplyOperation(mid, key, DeleteNode(node, version), node).canvas;
            y in end.nodes && end.nodes[y].stale && node !in end.nodes
  {
    hide Dependencies, StrictlyReaches, TornDown, HasReview;
    TeardownKeepsBelow(c, deletions, mid, node, y);
    NoEdgesNoDependents(mid.edges, node, y);
    var request := DeleteNode(node, version);
    var handled, capture := Handle(mid, request, node).value, CaptureInvalidation(mid, request);
    var affected := ResolveInvalidation(handled.0, request, capture);
    CommitKeepsKeys(handled.0, DirectKey(key), Direct(request), handled.1, affected, OriginOf(capture));
    CommitEffect(handled.0, DirectKey(key), Direct(request), handled.1, affected, OriginOf(capture), y);
  }
}

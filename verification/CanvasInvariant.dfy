/** What every canvas operation keeps, over every run of operations. */
module CanvasInvariant {
  import opened Reachability
  import opened GraphTypes
  import opened CanvasModel

  // ------------------------------------------------------------------ the invariant

  ghost predicate EdgesAttached(c: Canvas) {
    forall e :: e in c.edges ==> c.edges[e].source in c.nodes && c.edges[e].target in c.nodes
  }

  /** A branch root belongs to a branch-scoped constraint, exists, and is of an anchoring kind. */
  ghost predicate Anchored(nodes: map<Id, Node>, n: Id) {
    n in nodes ==>
      && (nodes[n].branchRoot.Some? ==>
            && nodes[n].kind == Constraint
            && nodes[n].branchRoot.value in nodes && IsRootKind(nodes[nodes[n].branchRoot.value].kind))
      && (nodes[n].kind == Constraint ==>
            Get(nodes[n].metadata, ContextScope) ==
            Some(Text(if nodes[n].branchRoot.Some? then BranchScope else GlobalScope)))
  }

  ghost predicate RootsAnchored(c: Canvas) {
    forall n {:trigger Anchored(c.nodes, n)} :: n in c.nodes ==> Anchored(c.nodes, n)
  }

  /** Stale exactly when a cause is recorded, and stale since the first of them. */
  ghost predicate StaleMatches(node: Node, causes: seq<Cause>) {
    && (node.stale <==> causes != [])
    && node.staleSince == if causes == [] then None else Some(causes[0].operation)
  }

  ghost predicate CausesOrdered(causes: seq<Cause>, revision: nat) {
    && (forall i :: 0 <= i < |causes| ==> 1 <= causes[i].operation <= revision)
    && (forall i, j :: 0 <= i < j < |causes| ==> causes[i].operation < causes[j].operation)
  }

  ghost predicate StalenessConsistent(c: Canvas) {
    && c.causes.Keys <= c.nodes.Keys
    && (forall n :: n in c.nodes ==> StaleMatches(c.nodes[n], CausesOf(c.causes, n)))
    && (forall n :: n in c.causes ==> CausesOrdered(c.causes[n], c.revision))
  }

  /** One logged operation per revision, in order, under keys used once. */
  ghost predicate LogGapFree(c: Canvas) {
    && c.revision == |c.log|
    && (forall i :: 0 <= i < |c.log| ==> c.log[i].payload.revision == i + 1)
    && (forall i, j :: 0 <= i < j < |c.log| ==> c.log[i].key != c.log[j].key)
  }

  ghost predicate Valid(c: Canvas) {
    EdgesAttached(c) && RootsAnchored(c) && StalenessConsistent(c) && LogGapFree(c) && c.ingested <= c.nodes.Keys
  }

  ghost predicate SameBooks(c: Canvas, d: Canvas) {
    d.log == c.log && d.revision == c.revision && d.ingested == c.ingested
  }

  // ------------------------------------------------------------------ handlers

  /** Nodes are replaced without touching kind, staleness or what anchors them. */
  lemma ReplacedNodeKeeps(c: Canvas, id: Id, node: Node)
    requires Valid(c) && id in c.nodes && Anchored(c.nodes[id := node], id)
    requires node.kind == c.nodes[id].kind && node.stale == c.nodes[id].stale && node.staleSince == c.nodes[id].staleSince
    ensures Valid(c.(nodes := c.nodes[id := node]))
  {
    var d := c.(nodes := c.nodes[id := node]);
    forall n | n in d.nodes ensures Anchored(d.nodes, n) {
      assert Anchored(c.nodes, n);
    }
    forall n | n in d.nodes ensures StaleMatches(d.nodes[n], CausesOf(d.causes, n)) {
      assert StaleMatches(c.nodes[n], CausesOf(c.causes, n));
    }
  }

  lemma NewNodeKeeps(c: Canvas, id: Id, node: Node)
    requires Valid(c) && id !in c.nodes && Anchored(c.nodes[id := node], id)
    requires !node.stale && node.staleSince == None
    ensures Valid(c.(nodes := c.nodes[id := node]))
  {
    var d := c.(nodes := c.nodes[id := node]);
    forall n | n in d.nodes ensures Anchored(d.nodes, n) {
      assert n in c.nodes ==> Anchored(c.nodes, n);
    }
    forall n | n in d.nodes ensures StaleMatches(d.nodes[n], CausesOf(d.causes, n)) {
      assert n in c.nodes ==> StaleMatches(c.nodes[n], CausesOf(c.causes, n));
    }
  }

  lemma DeletedNodeKeeps(c: Canvas, id: Id, expected: nat)
    requires Valid(c) && DeleteNodeFrom(c, id, expected).Ok?
    ensures Valid(DeleteNodeFrom(c, id, expected).value.0) && SameBooks(c, DeleteNodeFrom(c, id, expected).value.0)
  {
    var d := DeleteNodeFrom(c, id, expected).value.0;
    forall e | e in d.edges ensures d.edges[e].source in d.nodes && d.edges[e].target in d.nodes {
      assert !Incident(c.edges, e, id);
    }
    forall n | n in d.nodes ensures Anchored(d.nodes, n) {
      assert Anchored(c.nodes, n);
    }
    forall n | n in d.nodes ensures StaleMatches(d.nodes[n], CausesOf(d.causes, n)) {
      assert StaleMatches(c.nodes[n], CausesOf(c.causes, n));
    }
  }

  /** What anchors a node and whether it is stale do not change. */
  predicate KeepsPlace(before: Node, after: Node) {
    SameAnchor(before, after) && after.stale == before.stale && after.staleSince == before.staleSince
  }

  lemma RecomputedKeepsPlace(c: Canvas, claim: Id, rejected: Id)
    requires claim in c.nodes
    ensures KeepsPlace(c.nodes[claim], RecomputedClaim(c, claim, rejected))
  {
    hide RemainingSources, IndependenceKeys;
  }

  lemma PlacesKept(c: Canvas, nodes: map<Id, Node>)
    requires Valid(c) && nodes.Keys == c.nodes.Keys && forall n :: n in nodes ==> KeepsPlace(c.nodes[n], nodes[n])
    ensures Valid(c.(nodes := nodes))
  {
    AnchorsKept(c, c.(nodes := nodes));
    hide Anchored, Get;
    forall n | n in nodes ensures StaleMatches(nodes[n], CausesOf(c.causes, n)) {
      assert StaleMatches(c.nodes[n], CausesOf(c.causes, n));
    }
  }

  lemma RejectedEvidenceKeeps(c: Canvas, id: Id, expected: nat)
    requires Valid(c) && RejectEvidenceIn(c, id, expected).Ok?
    ensures Valid(RejectEvidenceIn(c, id, expected).value.0) && SameBooks(c, RejectEvidenceIn(c, id, expected).value.0)
  {
    var d := RejectEvidenceIn(c, id, expected).value.0;
    assert d == c.(nodes := d.nodes) && d.nodes.Keys == c.nodes.Keys;
    forall n | n in c.nodes ensures KeepsPlace(c.nodes[n], d.nodes[n]) {
      RecomputedKeepsPlace(c, n, id);
      hide RecomputedClaim, RemainingSources, ImpactedClaims, HasReview;
    }
    PlacesKept(c, d.nodes);
    hide *;
  }

  lemma SemanticChangeKeeps(c: Canvas, request: Request, newId: Id)
    requires Valid(c) && (request.UpdateNode? || request.PatchNodeMetadata?) && Handle(c, request, newId).Ok?
    ensures Valid(Handle(c, request, newId).value.0) && SameBooks(c, Handle(c, request, newId).value.0)
  {
    hide EdgesAttached, RootsAnchored, StalenessConsistent, LogGapFree;
    var d := Handle(c, request, newId).value.0;
    AnchoredIn(c, request.node);
    ReplacedNodeKeeps(c, request.node, d.nodes[request.node]);
  }

  lemma AnchoredIn(c: Canvas, n: Id)
    requires RootsAnchored(c) && n in c.nodes
    ensures Anchored(c.nodes, n)
  {
  }

  lemma NodeRequestKeeps(c: Canvas, request: Request, newId: Id)
    requires Valid(c) && (request.AddNode? || request.MoveNode? || request.ReplaceAssumption?)
    requires Handle(c, request, newId).Ok?
    ensures Valid(Handle(c, request, newId).value.0) && SameBooks(c, Handle(c, request, newId).value.0)
  {
    hide EdgesAttached, RootsAnchored, StalenessConsistent, LogGapFree;
    var d := Handle(c, request, newId).value.0;
    if request.AddNode? {
      NewNodeKeeps(c, newId, d.nodes[newId]);
    } else {
      AnchoredIn(c, request.node);
      ReplacedNodeKeeps(c, request.node, d.nodes[request.node]);
    }
  }

  lemma SavedEdgeKeeps(c: Canvas, id: Id, edge: Edge)
    requires Valid(c) && edge.source in c.nodes && edge.target in c.nodes
    ensures Valid(c.(edges := c.edges[id := edge]))
  {
  }

  lemma RemovedEdgeKeeps(c: Canvas, id: Id)
    requires Valid(c)
    ensures Valid(c.(edges := c.edges - {id}))
  {
  }

  lemma EdgeRequestKeeps(c: Canvas, request: Request, newId: Id)
    requires Valid(c) && (request.AddEdge? || request.UpdateEdge? || request.DeleteEdge?)
    requires Handle(c, request, newId).Ok?
    ensures Valid(Handle(c, request, newId).value.0) && SameBooks(c, Handle(c, request, newId).value.0)
  {
    hide Valid;
    var id := if request.AddEdge? then newId else request.edge;
    if request.DeleteEdge? {
      RemovedEdgeKeeps(c, id);
    } else {
      SavedEdgeKeeps(c, id, Handle(c, request, newId).value.0.edges[id]);
    }
  }

  lemma HandleKeepsValid(c: Canvas, request: Request, newId: Id)
    requires Valid(c) && Handle(c, request, newId).Ok?
    ensures Valid(Handle(c, request, newId).value.0)
    ensures SameBooks(c, Handle(c, request, newId).value.0)
  {
    hide Valid, SameBooks;
    match request {
      case UpdateNode(_, _, _, _, _, _) => SemanticChangeKeeps(c, request, newId);
      case PatchNodeMetadata(_, _, _, _) => SemanticChangeKeeps(c, request, newId);
      case DeleteNode(n, v) => DeletedNodeKeeps(c, n, v);
      case RejectEvidence(n, v) => RejectedEvidenceKeeps(c, n, v);
      case AddNode(_, _, _, _, _, _) => NodeRequestKeeps(c, request, newId);
      case MoveNode(_, _, _) => NodeRequestKeeps(c, request, newId);
      case ReplaceAssumption(_, _, _, _) => NodeRequestKeeps(c, request, newId);
      case _ => EdgeRequestKeeps(c, request, newId);
    }
  }

  // ------------------------------------------------------------------ commit

  lemma CommitKeepsValid(c: Canvas, key: Key, audit: Audit, change: Change, affected: set<Id>, origin: Origin)
    requires Valid(c) && forall i: nat :: !KeyUsed(c.log, key, i)
    ensures Valid(Commit(c, key, audit, change, affected, origin))
  {
    hide StalenessConsistent;
    CommitKeepsStaleness(c, key, audit, change, affected, origin);
    CommitKeepsAnchors(c, key, audit, change, affected, origin);
    forall i | 0 <= i < |c.log| ensures c.log[i].key != key {
      assert !KeyUsed(c.log, key, i);
    }
  }

  lemma CommitKeepsAnchors(c: Canvas, key: Key, audit: Audit, change: Change, affected: set<Id>, origin: Origin)
    requires RootsAnchored(c)
    ensures RootsAnchored(Commit(c, key, audit, change, affected, origin))
  {
    var d := Commit(c, key, audit, change, affected, origin);
    assert d.nodes.Keys == c.nodes.Keys;
    forall n | n in c.nodes ensures SameAnchor(c.nodes[n], d.nodes[n]) {
      CommitKeepsAnchor(c, key, audit, change, affected, origin, n);
    }
    hide Commit;
    AnchorsKept(c, d);
  }

  predicate SameAnchor(before: Node, after: Node) {
    && after.kind == before.kind && after.branchRoot == before.branchRoot
    && Get(after.metadata, ContextScope) == Get(before.metadata, ContextScope)
  }

  lemma CommitKeepsAnchor(c: Canvas, key: Key, audit: Audit, change: Change, affected: set<Id>, origin: Origin, n: Id)
    requires n in c.nodes
    ensures n in Commit(c, key, audit, change, affected, origin).nodes
    ensures SameAnchor(c.nodes[n], Commit(c, key, audit, change, affected, origin).nodes[n])
  {
    hide StaleTargets, NewlyStale;
  }

  lemma AnchorsKept(c: Canvas, d: Canvas)
    requires RootsAnchored(c) && d.nodes.Keys == c.nodes.Keys
    requires forall n :: n in c.nodes ==> SameAnchor(c.nodes[n], d.nodes[n])
    ensures RootsAnchored(d)
  {
    forall n | n in d.nodes ensures Anchored(d.nodes, n) {
      assert Anchored(c.nodes, n);
    }
  }

  lemma OneMoreCause(node: Node, causes: seq<Cause>, revision: nat, origin: Origin)
    requires StaleMatches(node, causes)
    ensures StaleMatches(Staled(node, revision), causes + [Cause(revision, origin)])
  {
  }

  lemma CommitKeepsStaleness(c: Canvas, key: Key, audit: Audit, change: Change, affected: set<Id>, origin: Origin)
    requires StalenessConsistent(c)
    ensures StalenessConsistent(Commit(c, key, audit, change, affected, origin))
  {
    hide StaleMatches;
    var d := Commit(c, key, audit, change, affected, origin);
    forall n | n in d.nodes ensures StaleMatches(d.nodes[n], CausesOf(d.causes, n)) {
      CommittedNodeStaleness(c, key, audit, change, affected, origin, n);
    }
  }

  lemma CommittedNodeStaleness(c: Canvas, key: Key, audit: Audit, change: Change, affected: set<Id>, origin: Origin, n: Id)
    requires n in c.nodes && StaleMatches(c.nodes[n], CausesOf(c.causes, n))
    ensures StaleMatches(Commit(c, key, audit, change, affected, origin).nodes[n],
                         CausesOf(Commit(c, key, audit, change, affected, origin).causes, n))
  {
    OneMoreCause(Stamp(c.nodes, change, c.revision + 1)[n], CausesOf(c.causes, n), c.revision + 1, origin);
  }

  /** Every committed direct operation keeps the invariant. */
  lemma ApplyKeepsValid(c: Canvas, id: Id, request: Request, newId: Id)
    requires Valid(c) && ApplyOperation(c, id, request, newId).Committed?
    ensures Valid(ApplyOperation(c, id, request, newId).canvas)
  {
    HandleKeepsValid(c, request, newId);
    var capture := CaptureInvalidation(c, request);
    var handled := Handle(c, request, newId).value;
    CommitKeepsValid(handled.0, DirectKey(id), Direct(request), handled.1,
                     ResolveInvalidation(handled.0, request, capture), OriginOf(capture));
  }
}

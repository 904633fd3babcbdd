/** What a direct operation makes of a canvas, read field by field over all ten operations, and when it is refused with
    which error (proofgraph/graph/operations.py:420-934, 1014-1159). */
module CanvasOutcomes {
  import opened Reachability
  import opened GraphTypes
  import opened CanvasModel
  import opened CanvasInvalidation

  // ---- one field after the other ----

  /** The operation changes the content of the node. */
  ghost predicate Edited(c: Canvas, request: Request, y: Id) {
    match request
    case UpdateNode(n, _, _, _, _, _) => y == n
    case PatchNodeMetadata(n, _, _, _) => y == n
    case ReplaceAssumption(n, _, _, _) => y == n
    case RejectEvidence(n, _) => y == n || Impacted(c, n, y)
    case _ => false
  }

  function TitleAfter(request: Request, y: Id, title: string): string {
    match request
    case UpdateNode(n, _, Some(given), _, _, _) => if n == y then given else title
    case ReplaceAssumption(n, _, given, _) => if n == y then given else title
    case _ => title
  }

  /** A replaced assumption repeats its new text unless a body is given. */
  function BodyAfter(request: Request, y: Id, body: Option<string>): Option<string> {
    match request
    case UpdateNode(n, _, _, Some(given), _, _) => if n == y then given else body
    case ReplaceAssumption(n, _, _, Some(given)) => if n == y then given else body
    case ReplaceAssumption(n, _, text, None) => if n == y then Some(text) else body
    case _ => body
  }

  /** A patch of the metadata replaces the fields it names and no other. */
  function FieldAfter(request: Request, y: Id, metadata: Metadata, f: Field): Option<Value> {
    match request
    case UpdateNode(n, _, _, _, Some(patch), _) => if n == y && f in patch then Some(patch[f]) else Get(metadata, f)
    case PatchNodeMetadata(n, _, patch, _) => if n == y && f in patch then Some(patch[f]) else Get(metadata, f)
    case _ => Get(metadata, f)
  }

  /** An edited constraint is anchored as its scope says: nowhere when global, and by branch at the given root or at the
      one it had. */
  function RootAfter(request: Request, y: Id, node: Node): Option<Id> {
    if (request.UpdateNode? || request.PatchNodeMetadata?) && request.node == y then
      if FieldAfter(request, y, node.metadata, ContextScope) != Some(Text(BranchScope)) || node.kind != Constraint then None
      else match request.root
           case Root(id) => Some(id)
           case _ => node.branchRoot
    else node.branchRoot
  }

  ghost predicate GoesStale(c: Canvas, edges: map<Id, Edge>, request: Request, y: Id)
    requires y in c.nodes
  {
    !c.nodes[y].stale && Stalable(c.nodes[y]) && Touched(c, edges, request, y)
  }

  /** A node that was there and still is. An edit and going stale are one version each, a move is one position version. */
  ghost predicate NodeAs(c: Canvas, request: Request, y: Id, after: Node, goes: bool)
    requires y in c.nodes
  {
    var before, moved := c.nodes[y], request.MoveNode? && request.node == y;
    && after.kind == before.kind
    && after.title == TitleAfter(request, y, before.title) && after.body == BodyAfter(request, y, before.body)
    && (!request.RejectEvidence? ==> forall f: Field :: Get(after.metadata, f) == FieldAfter(request, y, before.metadata, f))
    && after.branchRoot == RootAfter(request, y, before)
    && after.position == (if moved then Some(request.to) else before.position)
    && after.positionVersion == before.positionVersion + (if moved then 1 else 0)
    && after.version == before.version + (if Edited(c, request, y) then 1 else 0) + (if goes then 1 else 0)
    && after.stale == (before.stale || goes) && after.staleSince == (if goes then Some(c.revision + 1) else before.staleSince)
  }

  predicate NewNodeLaw(request: Request, node: Node)
    requires request.AddNode?
  {
    && node.kind == request.kind && node.title == request.title && node.body == request.body
    && node.metadata == request.metadata && node.position == request.position
    && node.branchRoot == (if request.kind == Constraint && Get(request.metadata, ContextScope) == Some(Text(BranchScope))
                              && request.root.Root? then Some(request.root.id) else None)
    && !node.stale && node.staleSince == None && node.version == 1 && node.positionVersion == 1
  }

  ghost predicate NodesLaw(c: Canvas, request: Request, newId: Id, d: Canvas, y: Id) {
    if y in c.nodes then
      if request.DeleteNode? && request.node == y then y !in d.nodes
      else y in d.nodes && NodeAs(c, request, y, d.nodes[y], GoesStale(c, d.edges, request, y))
    else if request.AddNode? && y == newId then y in d.nodes && NewNodeLaw(request, d.nodes[y])
    else y !in d.nodes
  }

  ghost predicate EdgesLaw(c: Canvas, request: Request, newId: Id, d: Canvas, e: Id) {
    if e in c.edges then
      if request.DeleteEdge? && request.edge == e then e !in d.edges
      else
        && e in d.edges
        && var before, after := c.edges[e], d.edges[e];
        if request.UpdateEdge? && request.edge == e then
          && (match request.newSource case Some(n) => after.source == n case None => after.source == before.source)
          && (match request.newTarget case Some(n) => after.target == n case None => after.target == before.target)
          && (match request.newKind case Some(kind) => after.kind == kind case None => after.kind == before.kind)
          && (match request.newMetadata case Some(m) => after.metadata == m case None => after.metadata == before.metadata)
          && after.version == before.version + 1
        else after == before
    else if request.AddEdge? && e == newId then
      && e in d.edges && d.edges[e].source == request.source && d.edges[e].target == request.target
      && d.edges[e].kind == request.edgeKind && d.edges[e].metadata == request.metadata && d.edges[e].version == 1
    else e !in d.edges
  }

  /** What the log says was done. A replacement keeps the previous text and names the one owning opportunity. */
  ghost predicate ChangeLaw(c: Canvas, request: Request, newId: Id, change: Change) {
    match request
    case AddNode(_, _, _, _, _, _) => change == NodeSaved(newId)
    case UpdateNode(n, _, _, _, _, _) => change == NodeSaved(n)
    case PatchNodeMetadata(n, _, _, _) => change == NodeSaved(n)
    case MoveNode(n, _, _) => change == NodeSaved(n)
    case DeleteNode(n, _) => change == NodeDeleted(n)
    case AddEdge(_, _, _, _) => change == EdgeSaved(newId)
    case UpdateEdge(e, _, _, _, _, _) => change == EdgeSaved(e)
    case DeleteEdge(e, _) => change == EdgeDeleted(e)
    case ReplaceAssumption(n, _, _, _) =>
      && change.AssumptionReplaced? && change.id == n && n in c.nodes && change.previousTitle == c.nodes[n].title
      && change.previousBody == c.nodes[n].body && change.previousVersion == c.nodes[n].version
      && exists e :: OwnedAlong(c, e, n) && c.edges[e].source == change.owner
    case RejectEvidence(n, _) => change.EvidenceRejected? && change.id == n
  }

  /** One more revision, logged under the key of the request with the request itself. */
  ghost predicate LogLaw(c: Canvas, id: Id, request: Request, newId: Id, d: Canvas, payload: Payload) {
    && d.revision == c.revision + 1 && d.ingested == c.ingested && payload.revision == c.revision + 1
    && d.log == c.log + [Entry(DirectKey(id), Direct(request), payload)] && ChangeLaw(c, request, newId, payload.change)
  }

  // ---- the handlers ----

  lemma FieldMerged(metadata: Metadata, fields: Metadata, f: Field)
    ensures Get(metadata + fields, f) == if f in fields then Some(fields[f]) else Get(metadata, f)
  {
  }

  lemma FieldsPatched(c: Canvas, request: Request, newId: Id, f: Field)
    requires Handle(c, request, newId).Ok? && (request.UpdateNode? || request.PatchNodeMetadata?)
    ensures var n, d := request.node, Handle(c, request, newId).value.0;
            n in c.nodes && n in d.nodes && Get(d.nodes[n].metadata, f) == FieldAfter(request, n, c.nodes[n].metadata, f)
  {
    var fields := if request.PatchNodeMetadata? then request.fields
                  else if request.patch.Some? then request.patch.value else map[];
    FieldMerged(c.nodes[request.node].metadata, fields, f);
    hide CheckMetadata, ConstraintRoot, Get;
  }

  lemma EditAnchors(c: Canvas, request: Request, newId: Id)
    requires Handle(c, request, newId).Ok? && (request.UpdateNode? || request.PatchNodeMetadata?)
    ensures var n, d := request.node, Handle(c, request, newId).value.0;
            n in c.nodes && n in d.nodes && d.nodes[n].branchRoot == RootAfter(request, n, c.nodes[n])
  {
    var node := c.nodes[request.node];
    var fields := if request.PatchNodeMetadata? then request.fields
                  else if request.patch.Some? then request.patch.value else map[];
    FieldMerged(node.metadata, fields, ContextScope);
    hide CheckMetadata, Get;
  }

  lemma EditHandled(c: Canvas, request: Request, newId: Id, y: Id)
    requires Handle(c, request, newId).Ok? && (request.UpdateNode? || request.PatchNodeMetadata?) && y in c.nodes
    ensures var d := Handle(c, request, newId).value.0; y in d.nodes && NodeAs(c, request, y, d.nodes[y], false)
  {
    if y == request.node {
      forall f ensures Get(Handle(c, request, newId).value.0.nodes[y].metadata, f) == FieldAfter(request, y, c.nodes[y].metadata, f) {
        FieldsPatched(c, request, newId, f);
      }
      EditAnchors(c, request, newId);
      hide Get, FieldAfter, RootAfter;
    }
    hide CheckMetadata, ConstraintRoot;
  }

  lemma RejectionHandled(c: Canvas, request: Request, newId: Id, y: Id)
    requires Handle(c, request, newId).Ok? && request.RejectEvidence? && y in c.nodes
    ensures var d := Handle(c, request, newId).value.0; y in d.nodes && NodeAs(c, request, y, d.nodes[y], false)
  {
    ImpactedIff(c, request.node, y);
    hide RemainingSources, IndependenceKeys, ImpactedClaims, Impacted;
  }

  lemma NodeHandled(c: Canvas, request: Request, newId: Id, y: Id)
    requires Handle(c, request, newId).Ok? && y in c.nodes && y in Handle(c, request, newId).value.0.nodes
    ensures NodeAs(c, request, y, Handle(c, request, newId).value.0.nodes[y], false)
  {
    if request.UpdateNode? || request.PatchNodeMetadata? {
      EditHandled(c, request, newId, y);
    } else if request.RejectEvidence? {
      RejectionHandled(c, request, newId, y);
    } else {
      hide CheckMetadata, ConstraintRoot, Owners, SemanticChange, RejectEvidenceIn;
    }
  }

  lemma DomainHandled(c: Canvas, request: Request, newId: Id, y: Id)
    requires Handle(c, request, newId).Ok?
    ensures var d := Handle(c, request, newId).value.0;
            && (y in c.nodes ==> (y in d.nodes <==> !(request.DeleteNode? && request.node == y)))
            && (y !in c.nodes ==> (y in d.nodes <==> request.AddNode? && y == newId))
            && (y !in c.nodes && y in d.nodes ==> NewNodeLaw(request, d.nodes[y]))
  {
    hide CheckMetadata, Owners, RemainingSources, IndependenceKeys, ImpactedClaims, HasReview;
  }

  lemma EdgesHandledAs(c: Canvas, request: Request, newId: Id, e: Id)
    requires Handle(c, request, newId).Ok?
    ensures EdgesLaw(c, request, newId, Handle(c, request, newId).value.0, e)
  {
    hide CheckMetadata, ConstraintRoot, Owners, RemainingSources, IndependenceKeys, ImpactedClaims, HasReview;
  }

  lemma ChangeHandled(c: Canvas, request: Request, newId: Id)
    requires Handle(c, request, newId).Ok?
    ensures ChangeLaw(c, request, newId, Handle(c, request, newId).value.1)
    ensures var d := Handle(c, request, newId).value.0;
            d.revision == c.revision && d.ingested == c.ingested && d.log == c.log
  {
    hide CheckMetadata, ConstraintRoot, RemainingSources, IndependenceKeys, ImpactedClaims, HasReview;
    if request.ReplaceAssumption? {
      var owner := TheOnly(Owners(c, request.node));
      assert owner in Owners(c, request.node);
    }
  }

  // ---- the commit ----

  /** Staling touches only what it is about; audit stamps touch only the metadata of an evidence rejection. */
  lemma CommitKeepsContent(c: Canvas, key: Key, audit: Audit, change: Change, affected: set<Id>, origin: Origin, y: Id)
    requires y in c.nodes
    ensures var d := Commit(c, key, audit, change, affected, origin);
            && y in d.nodes
            && var before, after := c.nodes[y], d.nodes[y];
            var goes := y in affected && Eligible(c.nodes, y) && !before.stale;
            && after.kind == before.kind && after.title == before.title && after.body == before.body
            && (!change.EvidenceRejected? ==> after.metadata == before.metadata)
            && after.branchRoot == before.branchRoot && after.position == before.position
            && after.positionVersion == before.positionVersion
            && after.version == before.version + (if goes then 1 else 0) && after.stale == (before.stale || goes)
            && after.staleSince == (if goes then Some(c.revision + 1) else before.staleSince)
  {
  }

  lemma CommitKeepsRest(c: Canvas, key: Key, audit: Audit, change: Change, affected: set<Id>, origin: Origin)
    ensures var d := Commit(c, key, audit, change, affected, origin);
            && d.nodes.Keys == c.nodes.Keys && d.edges == c.edges && d.ingested == c.ingested && d.revision == c.revision + 1
            && d.log != [] && var last := d.log[|d.log| - 1];
            d.log == c.log + [last] && last.key == key && last.audit == audit && last.payload.revision == c.revision + 1
            && last.payload.change == change
  {
  }

  lemma FreshNodeStays(c: Canvas, key: Key, audit: Audit, change: Change, affected: set<Id>, origin: Origin, y: Id)
    requires y in c.nodes && y !in affected && !change.EvidenceRejected?
    ensures y in Commit(c, key, audit, change, affected, origin).nodes
    ensures Commit(c, key, audit, change, affected, origin).nodes[y] == c.nodes[y]
  {
  }

  /** The nodes of the canvas after a committed operation. */
  lemma NodesFollow(c: Canvas, id: Id, request: Request, newId: Id, y: Id)
    requires ApplyOperation(c, id, request, newId).Committed?
    ensures NodesLaw(c, request, newId, ApplyOperation(c, id, request, newId).canvas, y)
  {
    hide Handle, Touched, Commit, CaptureInvalidation, ResolveInvalidation, Eligible, Stalable, NodeAs, Edited, Named,
         TitleAfter, BodyAfter, FieldAfter, RootAfter, NewNodeLaw, ChangeLaw;
    var handled, capture := Handle(c, request, newId).value, CaptureInvalidation(c, request);
    var affected := ResolveInvalidation(handled.0, request, capture);
    var key, audit, origin := DirectKey(id), Direct(request), OriginOf(capture);
    assert affected == AffectedBy(c, request, newId);
    CommitKeepsRest(handled.0, key, audit, handled.1, affected, origin);
    DomainHandled(c, request, newId, y);
    ChangeSays(c, request, newId);
    if y in c.nodes && y in handled.0.nodes {
      NodeHandled(c, request, newId, y);
      CommitKeepsContent(handled.0, key, audit, handled.1, affected, origin, y);
      HandledTouches(c, request, newId, y);
      StalableIsEligible(handled.0.nodes, y);
      if Touched(c, handled.0.edges, request, y) {
        TouchedIsUnedited(c, request, newId, y);
      }
      LawsMeet(c, request, handled.0, ApplyOperation(c, id, request, newId).canvas, y);
    } else if y in handled.0.nodes {
      AdditionTouchesNothing(c, request, newId);
      FreshNodeStays(handled.0, key, audit, handled.1, affected, origin, y);
    }
  }

  lemma LawsMeet(c: Canvas, request: Request, mid: Canvas, d: Canvas, y: Id)
    requires y in c.nodes && y in mid.nodes && y in d.nodes && NodeAs(c, request, y, mid.nodes[y], false)
    requires var before, after := mid.nodes[y], d.nodes[y];
             var goes := GoesStale(c, d.edges, request, y);
             && after.kind == before.kind && after.title == before.title && after.body == before.body
             && (!request.RejectEvidence? ==> after.metadata == before.metadata)
             && after.branchRoot == before.branchRoot && after.position == before.position
             && after.positionVersion == before.positionVersion
             && after.version == before.version + (if goes then 1 else 0) && after.stale == (before.stale || goes)
             && after.staleSince == (if goes then Some(c.revision + 1) else before.staleSince)
    ensures NodeAs(c, request, y, d.nodes[y], GoesStale(c, d.edges, request, y))
  {
    hide GoesStale, Edited, TitleAfter, BodyAfter, FieldAfter, RootAfter;
  }

  lemma ChangeSays(c: Canvas, request: Request, newId: Id)
    requires Handle(c, request, newId).Ok?
    ensures Handle(c, request, newId).value.1.EvidenceRejected? <==> request.RejectEvidence?
    ensures Handle(c, request, newId).value.0.revision == c.revision
  {
    hide Handle, OwnedAlong;
    ChangeHandled(c, request, newId);
  }

  lemma AdditionTouchesNothing(c: Canvas, request: Request, newId: Id)
    requires Handle(c, request, newId).Ok? && request.AddNode?
    ensures AffectedBy(c, request, newId) == {}
  {
    hide Handle;
  }

  lemma EdgesFollow(c: Canvas, id: Id, request: Request, newId: Id, e: Id)
    requires ApplyOperation(c, id, request, newId).Committed?
    ensures EdgesLaw(c, request, newId, ApplyOperation(c, id, request, newId).canvas, e)
  {
    hide Handle, Commit, CaptureInvalidation, ResolveInvalidation;
    var handled, capture := Handle(c, request, newId).value, CaptureInvalidation(c, request);
    CommitKeepsRest(handled.0, DirectKey(id), Direct(request), handled.1, ResolveInvalidation(handled.0, request, capture),
                    OriginOf(capture));
    EdgesHandledAs(c, request, newId, e);
  }

  lemma LogFollows(c: Canvas, id: Id, request: Request, newId: Id)
    requires ApplyOperation(c, id, request, newId).Committed?
    ensures var r := ApplyOperation(c, id, request, newId); LogLaw(c, id, request, newId, r.canvas, r.payload)
  {
    hide Handle, Commit, CaptureInvalidation, ResolveInvalidation, ChangeLaw;
    var handled, capture := Handle(c, request, newId).value, CaptureInvalidation(c, request);
    CommitKeepsRest(handled.0, DirectKey(id), Direct(request), handled.1, ResolveInvalidation(handled.0, request, capture),
                    OriginOf(capture));
    ChangeHandled(c, request, newId);
  }
}

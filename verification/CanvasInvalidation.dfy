/** What becomes stale, operation by operation, read off the rows of the canvas before
    (proofgraph/graph/staleness.py:89-286). */
module CanvasInvalidation {
  import opened Reachability
  import opened GraphTypes
  import opened DependencyPaths
  import opened CanvasModel
  import opened CanvasStaleness

  // ---- the law ----

  /** Invalidation applies to the node: it is no placeholder, and nobody has rejected it. */
  predicate Stalable(node: Node) {
    node.kind != GenerationPlaceholder && Get(node.metadata, ReviewStatus) != Some(Text(Rejected))
  }

  /** The assumption was derived from this opportunity, as one of the edges says. */
  predicate OwnedAlong(c: Canvas, e: Id, assumption: Id) {
    && e in c.edges && c.edges[e].kind == DerivedFrom && c.edges[e].target == assumption
    && c.edges[e].source in c.nodes && c.nodes[c.edges[e].source].kind == Opportunity
  }

  /** The claim was extracted from this source, as one of the edges says. */
  predicate ExtractedAlong(c: Canvas, e: Id, source: Id, claim: Id) {
    && e in c.edges && c.edges[e].kind == ExtractedFrom && c.edges[e].target == source && c.edges[e].source == claim
    && claim in c.nodes && c.nodes[claim].kind == Claim
  }

  /** The node lies at or below the dependent end of the edge. */
  ghost predicate UnderEnd(edges: map<Id, Edge>, e: Id, y: Id) {
    e in edges && exists x, z :: Says(edges[e], x, z) && LeadsTo(edges, z, y)
  }

  /** What an operation touches beyond what it edits: the dependents of an edited node; the opportunity of a replaced
      assumption and its dependents; the dependents of rejected evidence, but not the claims whose support was
      recomputed; everything from the dependent end of a moved or deleted edge on, before and after. Additions, moves of
      a node and its deletion touch nothing. */
  ghost predicate Touched(c: Canvas, after: map<Id, Edge>, request: Request, y: Id) {
    match request
    case UpdateNode(n, _, _, _, _, _) => y != n && LeadsTo(c.edges, n, y)
    case PatchNodeMetadata(n, _, _, _) => y != n && LeadsTo(c.edges, n, y)
    case ReplaceAssumption(n, _, _, _) =>
      y != n && exists e :: OwnedAlong(c, e, n) && LeadsTo(c.edges, c.edges[e].source, y)
    case RejectEvidence(n, _) =>
      && y != n && LeadsTo(c.edges, n, y)
      && !(n in c.nodes && c.nodes[n].kind == Source && exists e :: ExtractedAlong(c, e, n, y))
    case UpdateEdge(e, _, _, _, _, _) => UnderEnd(c.edges, e, y) || UnderEnd(after, e, y)
    case DeleteEdge(e, _) => UnderEnd(c.edges, e, y)
    case _ => false
  }

  /** The entity that a cause row names. */
  function Named(request: Request): Origin {
    match request
    case UpdateNode(n, _, _, _, _, _) => FromNode(n)
    case PatchNodeMetadata(n, _, _, _) => FromNode(n)
    case DeleteNode(n, _) => FromNode(n)
    case ReplaceAssumption(n, _, _, _) => FromNode(n)
    case RejectEvidence(n, _) => FromNode(n)
    case UpdateEdge(e, _, _, _, _, _) => FromEdge(e)
    case DeleteEdge(e, _) => FromEdge(e)
    case _ => NoOrigin
  }

  // ---- what the traversal finds ----

  lemma EndOfEdge(edge: Edge)
    ensures Says(edge, PairOf(edge).0, PairOf(edge).1)
    ensures forall x, z :: Says(edge, x, z) ==> (x, z) == PairOf(edge)
  {
  }

  lemma UnderEndIff(edges: map<Id, Edge>, e: Id, y: Id)
    requires e in edges
    ensures UnderEnd(edges, e, y) <==> Reaches(Dependencies(edges), PairOf(edges[e]).1, y)
  {
    hide Dependencies, Reaches, LeadsTo, Says, PairOf;
    EndOfEdge(edges[e]);
    LeadsToIffReaches(edges, PairOf(edges[e]).1, y);
  }

  /** Reached from the old end after the change: reached from it before, or from the new end. */
  lemma OldEndAfter(before: map<Id, Edge>, after: map<Id, Edge>, e: Id, y: Id)
    requires e in before && e in after && after == before[e := after[e]]
    requires Reaches(Dependencies(after), PairOf(before[e]).1, y)
    ensures Reaches(Dependencies(before), PairOf(before[e]).1, y) || Reaches(Dependencies(after), PairOf(after[e]).1, y)
  {
    var rest := before - {e};
    var (tail, head) := PairOf(after[e]);
    var from := PairOf(before[e]).1;
    OtherPairsKept(after, rest, e);
    RemovedPairCovered(Dependencies(after), Dependencies(rest), from, head, tail, y);
    DependenciesGrow(rest, before);
    DependenciesGrow(rest, after);
    hide Dependencies, PairOf;
    if Reaches(Dependencies(rest), from, y) {
      ReachesMonotone(Dependencies(rest), Dependencies(before), from, y);
    } else {
      ReachesMonotone(Dependencies(rest), Dependencies(after), head, y);
    }
  }

  /** Seen from the canvas after the change, the two ends reach what they reach on the canvas of their own. */
  lemma UpdatedEnds(before: map<Id, Edge>, after: map<Id, Edge>, e: Id, y: Id)
    requires e in before && e in after && after == before[e := after[e]]
    ensures UnderEnd(before, e, y) || UnderEnd(after, e, y)
            <==> Reaches(Dependencies(after), PairOf(before[e]).1, y) || Reaches(Dependencies(after), PairOf(after[e]).1, y)
  {
    UnderEndIff(before, e, y);
    UnderEndIff(after, e, y);
    hide UnderEnd, Dependencies, Reaches, PairOf;
    if Reaches(Dependencies(after), PairOf(before[e]).1, y) {
      OldEndAfter(before, after, e, y);
    }
    if Reaches(Dependencies(before), PairOf(before[e]).1, y) {
      OldBelowStillBelow(before, after, e, y);
    }
  }

  lemma DeletedEnd(before: map<Id, Edge>, e: Id, y: Id)
    requires e in before
    ensures UnderEnd(before, e, y) <==> Reaches(Dependencies(before - {e}), PairOf(before[e]).1, y)
  {
    UnderEndIff(before, e, y);
    DependenciesGrow(before - {e}, before);
    hide UnderEnd, Dependencies, Reaches, PairOf;
    if Reaches(Dependencies(before), PairOf(before[e]).1, y) {
      OldBelowStillBelow(before, before - {e}, e, y);
    }
    if Reaches(Dependencies(before - {e}), PairOf(before[e]).1, y) {
      ReachesMonotone(Dependencies(before - {e}), Dependencies(before), PairOf(before[e]).1, y);
    }
  }

  ghost function AffectedOn(c: Canvas, after: Canvas, request: Request): set<Id> {
    ResolveInvalidation(after, request, CaptureInvalidation(c, request))
  }

  /** What the operation may have done to the edges, and what it needed to be done at all. */
  ghost predicate EdgesMove(c: Canvas, after: map<Id, Edge>, request: Request) {
    match request
    case UpdateEdge(e, _, _, _, _, _) => e in c.edges && e in after && after == c.edges[e := after[e]]
    case DeleteEdge(e, _) => e in c.edges && after == c.edges - {e}
    case AddEdge(_, _, _, _) => true
    case DeleteNode(n, _) => after == c.edges && forall e :: e in c.edges ==> !Incident(c.edges, e, n)
    case RejectEvidence(n, _) => after == c.edges && n in c.nodes && (c.nodes[n].kind == Source || c.nodes[n].kind == Claim)
    case _ => after == c.edges
  }

  lemma EdgesHandled(c: Canvas, request: Request, newId: Id)
    requires Handle(c, request, newId).Ok?
    ensures EdgesMove(c, Handle(c, request, newId).value.0.edges, request)
  {
    hide RemainingSources, IndependenceKeys, ImpactedClaims, Owners, CheckMetadata, ConstraintRoot, HasReview;
  }

  lemma EditTouches(c: Canvas, after: Canvas, request: Request, y: Id)
    requires after.edges == c.edges && (request.UpdateNode? || request.PatchNodeMetadata?)
    ensures y in AffectedOn(c, after, request) <==> Touched(c, after.edges, request, y)
  {
    LeadsToIffReaches(c.edges, request.node, y);
    hide Dependencies, Reaches, LeadsTo;
  }

  lemma ReplacementTouches(c: Canvas, after: Canvas, request: Request, y: Id)
    requires after.edges == c.edges && request.ReplaceAssumption?
    ensures y in AffectedOn(c, after, request) <==> Touched(c, after.edges, request, y)
  {
    hide Dependencies, Reaches, LeadsTo;
    forall x ensures LeadsTo(c.edges, x, y) <==> Reaches(Dependencies(c.edges), x, y) {
      LeadsToIffReaches(c.edges, x, y);
    }
    assert forall x :: x in Owners(c, request.node) <==> exists e :: OwnedAlong(c, e, request.node) && c.edges[e].source == x;
    hide Owners;
  }

  lemma DirectlyExtracted(c: Canvas, source: Id, claim: Id)
    ensures claim in ExtractedClaims(c, source) <==> exists e :: ExtractedAlong(c, e, source, claim)
    ensures claim in ExtractedClaims(c, source) ==> Reaches(Dependencies(c.edges), source, claim)
  {
    if claim in ExtractedClaims(c, source) {
      var e :| e in c.edges && c.edges[e].kind == ExtractedFrom && c.edges[e].target == source && c.edges[e].source == claim;
      assert ExtractedAlong(c, e, source, claim);
      assert PairOf(c.edges[e]) == (source, claim) && (source, claim) in Dependencies(c.edges);
      ReachesSelf(Dependencies(c.edges), source);
      ReachesStep(Dependencies(c.edges), source, source, claim);
    }
  }

  lemma RejectionTouches(c: Canvas, after: Canvas, request: Request, y: Id)
    requires EdgesMove(c, after.edges, request) && request.RejectEvidence?
    ensures y in AffectedOn(c, after, request) <==> Touched(c, after.edges, request, y)
  {
    var n := request.node;
    LeadsToIffReaches(c.edges, n, y);
    DirectlyExtracted(c, n, y);
    hide Dependencies, Reaches, LeadsTo;
    forall x | x in ExtractedClaims(c, n) && Reaches(Dependencies(c.edges), x, y) ensures Reaches(Dependencies(c.edges), n, y) {
      DirectlyExtracted(c, n, x);
      ReachesTransitive(Dependencies(c.edges), n, x, y);
    }
    hide ExtractedClaims;
  }

  lemma EdgeTouches(c: Canvas, after: Canvas, request: Request, y: Id)
    requires EdgesMove(c, after.edges, request) && EdgeRequest(request)
    ensures y in AffectedOn(c, after, request) <==> Touched(c, after.edges, request, y)
  {
    hide Dependencies, Reaches, UnderEnd, PairOf;
    if request.UpdateEdge? {
      UpdatedEnds(c.edges, after.edges, request.edge, y);
    } else {
      DeletedEnd(c.edges, request.edge, y);
    }
  }

  lemma DeletionTouchesNothing(c: Canvas, after: Canvas, request: Request, y: Id)
    requires EdgesMove(c, after.edges, request) && request.DeleteNode?
    ensures y !in AffectedOn(c, after, request)
  {
    var n := request.node;
    hide Dependencies, Reaches, StrictlyReaches;
    forall x | x in Dependents(Dependencies(c.edges), {n}, false, {n}) ensures false {
      StrictImpliesReaches(Dependencies(c.edges), n, x);
      NoEdgesNoDependents(c.edges, n, x);
    }
  }

  /** The traversal finds exactly what the law says. */
  lemma AffectedIffTouched(c: Canvas, after: Canvas, request: Request, y: Id)
    requires EdgesMove(c, after.edges, request)
    ensures y in AffectedOn(c, after, request) <==> Touched(c, after.edges, request, y)
  {
    hide LeadsTo, UnderEnd, Dependents;
    match request
    case UpdateNode(_, _, _, _, _, _) => EditTouches(c, after, request, y);
    case PatchNodeMetadata(_, _, _, _) => EditTouches(c, after, request, y);
    case ReplaceAssumption(_, _, _, _) => ReplacementTouches(c, after, request, y);
    case RejectEvidence(_, _) => RejectionTouches(c, after, request, y);
    case UpdateEdge(_, _, _, _, _, _) => EdgeTouches(c, after, request, y);
    case DeleteEdge(_, _) => EdgeTouches(c, after, request, y);
    case DeleteNode(_, _) => DeletionTouchesNothing(c, after, request, y);
    case _ =>
  }

  /** What a handled operation affects. */
  ghost function AffectedBy(c: Canvas, request: Request, newId: Id): set<Id>
    requires Handle(c, request, newId).Ok?
  {
    AffectedOn(c, Handle(c, request, newId).value.0, request)
  }

  lemma HandledTouches(c: Canvas, request: Request, newId: Id, y: Id)
    requires Handle(c, request, newId).Ok?
    ensures y in AffectedBy(c, request, newId) <==> Touched(c, Handle(c, request, newId).value.0.edges, request, y)
  {
    EdgesHandled(c, request, newId);
    hide Handle, EdgesMove, AffectedOn, Touched;
    AffectedIffTouched(c, Handle(c, request, newId).value.0, request, y);
  }

  // ---- the commit ----

  /** An operation edits none of the nodes it touches, so they are as open to invalidation as before. */
  lemma TouchedIsUnedited(c: Canvas, request: Request, newId: Id, y: Id)
    requires Handle(c, request, newId).Ok? && y in c.nodes && Touched(c, Handle(c, request, newId).value.0.edges, request, y)
    ensures y in Handle(c, request, newId).value.0.nodes && Handle(c, request, newId).value.0.nodes[y] == c.nodes[y]
  {
    hide LeadsTo, UnderEnd, RemainingSources, IndependenceKeys, Owners, CheckMetadata, ConstraintRoot, HasReview;
    if request.RejectEvidence? && c.nodes[request.node].kind == Source {
      DirectlyExtracted(c, request.node, y);
    }
    hide ExtractedClaims;
  }

  lemma StalableIsEligible(nodes: map<Id, Node>, y: Id)
    requires y in nodes
    ensures Eligible(nodes, y) <==> Stalable(nodes[y])
  {
  }

  lemma CommitCauses(c: Canvas, key: Key, audit: Audit, change: Change, affected: set<Id>, origin: Origin, y: Id)
    requires y in c.nodes
    ensures var d := Commit(c, key, audit, change, affected, origin);
            && CausesOf(d.causes, y) == CausesOf(c.causes, y)
                 + (if y in affected && Eligible(c.nodes, y) then [Cause(c.revision + 1, origin)] else [])
            && d.log == c.log + [d.log[|d.log| - 1]] && |d.log| == |c.log| + 1
            && var payload := d.log[|d.log| - 1].payload;
            && (y in payload.stale <==> y in affected && Eligible(c.nodes, y))
            && (y in payload.newlyStale <==> y in affected && Eligible(c.nodes, y) && !c.nodes[y].stale)
  {
  }

  /** What one operation does to the staleness of a node that survives it, and what it says about it. */
  ghost predicate StaledBy(c: Canvas, d: Canvas, request: Request, payload: Payload, y: Id)
    requires y in c.nodes && y in d.nodes
  {
    var touched := Stalable(c.nodes[y]) && Touched(c, d.edges, request, y);
    && (d.nodes[y].stale <==> c.nodes[y].stale || touched)
    && CausesOf(d.causes, y) == CausesOf(c.causes, y) + (if touched then [Cause(c.revision + 1, Named(request))] else [])
    && (y in payload.stale <==> touched)
    && (y in payload.newlyStale <==> touched && !c.nodes[y].stale)
  }

  /** Which handler changes what staleness, causes and revision are kept with: none but the deletion of the node. */
  lemma HandlerKeepsBooks(c: Canvas, request: Request, newId: Id, y: Id)
    requires Handle(c, request, newId).Ok? && y in c.nodes && y in Handle(c, request, newId).value.0.nodes
    ensures var d := Handle(c, request, newId).value.0;
            d.nodes[y].stale == c.nodes[y].stale && CausesOf(d.causes, y) == CausesOf(c.causes, y) && d.revision == c.revision
  {
    hide RemainingSources, IndependenceKeys, ImpactedClaims, Owners, CheckMetadata, ConstraintRoot, HasReview;
  }

  lemma OriginIsNamed(c: Canvas, request: Request, newId: Id, y: Id)
    requires Handle(c, request, newId).Ok? && Touched(c, Handle(c, request, newId).value.0.edges, request, y)
    ensures OriginOf(CaptureInvalidation(c, request)) == Named(request)
  {
    hide LeadsTo, UnderEnd, Dependencies, RemainingSources, IndependenceKeys, ImpactedClaims, Owners, CheckMetadata, ConstraintRoot;
  }

  /** For every operation that commits: exactly the touched nodes that invalidation applies to become stale and get a
      cause, and the stored result lists exactly them. */
  lemma StaledExactly(c: Canvas, id: Id, request: Request, newId: Id, y: Id)
    requires ApplyOperation(c, id, request, newId).Committed?
    requires y in c.nodes && y in ApplyOperation(c, id, request, newId).canvas.nodes
    ensures var r := ApplyOperation(c, id, request, newId); StaledBy(c, r.canvas, request, r.payload, y)
  {
    hide Handle, Touched, Commit, CaptureInvalidation, ResolveInvalidation, Eligible, Stalable, Named;
    var handled, capture := Handle(c, request, newId).value, CaptureInvalidation(c, request);
    var affected := ResolveInvalidation(handled.0, request, capture);
    var key, audit, origin := DirectKey(id), Direct(request), OriginOf(capture);
    assert affected == AffectedBy(c, request, newId);
    CommitKeepsKeys(handled.0, key, audit, handled.1, affected, origin);
    CommitEffect(handled.0, key, audit, handled.1, affected, origin, y);
    CommitCauses(handled.0, key, audit, handled.1, affected, origin, y);
    HandlerKeepsBooks(c, request, newId, y);
    HandledTouches(c, request, newId, y);
    StalableIsEligible(handled.0.nodes, y);
    if Touched(c, handled.0.edges, request, y) {
      TouchedIsUnedited(c, request, newId, y);
      OriginIsNamed(c, request, newId, y);
    }
  }

  // ---- one edge at a time ----

  predicate Edits(request: Request, n: Id) {
    (request.UpdateNode? || request.PatchNodeMetadata?) && request.node == n
  }

  lemma SaysLeads(edges: map<Id, Edge>, e: Id, x: Id, y: Id)
    requires e in edges && Says(edges[e], x, y)
    ensures LeadsTo(edges, x, y)
  {
    assert Joined(edges, x, y);
    assert Path(edges, [x, y]);
  }

  /** An edit stales the other end of every edge that points to it as a constraint or a source of a claim, and of every
      other edge that points away from it. */
  lemma EditStalesNeighbour(c: Canvas, id: Id, request: Request, newId: Id, n: Id, e: Id, y: Id)
    requires Edits(request, n) && ApplyOperation(c, id, request, newId).Committed?
    requires e in c.edges && y != n && y in c.nodes && Stalable(c.nodes[y])
    requires match c.edges[e].kind
             case ConstrainedBy => c.edges[e].target == n && c.edges[e].source == y
             case ExtractedFrom => c.edges[e].target == n && c.edges[e].source == y
             case _ => c.edges[e].source == n && c.edges[e].target == y
    ensures var d := ApplyOperation(c, id, request, newId).canvas; y in d.nodes && d.nodes[y].stale
  {
    SaysLeads(c.edges, e, n, y);
    SurvivesEdit(c, id, request, newId, y);
    hide ApplyOperation, LeadsTo, Stalable;
    StaledExactly(c, id, request, newId, y);
  }

  lemma SurvivesEdit(c: Canvas, id: Id, request: Request, newId: Id, y: Id)
    requires ApplyOperation(c, id, request, newId).Committed? && y in c.nodes && !request.DeleteNode?
    ensures y in ApplyOperation(c, id, request, newId).canvas.nodes
  {
    hide CaptureInvalidation, ResolveInvalidation, Commit;
    KeepsNodes(c, request, newId);
    var handled, capture := Handle(c, request, newId).value, CaptureInvalidation(c, request);
    CommitKeepsKeys(handled.0, DirectKey(id), Direct(request), handled.1, ResolveInvalidation(handled.0, request, capture),
                    OriginOf(capture));
  }

  lemma KeepsNodes(c: Canvas, request: Request, newId: Id)
    requires Handle(c, request, newId).Ok? && !request.DeleteNode?
    ensures c.nodes.Keys <= Handle(c, request, newId).value.0.nodes.Keys
  {
    hide RemainingSources, IndependenceKeys, ImpactedClaims, Owners, CheckMetadata, ConstraintRoot, HasReview;
  }

  lemma CommitLeaves(c: Canvas, key: Key, audit: Audit, change: Change, affected: set<Id>, origin: Origin, y: Id)
    requires y in c.nodes && y !in affected && !change.EvidenceRejected?
    ensures y in Commit(c, key, audit, change, affected, origin).nodes
    ensures Commit(c, key, audit, change, affected, origin).nodes[y] == c.nodes[y]
  {
  }

  /** When the only edge runs the other way, an edit leaves its other end exactly as it was. */
  lemma WrongWayIsLeftAlone(c: Canvas, id: Id, request: Request, newId: Id, n: Id, e: Id, y: Id)
    requires Edits(request, n) && ApplyOperation(c, id, request, newId).Committed?
    requires e in c.edges && c.edges.Keys == {e} && y != n && y in c.nodes
    requires match c.edges[e].kind
             case ConstrainedBy => c.edges[e].target == y && c.edges[e].source == n
             case ExtractedFrom => c.edges[e].target == y && c.edges[e].source == n
             case _ => c.edges[e].source == y && c.edges[e].target == n
    ensures var d := ApplyOperation(c, id, request, newId).canvas; y in d.nodes && d.nodes[y] == c.nodes[y]
  {
    assert c.edges == map[e := c.edges[e]];
    OneEdgeLeads(e, c.edges[e], n, y);
    EditsOnlyNode(c, request, newId, n, y);
    var handled, capture := Handle(c, request, newId).value, CaptureInvalidation(c, request);
    hide Handle, CaptureInvalidation, ResolveInvalidation, Commit, LeadsTo, Says;
    HandledTouches(c, request, newId, y);
    CommitLeaves(handled.0, DirectKey(id), Direct(request), handled.1, ResolveInvalidation(handled.0, request, capture),
                 OriginOf(capture), y);
  }

  lemma EditsOnlyNode(c: Canvas, request: Request, newId: Id, n: Id, y: Id)
    requires Edits(request, n) && Handle(c, request, newId).Ok? && y != n && y in c.nodes
    ensures var r := Handle(c, request, newId).value;
            y in r.0.nodes && r.0.nodes[y] == c.nodes[y] && !r.1.EvidenceRejected? && r.0.edges == c.edges
  {
    hide CheckMetadata, ConstraintRoot;
  }

  // ---- rejected evidence ----

  /** Another source of the claim that may still carry it: nobody has rejected it, and it is not provisional. */
  ghost predicate Carries(c: Canvas, claim: Id, rejected: Id, source: Id) {
    && source != rejected && source in c.nodes && c.nodes[source].kind == Source
    && (exists e :: ExtractedAlong(c, e, source, claim))
    && Get(c.nodes[source].metadata, ReviewStatus) != Some(Text(Rejected))
    && Get(c.nodes[source].metadata, ReviewStatus) != Some(Text(Provisional))
  }

  ghost predicate SomeCarry(c: Canvas, claim: Id, rejected: Id) {
    exists s :: Carries(c, claim, rejected, s)
  }

  ghost predicate KeyCarried(c: Canvas, claim: Id, rejected: Id, key: Token) {
    exists s :: Carries(c, claim, rejected, s) && Get(c.nodes[s].metadata, IndependenceKey) == Some(Text(key))
  }

  /** The support of a claim after one of its sources was rejected: the sources that still carry it, their independence
      keys and how many those are. Without any such source the claim is rejected too. */
  ghost predicate Resupported(c: Canvas, rejected: Id, claim: Id, after: Node)
    requires claim in c.nodes
  {
    && (match Get(after.metadata, EligibleSourceIds)
        case Some(IdSet(ids)) => forall s :: s in ids <==> Carries(c, claim, rejected, s)
        case _ => false)
    && (match Get(after.metadata, EligibleIndependenceKeys)
        case Some(TokenSet(keys)) =>
          && Get(after.metadata, IndependentSupportCount) == Some(Number(|keys|))
          && forall key :: key in keys <==> key != Word("") && KeyCarried(c, claim, rejected, key)
        case _ => false)
    && (SomeCarry(c, claim, rejected) ==> Get(after.metadata, ReviewStatus) == Get(c.nodes[claim].metadata, ReviewStatus))
    && (!SomeCarry(c, claim, rejected) ==> Get(after.metadata, ReviewStatus) == Some(Text(Rejected)))
    && after.version == c.nodes[claim].version + 1 && after.title == c.nodes[claim].title && after.body == c.nodes[claim].body
  }

  lemma RemainingCarry(c: Canvas, claim: Id, rejected: Id)
    requires claim in c.nodes && c.nodes[claim].kind == Claim
    ensures forall s :: s in RemainingSources(c, claim, rejected) <==> Carries(c, claim, rejected, s)
  {
    forall s ensures s in RemainingSources(c, claim, rejected) <==> Carries(c, claim, rejected, s) {
      if s in RemainingSources(c, claim, rejected) {
        var e :| e in c.edges && c.edges[e].kind == ExtractedFrom && c.edges[e].source == claim && c.edges[e].target == s;
        assert ExtractedAlong(c, e, s, claim);
      }
      if Carries(c, claim, rejected, s) {
        var e :| ExtractedAlong(c, e, s, claim);
        assert c.edges[e].target == s;
      }
    }
  }

  lemma KeysCarried(c: Canvas, claim: Id, rejected: Id, key: Token)
    requires forall s :: s in RemainingSources(c, claim, rejected) <==> Carries(c, claim, rejected, s)
    ensures key in IndependenceKeys(c, RemainingSources(c, claim, rejected)) <==> key != Word("") && KeyCarried(c, claim, rejected, key)
  {
    hide RemainingSources;
    var sources := RemainingSources(c, claim, rejected);
    if key in IndependenceKeys(c, sources) {
      var s :| s in sources && s in c.nodes && IndependenceKey in c.nodes[s].metadata
        && c.nodes[s].metadata[IndependenceKey].Text? && c.nodes[s].metadata[IndependenceKey].token == key;
      assert Carries(c, claim, rejected, s);
    }
    if key != Word("") && KeyCarried(c, claim, rejected, key) {
      var s :| Carries(c, claim, rejected, s) && Get(c.nodes[s].metadata, IndependenceKey) == Some(Text(key));
      assert s in sources;
    }
  }

  lemma RecomputedIsResupported(c: Canvas, claim: Id, rejected: Id)
    requires claim in c.nodes && c.nodes[claim].kind == Claim
    ensures Resupported(c, rejected, claim, RecomputedClaim(c, claim, rejected))
  {
    RemainingCarry(c, claim, rejected);
    forall key ensures key in IndependenceKeys(c, RemainingSources(c, claim, rejected))
                       <==> key != Word("") && KeyCarried(c, claim, rejected, key) {
      KeysCarried(c, claim, rejected, key);
    }
    hide RemainingSources, Carries, IndependenceKeys, KeyCarried;
    assert SomeCarry(c, claim, rejected) <==> RemainingSources(c, claim, rejected) != {};
  }

  /** The claim rests on the rejected source and has not been rejected itself. */
  ghost predicate Impacted(c: Canvas, source: Id, claim: Id) {
    && source in c.nodes && c.nodes[source].kind == Source && (exists e :: ExtractedAlong(c, e, source, claim))
    && claim in c.nodes && Get(c.nodes[claim].metadata, ReviewStatus) != Some(Text(Rejected))
  }

  /** What a rejection makes of a node: the evidence itself is rejected, every claim that rests on it is supported anew,
      and every other node keeps its content. The result names the claims. */
  ghost predicate RejectionSays(c: Canvas, d: Canvas, n: Id, change: Change, y: Id)
    requires y in c.nodes && y in d.nodes
  {
    && change.EvidenceRejected? && change.id == n
    && (y in change.rejectedClaims <==> Impacted(c, n, y) && !SomeCarry(c, y, n))
    && (y in change.retainedClaims <==> Impacted(c, n, y) && SomeCarry(c, y, n))
    && if y == n then
         Get(d.nodes[y].metadata, ReviewStatus) == Some(Text(Rejected)) && d.nodes[y].version == c.nodes[y].version + 1
       else if Impacted(c, n, y) then Resupported(c, n, y, d.nodes[y])
       else d.nodes[y].title == c.nodes[y].title && d.nodes[y].body == c.nodes[y].body && d.nodes[y].metadata == c.nodes[y].metadata
  }

  lemma ImpactedIff(c: Canvas, source: Id, claim: Id)
    requires source in c.nodes
    ensures claim in ImpactedClaims(c, source) <==> Impacted(c, source, claim)
    ensures Impacted(c, source, claim) ==> c.nodes[claim].kind == Claim && claim != source
  {
    DirectlyExtracted(c, source, claim);
    hide Dependencies, Reaches;
  }

  lemma HandledRejection(c: Canvas, n: Id, expected: nat, y: Id)
    requires RejectEvidenceIn(c, n, expected).Ok? && y in c.nodes
    ensures var r := RejectEvidenceIn(c, n, expected).value; y in r.0.nodes && RejectionSays(c, r.0, n, r.1, y)
  {
    ImpactedIff(c, n, y);
    if Impacted(c, n, y) {
      RecomputedIsResupported(c, y, n);
      RemainingCarry(c, y, n);
    }
    hide Impacted, Resupported, Carries, RemainingSources, ImpactedClaims, RecomputedClaim;
    assert Impacted(c, n, y) ==> (SomeCarry(c, y, n) <==> RemainingSources(c, y, n) != {});
  }

  /** Audit stamps and staling leave alone what a rejection says of a node. */
  lemma CommitKeepsSaid(c: Canvas, key: Key, audit: Audit, change: Change, affected: set<Id>, origin: Origin, y: Id)
    requires y in c.nodes
    ensures var d := Commit(c, key, audit, change, affected, origin);
            && y in d.nodes && d.nodes[y].title == c.nodes[y].title && d.nodes[y].body == c.nodes[y].body
            && (y !in affected ==> d.nodes[y].version == c.nodes[y].version)
            && (forall f: Field :: !f.ReviewedBy? && !f.RejectedBy? && !f.SupportReviewedBy? ==>
                  Get(d.nodes[y].metadata, f) == Get(c.nodes[y].metadata, f))
            && (change.EvidenceRejected? && y != change.id && y !in change.rejectedClaims && y !in change.retainedClaims ==>
                  d.nodes[y].metadata == c.nodes[y].metadata)
            && d.log != [] && d.log[|d.log| - 1].payload.change == change
  {
  }

  lemma SaidOfStamped(c: Canvas, handled: Canvas, d: Canvas, n: Id, change: Change, y: Id)
    requires y in c.nodes && y in handled.nodes && y in d.nodes && RejectionSays(c, handled, n, change, y)
    requires d.nodes[y].title == handled.nodes[y].title && d.nodes[y].body == handled.nodes[y].body
    requires y == n || Impacted(c, n, y) ==> d.nodes[y].version == handled.nodes[y].version
    requires forall f: Field :: !f.ReviewedBy? && !f.RejectedBy? && !f.SupportReviewedBy? ==>
               Get(d.nodes[y].metadata, f) == Get(handled.nodes[y].metadata, f)
    requires y != n && !Impacted(c, n, y) ==> d.nodes[y].metadata == handled.nodes[y].metadata
    ensures RejectionSays(c, d, n, change, y)
  {
    hide Impacted, SomeCarry, Carries, KeyCarried, Get;
  }

  /** What the committed rejection says of every node of the canvas. */
  lemma RejectionOutcome(c: Canvas, id: Id, request: Request, newId: Id, y: Id)
    requires request.RejectEvidence? && ApplyOperation(c, id, request, newId).Committed? && y in c.nodes
    ensures var r := ApplyOperation(c, id, request, newId);
            y in r.canvas.nodes && RejectionSays(c, r.canvas, request.node, r.payload.change, y)
  {
    var n := request.node;
    var handled, capture := Handle(c, request, newId).value, CaptureInvalidation(c, request);
    var affected := ResolveInvalidation(handled.0, request, capture);
    assert handled == RejectEvidenceIn(c, n, request.expected).value && n in c.nodes;
    assert affected == AffectedBy(c, request, newId);
    hide Handle, CaptureInvalidation, ResolveInvalidation, Commit, RejectEvidenceIn, RejectionSays, AffectedBy, LeadsTo, Get;
    HandledRejection(c, n, request.expected, y);
    HandledTouches(c, request, newId, y);
    CommitKeepsSaid(handled.0, DirectKey(id), Direct(request), handled.1, affected, OriginOf(capture), y);
    ChangeNames(c, handled.0, n, handled.1, y);
    SaidOfStamped(c, handled.0, ApplyOperation(c, id, request, newId).canvas, n, handled.1, y);
  }

  lemma ChangeNames(c: Canvas, d: Canvas, n: Id, change: Change, y: Id)
    requires y in c.nodes && y in d.nodes && RejectionSays(c, d, n, change, y)
    ensures change.EvidenceRejected? && change.id == n
    ensures y in change.rejectedClaims + change.retainedClaims <==> Impacted(c, n, y)
  {
    hide Impacted, SomeCarry, Resupported, Get;
  }

  /** The audit stamps of a rejection: the operation's revision, as a rejection or as a review of the support. */
  ghost predicate Stamped(before: Metadata, after: Metadata, revision: nat, rejected: bool, retained: bool) {
    && Get(after, ReviewedBy) == (if rejected || retained then Some(Number(revision)) else Get(before, ReviewedBy))
    && Get(after, RejectedBy) == (if rejected then Some(Number(revision)) else Get(before, RejectedBy))
    && Get(after, SupportReviewedBy) == (if retained then Some(Number(revision)) else Get(before, SupportReviewedBy))
  }

  lemma CommitStamps(c: Canvas, key: Key, audit: Audit, change: Change, affected: set<Id>, origin: Origin, y: Id)
    requires y in c.nodes && change.EvidenceRejected?
    requires y in change.retainedClaims ==> y != change.id && y !in change.rejectedClaims
    ensures var d := Commit(c, key, audit, change, affected, origin);
            y in d.nodes && Stamped(c.nodes[y].metadata, d.nodes[y].metadata, c.revision + 1,
                                    y == change.id || y in change.rejectedClaims, y in change.retainedClaims)
  {
  }

  lemma RejectionKeepsStamps(c: Canvas, n: Id, expected: nat, y: Id)
    requires RejectEvidenceIn(c, n, expected).Ok? && y in c.nodes
    ensures var (d, change) := RejectEvidenceIn(c, n, expected).value;
            && y in d.nodes && d.revision == c.revision && change.EvidenceRejected? && change.id == n
            && Get(d.nodes[y].metadata, ReviewedBy) == Get(c.nodes[y].metadata, ReviewedBy)
            && Get(d.nodes[y].metadata, RejectedBy) == Get(c.nodes[y].metadata, RejectedBy)
            && Get(d.nodes[y].metadata, SupportReviewedBy) == Get(c.nodes[y].metadata, SupportReviewedBy)
            && (y in change.retainedClaims ==> y != n && y !in change.rejectedClaims)
  {
    ImpactedIff(c, n, n);
    hide RemainingSources, IndependenceKeys, ImpactedClaims, Impacted;
  }

  lemma RejectionListed(c: Canvas, d: Canvas, n: Id, change: Change, y: Id)
    requires y in c.nodes && y in d.nodes && RejectionSays(c, d, n, change, y)
    ensures change.EvidenceRejected? && change.id == n
    ensures y in change.rejectedClaims <==> Impacted(c, n, y) && !SomeCarry(c, y, n)
    ensures y in change.retainedClaims <==> Impacted(c, n, y) && SomeCarry(c, y, n)
  {
    hide Impacted, SomeCarry, Resupported, Get;
  }

  /** A committed rejection is the commit of what was handled. */
  lemma RejectionCommitted(c: Canvas, id: Id, request: Request, newId: Id) returns (affected: set<Id>, origin: Origin)
    requires request.RejectEvidence? && ApplyOperation(c, id, request, newId).Committed?
    ensures RejectEvidenceIn(c, request.node, request.expected).Ok?
    ensures var handled := RejectEvidenceIn(c, request.node, request.expected).value;
            var d := Commit(handled.0, DirectKey(id), Direct(request), handled.1, affected, origin);
            d.log != [] && ApplyOperation(c, id, request, newId) == Committed(d, d.log[|d.log| - 1].payload)
  {
    hide RejectEvidenceIn, CaptureInvalidation, ResolveInvalidation, MarkStale, Stamp, StaleTargets, NewlyStale;
    var handled, capture := Handle(c, request, newId).value, CaptureInvalidation(c, request);
    affected, origin := ResolveInvalidation(handled.0, request, capture), OriginOf(capture);
  }

  /** The rejected evidence and the claims that lost their last source are stamped as rejected, the other claims that
      rested on it as reviewed, and nothing else is stamped. */
  lemma RejectionStamps(c: Canvas, id: Id, request: Request, newId: Id, y: Id)
    requires request.RejectEvidence? && ApplyOperation(c, id, request, newId).Committed? && y in c.nodes
    ensures var r, n := ApplyOperation(c, id, request, newId), request.node;
            y in r.canvas.nodes && Stamped(c.nodes[y].metadata, r.canvas.nodes[y].metadata, c.revision + 1,
                                           y == n || (Impacted(c, n, y) && !SomeCarry(c, y, n)),
                                           Impacted(c, n, y) && SomeCarry(c, y, n))
  {
    hide *;
    RejectionOutcome(c, id, request, newId, y);
    var affected, origin := RejectionCommitted(c, id, request, newId);
    var handled, d := RejectEvidenceIn(c, request.node, request.expected).value, ApplyOperation(c, id, request, newId).canvas;
    RejectionKeepsStamps(c, request.node, request.expected, y);
    CommitStamps(handled.0, DirectKey(id), Direct(request), handled.1, affected, origin, y);
    CommitKeepsSaid(handled.0, DirectKey(id), Direct(request), handled.1, affected, origin, y);
    RejectionListed(c, d, request.node, handled.1, y);
    StampsPassOn(c.nodes[y].metadata, handled.0.nodes[y].metadata, d.nodes[y].metadata, c.revision + 1,
                 y == request.node || y in handled.1.rejectedClaims, y in handled.1.retainedClaims);
  }

  lemma StampsPassOn(before: Metadata, mid: Metadata, after: Metadata, revision: nat, rejected: bool, retained: bool)
    requires Stamped(mid, after, revision, rejected, retained)
    requires Get(mid, ReviewedBy) == Get(before, ReviewedBy) && Get(mid, RejectedBy) == Get(before, RejectedBy)
             && Get(mid, SupportReviewedBy) == Get(before, SupportReviewedBy)
    ensures Stamped(before, after, revision, rejected, retained)
  {
  }
}

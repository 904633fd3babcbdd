/** The canvas tables as mutable state: each operation rewrites rows in place, step by step, and
    is proved to have exactly the outcome of the canvas model. */
module CanvasStore {
  import opened Reachability
  import opened GraphTypes
  import opened Ordering
  import GraphSearch
  import opened CanvasModel
  import opened PatchCandidates

  /** The handler either has the outcome of the model or refuses and leaves every row alone. */
  ghost predicate Handled(before: Canvas, after: Canvas, request: Request, newId: Id, r: Result<Change>) {
    match Handle(before, request, newId)
    case Ok(done) => r == Ok(done.1) && after == done.0
    case Err(error) => r == Err(error) && after == before
  }

  /** The claims seen so far are recomputed, and sorted into those without and those with a remaining source. */
  ghost predicate RecomputedSoFar(before: Canvas, nodes: map<Id, Node>, id: Id, seen: seq<Id>, rejected: set<Id>, retained: set<Id>) {
    && nodes.Keys == before.nodes.Keys
    && (forall n :: n in before.nodes ==> nodes[n] == if n in seen then RecomputedClaim(before, n, id) else before.nodes[n])
    && rejected == (set n | n in seen && RemainingSources(before, n, id) == {})
    && retained == (set n | n in seen && RemainingSources(before, n, id) != {})
  }

  lemma NothingRecomputed(before: Canvas, id: Id)
    ensures RecomputedSoFar(before, before.nodes, id, [], {}, {})
  {
  }

  lemma RecomputedOneMore(before: Canvas, nodes: map<Id, Node>, id: Id, order: seq<Id>, i: nat, rejected: set<Id>, retained: set<Id>)
    requires i < |order| && order[i] in before.nodes && RecomputedSoFar(before, nodes, id, order[..i], rejected, retained)
    ensures var claim := order[i]; var none := RemainingSources(before, claim, id) == {};
            RecomputedSoFar(before, nodes[claim := RecomputedClaim(before, claim, id)], id, order[..i + 1],
                            if none then rejected + {claim} else rejected, if none then retained else retained + {claim})
  {
    hide RecomputedClaim, RemainingSources;
    assert order[..i + 1] == order[..i] + [order[i]];
  }

  lemma RecomputedAll(before: Canvas, nodes: map<Id, Node>, id: Id, order: seq<Id>, rejected: set<Id>, retained: set<Id>)
    requires id in before.nodes && id !in ImpactedClaims(before, id) && (forall n :: n in order <==> n in ImpactedClaims(before, id))
    requires RecomputedSoFar(before, nodes, id, order, rejected, retained)
    ensures nodes.Keys == before.nodes.Keys && nodes[id] == before.nodes[id]
    ensures forall n :: n in nodes && n != id ==>
      nodes[n] == if n in ImpactedClaims(before, id) then RecomputedClaim(before, n, id) else before.nodes[n]
    ensures rejected == set n | n in ImpactedClaims(before, id) && RemainingSources(before, n, id) == {}
    ensures retained == set n | n in ImpactedClaims(before, id) && RemainingSources(before, n, id) != {}
  {
    hide RecomputedClaim, RemainingSources, ImpactedClaims;
  }

  class Store {
    var nodes: map<Id, Node>
    var edges: map<Id, Edge>
    var causes: map<Id, seq<Cause>>
    var ingested: set<Id>
    var revision: nat
    var log: seq<Entry>

    constructor ()
      ensures State() == Canvas(map[], map[], map[], {}, 0, [])
    {
      nodes, edges, causes, ingested, revision, log := map[], map[], map[], {}, 0, [];
    }

    ghost function State(): Canvas
      reads this
    {
      Canvas(nodes, edges, causes, ingested, revision, log)
    }

    method AddNodeRow(request: Request, newId: Id) returns (r: Result<Change>)
      requires request.AddNode?
      modifies this`nodes
      ensures Handled(old(State()), State(), request, newId, r)
    {
      var bad := CheckMetadata(request.kind, request.metadata);
      if bad.Some? { return Err(bad.value); }
      var root := ConstraintRoot(nodes, request.kind, request.metadata, request.root);
      if root.Err? { return Err(root.error); }
      if request.title == "" { return Err(InvalidTitle); }
      if newId in nodes { return Err(IntegrityError); }
      var node := Node(request.kind, request.title, request.body, request.metadata, root.value, request.position,
                       false, None, 1, 1);
      nodes := nodes[newId := node];
      return Ok(NodeSaved(newId));
    }

    method SemanticNodeChanges(request: Request, newId: Id) returns (r: Result<Change>)
      requires request.UpdateNode? || request.PatchNodeMetadata?
      modifies this`nodes
      ensures Handled(old(State()), State(), request, newId, r)
    {
      hide ConstraintRoot, CheckMetadata, Get;
      var id := request.node;
      if id !in nodes { return Err(NodeNotFound); }
      var node := nodes[id];
      if node.version != request.expected { return Err(VersionConflict); }
      var newTitle, newBody, fields := None, None, map[];
      if request.PatchNodeMetadata? {
        fields := request.fields;
      } else {
        newTitle, newBody := request.newTitle, request.newBody;
        if request.patch.Some? { fields := request.patch.value; }
      }
      if newTitle.None? && newBody.None? && request.root.MissingRoot? && fields == map[] { return Err(EmptyUpdate); }
      var bad := CheckMetadata(node.kind, fields);
      if bad.Some? { return Err(bad.value); }
      var metadata := node.metadata + fields;
      var rootValue := request.root;
      if node.kind == Constraint && rootValue.MissingRoot? {
        if Get(metadata, ContextScope) == Some(Text(GlobalScope)) {
          rootValue := NullRoot;
        } else if node.branchRoot.Some? {
          rootValue := Root(node.branchRoot.value);
        }
      }
      var branchRoot := ConstraintRoot(nodes, node.kind, metadata, rootValue);
      if branchRoot.Err? { return Err(branchRoot.error); }
      if newTitle == Some("") { return Err(InvalidTitle); }
      if newTitle.Some? { node := node.(title := newTitle.value); }
      if newBody.Some? { node := node.(body := newBody.value); }
      node := node.(metadata := metadata, branchRoot := branchRoot.value);
      node := node.(version := node.version + 1);
      nodes := nodes[id := node];
      return Ok(NodeSaved(id));
    }

    method MoveNodeRow(request: Request, newId: Id) returns (r: Result<Change>)
      requires request.MoveNode?
      modifies this`nodes
      ensures Handled(old(State()), State(), request, newId, r)
    {
      if request.node !in nodes { return Err(NodeNotFound); }
      var node := nodes[request.node];
      if node.positionVersion != request.expected { return Err(VersionConflict); }
      node := node.(position := Some(request.to));
      node := node.(positionVersion := node.positionVersion + 1);
      nodes := nodes[request.node := node];
      return Ok(NodeSaved(request.node));
    }

    method DeleteNodeRow(request: Request, newId: Id) returns (r: Result<Change>)
      requires request.DeleteNode?
      modifies this`nodes, this`causes
      ensures Handled(old(State()), State(), request, newId, r)
    {
      var id := request.node;
      if id !in nodes { return Err(NodeNotFound); }
      if nodes[id].version != request.expected { return Err(VersionConflict); }
      var incident := set e | e in edges && Incident(edges, e, id);
      var anchored := set n | n in nodes && nodes[n].branchRoot == Some(id);
      assert forall e :: e in edges && Incident(edges, e, id) ==> e in incident;
      assert forall n :: n in nodes && nodes[n].branchRoot == Some(id) ==> n in anchored;
      if incident != {} || anchored != {} { return Err(NodeHasDependencies); }
      if id in ingested { return Err(IntegrityError); }
      nodes, causes := nodes - {id}, causes - {id};
      return Ok(NodeDeleted(id));
    }

    method AddEdgeRow(request: Request, newId: Id) returns (r: Result<Change>)
      requires request.AddEdge?
      modifies this`edges
      ensures Handled(old(State()), State(), request, newId, r)
    {
      if request.source !in nodes || request.target !in nodes { return Err(InvalidEdgeEndpoint); }
      if newId in edges { return Err(IntegrityError); }
      edges := edges[newId := Edge(request.source, request.target, request.edgeKind, request.metadata, 1)];
      return Ok(EdgeSaved(newId));
    }

    method UpdateEdgeRow(request: Request, newId: Id) returns (r: Result<Change>)
      requires request.UpdateEdge?
      modifies this`edges
      ensures Handled(old(State()), State(), request, newId, r)
    {
      if request.edge !in edges { return Err(EdgeNotFound); }
      var edge := edges[request.edge];
      if edge.version != request.expected { return Err(VersionConflict); }
      if request.newSource.None? && request.newTarget.None? && request.newKind.None? && request.newMetadata.None? {
        return Err(EmptyUpdate);
      }
      if request.newSource.Some? { edge := edge.(source := request.newSource.value); }
      if request.newTarget.Some? { edge := edge.(target := request.newTarget.value); }
      if edge.source !in nodes || edge.target !in nodes { return Err(InvalidEdgeEndpoint); }
      if request.newKind.Some? { edge := edge.(kind := request.newKind.value); }
      if request.newMetadata.Some? { edge := edge.(metadata := request.newMetadata.value); }
      edge := edge.(version := edge.version + 1);
      edges := edges[request.edge := edge];
      return Ok(EdgeSaved(request.edge));
    }

    method DeleteEdgeRow(request: Request, newId: Id) returns (r: Result<Change>)
      requires request.DeleteEdge?
      modifies this`edges
      ensures Handled(old(State()), State(), request, newId, r)
    {
      if request.edge !in edges { return Err(EdgeNotFound); }
      if edges[request.edge].version != request.expected { return Err(VersionConflict); }
      edges := edges - {request.edge};
      return Ok(EdgeDeleted(request.edge));
    }

    method ReplaceAssumptionRow(request: Request, newId: Id) returns (r: Result<Change>)
      requires request.ReplaceAssumption?
      modifies this`nodes
      ensures Handled(old(State()), State(), request, newId, r)
    {
      var id := request.node;
      if id !in nodes { return Err(NodeNotFound); }
      var node := nodes[id];
      if node.kind != Assumption || !HasReview(node.metadata, Accepted) { return Err(InvalidAssumption); }
      if node.version != request.expected { return Err(VersionConflict); }
      var ownerIds := set e | e in edges && edges[e].kind == DerivedFrom && edges[e].target == id
                              && edges[e].source in nodes && nodes[edges[e].source].kind == Opportunity :: edges[e].source;
      assert ownerIds == Owners(State(), id);
      if |ownerIds| != 1 { return Err(InvalidAssumptionLineage); }
      if request.replacement == "" { return Err(InvalidTitle); }
      var owner := TheOnly(ownerIds);
      var previous := node;
      node := node.(title := request.replacement);
      if request.replacementBody.Some? {
        node := node.(body := request.replacementBody.value);
      } else {
        node := node.(body := Some(node.title));
      }
      node := node.(version := node.version + 1);
      nodes := nodes[id := node];
      return Ok(AssumptionReplaced(id, previous.title, previous.body, previous.version, owner));
    }

    /** The claims of a rejected source: support is recomputed from their remaining sources. */
    method RecomputeClaims(id: Id) returns (rejected: set<Id>, retained: set<Id>)
      requires id in nodes
      modifies this`nodes
      ensures nodes.Keys == old(nodes.Keys) && nodes[id] == old(nodes[id])
      ensures forall n :: n in nodes && n != id ==>
        nodes[n] == if n in ImpactedClaims(old(State()), id) then RecomputedClaim(old(State()), n, id) else old(nodes[n])
      ensures rejected == set n | n in ImpactedClaims(old(State()), id) && RemainingSources(old(State()), n, id) == {}
      ensures retained == set n | n in ImpactedClaims(old(State()), id) && RemainingSources(old(State()), n, id) != {}
    {
      var before := Canvas(nodes, edges, causes, ingested, revision, log);
      ImpactedAreOtherNodes(before, id);
      NothingRecomputed(before, id);
      hide *;
      var order := Sorted(ImpactedClaims(before, id));
      rejected, retained := {}, {};
      for i := 0 to |order|
        modifies this`nodes
        invariant RecomputedSoFar(before, nodes, id, order[..i], rejected, retained)
      {
        var claim := order[i];
        RecomputedOneMore(before, nodes, id, order, i, rejected, retained);
        nodes := nodes[claim := RecomputedClaim(before, claim, id)];
        if RemainingSources(before, claim, id) == {} {
          rejected := rejected + {claim};
        } else {
          retained := retained + {claim};
        }
      }
      assert order[..|order|] == order;
      RecomputedAll(before, nodes, id, order, rejected, retained);
    }

    method RejectEvidenceRow(request: Request, newId: Id) returns (r: Result<Change>)
      requires request.RejectEvidence?
      modifies this`nodes
      ensures Handled(old(State()), State(), request, newId, r)
    {
      hide RecomputedClaim, RemainingSources, ImpactedClaims, HasReview;
      var id := request.node;
      if id !in nodes { return Err(NodeNotFound); }
      var evidence := nodes[id];
      if evidence.kind != Source && evidence.kind != Claim { return Err(InvalidEvidence); }
      if HasReview(evidence.metadata, Provisional) { return Err(InvalidEvidence); }
      if HasReview(evidence.metadata, Rejected) { return Err(EvidenceAlreadyRejected); }
      if evidence.version != request.expected { return Err(VersionConflict); }
      var rejected, retained := RecomputeClaims(id);
      evidence := evidence.(metadata := evidence.metadata[ReviewStatus := Text(Rejected)]);
      evidence := evidence.(version := evidence.version + 1);
      nodes := nodes[id := evidence];
      RejectionAssembled(old(State()), id, nodes, rejected, retained);
      return Ok(EvidenceRejected(id, rejected, retained));
    }

    method DispatchHandler(request: Request, newId: Id) returns (r: Result<Change>)
      modifies this`nodes, this`edges, this`causes
      ensures Handled(old(State()), State(), request, newId, r)
    {
      hide Handled;
      match request {
        case AddNode(_, _, _, _, _, _) => r := AddNodeRow(request, newId);
        case UpdateNode(_, _, _, _, _, _) => r := SemanticNodeChanges(request, newId);
        case PatchNodeMetadata(_, _, _, _) => r := SemanticNodeChanges(request, newId);
        case MoveNode(_, _, _) => r := MoveNodeRow(request, newId);
        case DeleteNode(_, _) => r := DeleteNodeRow(request, newId);
        case AddEdge(_, _, _, _) => r := AddEdgeRow(request, newId);
        case UpdateEdge(_, _, _, _, _, _) => r := UpdateEdgeRow(request, newId);
        case DeleteEdge(_, _) => r := DeleteEdgeRow(request, newId);
        case ReplaceAssumption(_, _, _, _) => r := ReplaceAssumptionRow(request, newId);
        case RejectEvidence(_, _) => r := RejectEvidenceRow(request, newId);
      }
    }

    method CaptureDirectInvalidation(request: Request) returns (capture: Capture)
      ensures capture == CaptureInvalidation(State(), request)
    {
      hide Dependencies, Owners, ExtractedClaims, PairOf;
      match request {
        case UpdateNode(n, _, _, _, _, _) => capture := Captured(FromNode(n), {n}, false, {n}, {});
        case PatchNodeMetadata(n, _, _, _) => capture := Captured(FromNode(n), {n}, false, {n}, {});
        case DeleteNode(n, _) =>
          var affected := GraphSearch.ReachableDependents(edges, {n}, false, {n});
          capture := Captured(FromNode(n), {}, false, {}, affected);
        case UpdateEdge(e, _, _, _, _, _) =>
          capture := if e in edges then Captured(FromEdge(e), {PairOf(edges[e]).1}, true, {}, {}) else NoCapture;
        case DeleteEdge(e, _) =>
          capture := if e in edges then Captured(FromEdge(e), {PairOf(edges[e]).1}, true, {}, {}) else NoCapture;
        case ReplaceAssumption(n, _, _, _) =>
          var owners := Owners(Canvas(nodes, edges, causes, ingested, revision, log), n);
          capture := Captured(FromNode(n), owners, true, {n}, {});
        case RejectEvidence(n, _) =>
          if n !in nodes || (nodes[n].kind != Source && nodes[n].kind != Claim) {
            return NoCapture;
          }
          var roots := {n};
          if nodes[n].kind == Source {
            roots := roots + ExtractedClaims(Canvas(nodes, edges, causes, ingested, revision, log), n);
          }
          capture := Captured(FromNode(n), roots, false, roots, {});
        case AddNode(_, _, _, _, _, _) => capture := NoCapture;
        case MoveNode(_, _, _) => capture := NoCapture;
        case AddEdge(_, _, _, _) => capture := NoCapture;
      }
    }

    method ResolveDirectInvalidation(request: Request, capture: Capture) returns (affected: set<Id>)
      ensures affected == ResolveInvalidation(State(), request, capture)
    {
      hide Dependencies, PairOf;
      if capture.NoCapture? { return {}; }
      if capture.precomputed != {} { return capture.precomputed; }
      var roots := capture.roots;
      if request.UpdateEdge? && request.edge in edges {
        roots := roots + {PairOf(edges[request.edge]).1};
      }
      affected := GraphSearch.ReachableDependents(edges, roots, capture.includeRoots, capture.excluded);
    }

    /** Adds one cause per eligible node, and stales those that were fresh. */
    method ApplyStaleness(eligible: set<Id>, newRevision: nat, origin: Origin)
      requires eligible <= nodes.Keys
      modifies this`nodes, this`causes
      ensures State() == MarkStale(old(State()), eligible, newRevision, origin)
    {
      hide Staled;
      var order := Sorted(eligible);
      ghost var done := {};
      MarkNone(State(), newRevision, origin);
      for i := 0 to |order|
        modifies this`nodes, this`causes
        invariant done <= old(nodes.Keys) && forall n :: n in done <==> n in order[..i]
        invariant State() == MarkStale(old(State()), done, newRevision, origin)
      {
        assert order[..i + 1] == order[..i] + [order[i]];
        var id := order[i];
        assert id !in order[..i];
        causes := causes[id := CausesOf(causes, id) + [Cause(newRevision, origin)]];
        nodes := nodes[id := Staled(nodes[id], newRevision)];
        MarkOneMore(old(State()), done, id, newRevision, origin);
        done := done + {id};
      }
      assert order[..|order|] == order;
      assert done == eligible;
    }

    /** The common end of every operation: log it, stale what depends on it, advance the revision. */
    method CommitChange(key: Key, audit: Audit, change: Change, affected: set<Id>, origin: Origin) returns (payload: Payload)
      modifies this
      ensures State() == Commit(old(State()), key, audit, change, affected, origin)
      ensures payload == log[|log| - 1].payload
    {
      hide StaleTargets, NewlyStale, MarkStale, Stamp, Commit;
      ghost var changed := State();
      var eligible := StaleTargets(nodes, affected);
      EligibleExist(nodes, affected);
      var newly := NewlyStale(nodes, eligible);
      var newRevision := revision + 1;
      payload := Payload(newRevision, change, eligible, newly);
      log := log + [Entry(key, audit, payload)];
      nodes := Stamp(nodes, change, newRevision);
      StampKeepsKeys(changed.nodes, change, newRevision);
      ApplyStaleness(eligible, newRevision, origin);
      revision := newRevision;
      CommitAssembled(changed, key, audit, change, affected, origin, payload);
    }

    /** Rolling a transaction back. */
    method Restore(saved: Canvas)
      modifies this
      ensures State() == saved
    {
      nodes, edges, causes, ingested, revision, log :=
        saved.nodes, saved.edges, saved.causes, saved.ingested, saved.revision, saved.log;
    }

    /** One transaction: replay a known key, or handle, log, stale what depends on the change, and
        advance the revision. A refused operation leaves the canvas as it was. */
    method ApplyGraphOperation(id: Id, request: Request, newId: Id) returns (payload: Result<Payload>)
      requires forall i, j :: 0 <= i < j < |log| ==> log[i].key != log[j].key
      modifies this
      ensures match ApplyOperation(old(State()), id, request, newId)
              case Replayed(p) => payload == Ok(p) && State() == old(State())
              case Committed(after, p) => payload == Ok(p) && State() == after
              case Failed(error) => payload == Err(error) && State() == old(State())
    {
      hide Handle, CaptureInvalidation, ResolveInvalidation, Commit;
      var existing := FindKey(log, DirectKey(id));
      if existing.Some? {
        var entry := log[existing.value];
        assert KeyUsed(log, DirectKey(id), existing.value);
        if entry.audit != Direct(request) { return Err(OperationKeyConflict); }
        return Ok(entry.payload);
      }
      var capture := CaptureDirectInvalidation(request);
      var handled := DispatchHandler(request, newId);
      if handled.Err? { return Err(handled.error); }
      var affected := ResolveDirectInvalidation(request, capture);
      var result := CommitChange(DirectKey(id), Direct(request), handled.value, affected, OriginOf(capture));
      return Ok(result);
    }

    /** One candidate of a patch: the entity change, then the same logging and invalidation as a
        direct operation, except that nodes the patch deletes are not staled first. */
    method ApplyCandidateOperation(patch: Id, operation: Id, op: Candidate, ids: IdMap, excludedIds: set<Id>)
      returns (r: Checked<Payload>)
      requires forall i, j :: 0 <= i < j < |log| ==> log[i].key != log[j].key
      modifies this
      ensures match ApplyCandidate(old(State()), patch, operation, op, ids, excludedIds)
              case Fine(done) => r == Fine(done.1) && State() == done.0
              case Refused(conflict) => r == Refused(conflict) && State() == old(State())
    {
      hide HandleCandidate, CaptureInvalidation, ResolveInvalidation, Commit, InvalidationView;
      var key := PatchKey(patch, operation);
      var existing := FindKey(log, key);
      if existing.Some? {
        var entry := log[existing.value];
        assert KeyUsed(log, key, existing.value);
        if entry.audit != FromPatch(patch, operation, op) { return Refused(KeyConflict); }
        return Fine(entry.payload);
      }
      var view := InvalidationView(op);
      var capture := NoCapture;
      if view.Some? {
        capture := CaptureDirectInvalidation(view.value);
      }
      var handled := HandleCandidate(Canvas(nodes, edges, causes, ingested, revision, log), patch, op, ids);
      if handled.Refused? { return Refused(handled.conflict); }
      CandidateBooks(State(), patch, op, ids);
      nodes, edges, causes := handled.value.0.nodes, handled.value.0.edges, handled.value.0.causes;
      var affected := {};
      if view.Some? {
        affected := ResolveDirectInvalidation(view.value, capture);
        affected := affected - excludedIds;
      }
      var result := CommitChange(key, FromPatch(patch, operation, op), handled.value.1, affected, OriginOf(capture));
      return Fine(result);
    }
  }

  /** A candidate changes rows only, never the log, the revision or the ingestion links. */
  lemma CandidateBooks(c: Canvas, patch: Id, op: Candidate, ids: IdMap)
    requires HandleCandidate(c, patch, op, ids).Fine?
    ensures var d := HandleCandidate(c, patch, op, ids).value.0;
            d == c.(nodes := d.nodes, edges := d.edges, causes := d.causes)
  {
  }

  method FindKey(log: seq<Entry>, key: Key) returns (r: Option<nat>)
    ensures r.None? ==> forall i: nat :: !KeyUsed(log, key, i)
    ensures r.Some? ==> KeyUsed(log, key, r.value)
  {
    for i := 0 to |log|
      invariant forall j: nat :: j < i ==> !KeyUsed(log, key, j)
    {
      if log[i].key == key {
        return Some(i);
      }
    }
    return None;
  }

  lemma EligibleExist(nodes: map<Id, Node>, affected: set<Id>)
    ensures StaleTargets(nodes, affected) <= nodes.Keys
  {
  }

  lemma StampKeepsKeys(nodes: map<Id, Node>, change: Change, revision: nat)
    ensures Stamp(nodes, change, revision).Keys == nodes.Keys
  {
  }

  ghost function MarkedOne(c: Canvas, id: Id, revision: nat, origin: Origin): Canvas
    requires id in c.nodes
  {
    c.(nodes := c.nodes[id := Staled(c.nodes[id], revision)],
       causes := c.causes[id := CausesOf(c.causes, id) + [Cause(revision, origin)]])
  }

  lemma MarkNone(c: Canvas, revision: nat, origin: Origin)
    ensures MarkStale(c, {}, revision, origin) == c
  {
    assert MarkStale(c, {}, revision, origin).nodes == c.nodes;
    assert MarkStale(c, {}, revision, origin).causes == c.causes;
  }

  lemma MarkOneMore(c: Canvas, ids: set<Id>, id: Id, revision: nat, origin: Origin)
    requires id in c.nodes && id !in ids
    ensures MarkStale(c, ids + {id}, revision, origin) == MarkedOne(MarkStale(c, ids, revision, origin), id, revision, origin)
  {
    hide Staled;
    var m, more := MarkStale(c, ids, revision, origin), MarkStale(c, ids + {id}, revision, origin);
    assert more.nodes == m.nodes[id := Staled(m.nodes[id], revision)];
    assert more.causes == m.causes[id := CausesOf(m.causes, id) + [Cause(revision, origin)]];
  }

  /** The order of the table writes does not matter: stamping, marking and logging in turn is the commit. */
  lemma CommitAssembled(c: Canvas, key: Key, audit: Audit, change: Change, affected: set<Id>, origin: Origin, payload: Payload)
    requires payload.revision == c.revision + 1 && payload.change == change
    requires payload.stale == StaleTargets(c.nodes, affected) && payload.newlyStale == NewlyStale(c.nodes, payload.stale)
    ensures var log := c.log + [Entry(key, audit, payload)];
            var stamped := c.(nodes := Stamp(c.nodes, change, payload.revision), log := log);
            Commit(c, key, audit, change, affected, origin)
            == MarkStale(stamped, payload.stale, payload.revision, origin).(revision := payload.revision)
    ensures var after := Commit(c, key, audit, change, affected, origin);
            |after.log| > 0 && after.log[|after.log| - 1].payload == payload
  {
    hide StaleTargets, NewlyStale, Stamp;
  }

  /** The rewritten rows and the two claim lists together are the outcome of the rejection. */
  lemma RejectionAssembled(c: Canvas, id: Id, nodes: map<Id, Node>, rejected: set<Id>, retained: set<Id>)
    requires id in c.nodes && nodes.Keys == c.nodes.Keys && RejectEvidenceIn(c, id, c.nodes[id].version).Ok?
    requires nodes[id] == c.nodes[id].(metadata := c.nodes[id].metadata[ReviewStatus := Text(Rejected)],
                                       version := c.nodes[id].version + 1)
    requires forall n :: n in c.nodes && n != id ==>
      nodes[n] == if n in ImpactedClaims(c, id) then RecomputedClaim(c, n, id) else c.nodes[n]
    requires rejected == set n | n in ImpactedClaims(c, id) && RemainingSources(c, n, id) == {}
    requires retained == set n | n in ImpactedClaims(c, id) && RemainingSources(c, n, id) != {}
    ensures RejectEvidenceIn(c, id, c.nodes[id].version)
         == Ok((c.(nodes := nodes), EvidenceRejected(id, rejected, retained)))
  {
    hide RecomputedClaim, RemainingSources, ImpactedClaims, HasReview;
    var result := RejectEvidenceIn(c, id, c.nodes[id].version).value;
    assert result.0.nodes == nodes;
    assert result.1 == EvidenceRejected(id, rejected, retained) by {
      assert retained == ImpactedClaims(c, id) - rejected;
    }
  }

  lemma ImpactedAreOtherNodes(c: Canvas, id: Id)
    requires id in c.nodes
    ensures forall n :: n in ImpactedClaims(c, id) ==> n in c.nodes && n != id
  {
  }
}

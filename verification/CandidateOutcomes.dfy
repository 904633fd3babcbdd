/** What an applied candidate makes of a canvas, read field by field, what becomes stale by it, and which candidates pass
    the check before anything is applied (proofgraph/generation/patch_application.py:520-1170). */
module CandidateOutcomes {
  import opened Reachability
  import opened GraphTypes
  import opened DependencyPaths
  import opened CanvasModel
  import opened CanvasInvalidation
  import opened CanvasOutcomes
  import opened PatchCandidates

  // ---- references ----

  /** The identity a reference stands for: a local name first, else the identity it spells. */
  function Meant(token: Token, ids: IdMap): Option<Id> {
    if token in ids then Some(ids[token])
    else match token
         case IdText(id) => Some(id)
         case IdSpelling(id, _) => Some(id)
         case _ => None
  }

  /** In an update, local names are replaced by the text of their identity before they are read as references. */
  function MeantInUpdate(token: Token, ids: IdMap): Option<Id> {
    Meant(if token in ids then IdText(ids[token]) else token, ids)
  }

  /** The same value with every local name in it replaced by the text of its identity. */
  ghost predicate RewritesTo(value: Value, after: Value, ids: IdMap)
    decreases value
  {
    match value
    case Text(t) => after == Text(if t in ids then IdText(ids[t]) else t)
    case Items(items) =>
      after.Items? && |after.items| == |items| && forall i :: 0 <= i < |items| ==> RewritesTo(items[i], after.items[i], ids)
    case _ => after == value
  }

  ghost predicate FieldRewritten(value: Option<Value>, after: Option<Value>, ids: IdMap) {
    match value
    case None => after == None
    case Some(v) => after.Some? && RewritesTo(v, after.value, ids)
  }

  lemma {:induction false} RewriteIs(value: Value, ids: IdMap)
    ensures RewritesTo(value, Rewrite(value, ids), ids)
    decreases value
  {
    if value.Items? {
      forall i | 0 <= i < |value.items| ensures RewritesTo(value.items[i], Rewrite(value, ids).items[i], ids) {
        RewriteIs(value.items[i], ids);
      }
    }
  }

  lemma AllRewritten(metadata: Metadata, ids: IdMap, f: Field)
    ensures FieldRewritten(Get(metadata, f), Get(RewriteAll(metadata, ids), f), ids)
  {
    if f in metadata {
      RewriteIs(metadata[f], ids);
    }
  }

  // ---- nodes ----

  /** A node that a patch adds is accepted, and says which patch added it. */
  ghost predicate AddedAs(patch: Id, op: Candidate, ids: IdMap, node: Node)
    requires op.AddNodeCandidate?
  {
    && node.kind == op.kind && node.title == op.title && node.body == op.body && node.position == op.position
    && Get(node.metadata, ReviewStatus) == Some(Text(Accepted)) && Get(node.metadata, SourcePatch) == Some(Text(IdText(patch)))
    && (forall f: Field :: f != ReviewStatus && f != SourcePatch ==> FieldRewritten(Get(op.metadata, f), Get(node.metadata, f), ids))
    && node.branchRoot == (if op.kind == Constraint && op.root.Some? then Meant(op.root.value, ids) else None)
    && !node.stale && node.staleSince == None && node.version == 1 && node.positionVersion == 1
  }

  predicate EditsAt(op: Candidate, ids: IdMap, y: Id) {
    (op.UpdateNodeCandidate? || op.PatchMetadataCandidate?) && Meant(op.node, ids) == Some(y)
  }

  function FieldsGiven(op: Candidate): Metadata {
    match op
    case UpdateNodeCandidate(_, _, _, _, Some(patch), _) => patch
    case PatchMetadataCandidate(_, _, fields) => fields
    case _ => map[]
  }

  /** The given root, or none when it is taken away; an edit that says nothing of it keeps what the node has. A constraint
      that is not a branch constraint ends up without one. */
  ghost predicate RootEdited(op: Candidate, ids: IdMap, before: Node, after: Node) {
    if op.UpdateNodeCandidate? && op.newRoot.Some? then
      after.branchRoot == match op.newRoot.value case Some(token) => MeantInUpdate(token, ids) case None => None
    else if before.kind == Constraint && before.branchRoot.Some? then
      after.branchRoot == Meant(IdText(before.branchRoot.value), ids)
    else after.branchRoot == before.branchRoot
  }

  ghost predicate ChangedAs(op: Candidate, ids: IdMap, y: Id, before: Node, after: Node, goes: bool, revision: nat) {
    var edited, moved := EditsAt(op, ids, y), op.MoveNodeCandidate? && Meant(op.node, ids) == Some(y);
    && after.kind == before.kind
    && after.title == (if edited && op.UpdateNodeCandidate? && op.newTitle.Some? then op.newTitle.value else before.title)
    && after.body == (if edited && op.UpdateNodeCandidate? && op.newBody.Some? then op.newBody.value else before.body)
    && (forall f: Field ::
          if edited && f in FieldsGiven(op) then FieldRewritten(Some(FieldsGiven(op)[f]), Get(after.metadata, f), ids)
          else Get(after.metadata, f) == Get(before.metadata, f))
    && (if edited then RootEdited(op, ids, before, after) else after.branchRoot == before.branchRoot)
    && after.position == (if moved then Some(op.to) else before.position)
    && after.positionVersion == before.positionVersion + (if moved then 1 else 0)
    && after.version == before.version + (if edited then 1 else 0) + (if goes then 1 else 0)
    && after.stale == (before.stale || goes) && after.staleSince == (if goes then Some(revision) else before.staleSince)
  }

  ghost predicate CandidateNodesLaw(c: Canvas, patch: Id, op: Candidate, ids: IdMap, d: Canvas, newly: set<Id>, y: Id) {
    if y in c.nodes then
      if op.DeleteNodeCandidate? && Meant(op.node, ids) == Some(y) then y !in d.nodes
      else y in d.nodes && ChangedAs(op, ids, y, c.nodes[y], d.nodes[y], y in newly, c.revision + 1)
    else if op.AddNodeCandidate? && Meant(op.local, ids) == Some(y) then
      y in d.nodes && y !in newly && AddedAs(patch, op, ids, d.nodes[y])
    else y !in d.nodes
  }

  // ---- edges ----

  ghost predicate EndGiven(token: Option<Token>, ids: IdMap, before: Id, after: Id) {
    match token
    case Some(t) => MeantInUpdate(t, ids) == Some(after)
    case None => after == before
  }

  ghost predicate EdgeAdded(patch: Id, op: Candidate, ids: IdMap, edge: Edge)
    requires op.AddEdgeCandidate?
  {
    && Meant(op.source, ids) == Some(edge.source) && Meant(op.target, ids) == Some(edge.target)
    && edge.kind == op.edgeKind && edge.version == 1 && Get(edge.metadata, SourcePatch) == Some(Text(IdText(patch)))
    && forall f: Field :: f != SourcePatch ==> FieldRewritten(Get(op.metadata, f), Get(edge.metadata, f), ids)
  }

  ghost predicate EdgeChanged(op: Candidate, ids: IdMap, before: Edge, after: Edge)
    requires op.UpdateEdgeCandidate?
  {
    && EndGiven(op.newSource, ids, before.source, after.source) && EndGiven(op.newTarget, ids, before.target, after.target)
    && after.kind == (if op.newKind.Some? then op.newKind.value else before.kind) && after.version == before.version + 1
    && match op.newMetadata
       case Some(given) => forall f: Field :: FieldRewritten(Get(given, f), Get(after.metadata, f), ids)
       case None => after.metadata == before.metadata
  }

  ghost predicate CandidateEdgesLaw(c: Canvas, patch: Id, op: Candidate, ids: IdMap, d: Canvas, e: Id) {
    if e in c.edges then
      if op.DeleteEdgeCandidate? && Meant(op.edge, ids) == Some(e) then e !in d.edges
      else if op.UpdateEdgeCandidate? && Meant(op.edge, ids) == Some(e) then
        e in d.edges && EdgeChanged(op, ids, c.edges[e], d.edges[e])
      else e in d.edges && d.edges[e] == c.edges[e]
    else if op.AddEdgeCandidate? && Meant(op.local, ids) == Some(e) then e in d.edges && EdgeAdded(patch, op, ids, d.edges[e])
    else e !in d.edges
  }

  // ---- the log ----

  ghost predicate CandidateChangeLaw(op: Candidate, ids: IdMap, change: Change) {
    match op
    case AddNodeCandidate(local, _, _, _, _, _, _) => change.NodeSaved? && Meant(local, ids) == Some(change.id)
    case UpdateNodeCandidate(n, _, _, _, _, _) => change.NodeSaved? && Meant(n, ids) == Some(change.id)
    case PatchMetadataCandidate(n, _, _) => change.NodeSaved? && Meant(n, ids) == Some(change.id)
    case MoveNodeCandidate(n, _, _) => change.NodeSaved? && Meant(n, ids) == Some(change.id)
    case DeleteNodeCandidate(n, _) => change.NodeDeleted? && Meant(n, ids) == Some(change.id)
    case AddEdgeCandidate(local, _, _, _, _) => change.EdgeSaved? && Meant(local, ids) == Some(change.id)
    case UpdateEdgeCandidate(e, _, _, _, _, _) => change.EdgeSaved? && Meant(e, ids) == Some(change.id)
    case DeleteEdgeCandidate(e, _) => change.EdgeDeleted? && Meant(e, ids) == Some(change.id)
  }

  ghost predicate CandidateLogLaw(c: Canvas, patch: Id, operation: Id, op: Candidate, ids: IdMap, d: Canvas,
                                  payload: Payload) {
    && d.revision == c.revision + 1 && d.ingested == c.ingested && payload.revision == c.revision + 1
    && d.log == c.log + [Entry(PatchKey(patch, operation), FromPatch(patch, operation, op), payload)]
    && CandidateChangeLaw(op, ids, payload.change)
  }

  // ---- the handlers ----

  lemma MergedField(metadata: Metadata, fields: Metadata, ids: IdMap, f: Field)
    ensures if f in fields then FieldRewritten(Some(fields[f]), Get(metadata + RewriteAll(fields, ids), f), ids)
            else Get(metadata + RewriteAll(fields, ids), f) == Get(metadata, f)
  {
    AllRewritten(fields, ids, f);
    hide Rewrite, RewritesTo;
  }

  lemma AcceptedField(patch: Id, metadata: Metadata, ids: IdMap, f: Field)
    ensures f != ReviewStatus && f != SourcePatch ==>
      FieldRewritten(Get(metadata, f), Get(AcceptedMetadata(patch, metadata, ids), f), ids)
  {
    AllRewritten(metadata, ids, f);
    hide Rewrite, RewritesTo, FieldRewritten;
  }

  lemma UpdateHandled(c: Canvas, patch: Id, op: Candidate, ids: IdMap, y: Id)
    requires HandleCandidate(c, patch, op, ids).Fine? && EditsAt(op, ids, y)
    ensures var d := HandleCandidate(c, patch, op, ids).value.0;
            y in c.nodes && y in d.nodes && ChangedAs(op, ids, y, c.nodes[y], d.nodes[y], false, 0)
  {
    var d, fields := HandleCandidate(c, patch, op, ids).value.0, FieldsGiven(op);
    assert y in c.nodes && y in d.nodes && d.nodes[y].metadata == c.nodes[y].metadata + RewriteAll(fields, ids) by {
      hide CandidateRoot, RewriteAll;
    }
    UpdateAnchors(c, patch, op, ids, y);
    forall f: Field ensures if f in fields then FieldRewritten(Some(fields[f]), Get(d.nodes[y].metadata, f), ids)
                            else Get(d.nodes[y].metadata, f) == Get(c.nodes[y].metadata, f) {
      MergedField(c.nodes[y].metadata, fields, ids, f);
    }
    hide CandidateRoot, RewriteAll, FieldRewritten, Get, RootEdited;
  }

  lemma UpdateAnchors(c: Canvas, patch: Id, op: Candidate, ids: IdMap, y: Id)
    requires HandleCandidate(c, patch, op, ids).Fine? && EditsAt(op, ids, y)
    ensures var d := HandleCandidate(c, patch, op, ids).value.0;
            y in c.nodes && y in d.nodes && RootEdited(op, ids, c.nodes[y], d.nodes[y])
  {
    hide RewriteAll, Get;
  }

  lemma OtherNodeHandled(c: Canvas, patch: Id, op: Candidate, ids: IdMap, y: Id)
    requires HandleCandidate(c, patch, op, ids).Fine? && y in c.nodes && !EditsAt(op, ids, y)
    ensures var d := HandleCandidate(c, patch, op, ids).value.0;
            if op.DeleteNodeCandidate? && Meant(op.node, ids) == Some(y) then y !in d.nodes
            else y in d.nodes && ChangedAs(op, ids, y, c.nodes[y], d.nodes[y], false, 0)
  {
    hide RewriteAll, CandidateRoot, AcceptedMetadata, FieldRewritten, Get;
  }

  lemma NewNodeHandled(c: Canvas, patch: Id, op: Candidate, ids: IdMap, y: Id)
    requires HandleCandidate(c, patch, op, ids).Fine? && y !in c.nodes
    ensures var d := HandleCandidate(c, patch, op, ids).value.0;
            && (y in d.nodes <==> op.AddNodeCandidate? && Meant(op.local, ids) == Some(y))
            && (y in d.nodes ==> AddedAs(patch, op, ids, d.nodes[y]))
  {
    if op.AddNodeCandidate? {
      forall f: Field ensures f != ReviewStatus && f != SourcePatch ==>
          FieldRewritten(Get(op.metadata, f), Get(AcceptedMetadata(patch, op.metadata, ids), f), ids) {
        AcceptedField(patch, op.metadata, ids, f);
      }
      assert Get(AcceptedMetadata(patch, op.metadata, ids), ReviewStatus) == Some(Text(Accepted));
      assert Get(AcceptedMetadata(patch, op.metadata, ids), SourcePatch) == Some(Text(IdText(patch)));
    }
    hide RewriteAll, AcceptedMetadata, FieldRewritten, Get;
  }

  lemma EdgeMetadata(patch: Id, metadata: Metadata, ids: IdMap, f: Field)
    ensures FieldRewritten(Get(metadata, f), Get(RewriteAll(metadata, ids), f), ids)
    ensures var stamped := RewriteAll(metadata, ids)[SourcePatch := Text(IdText(patch))];
            && Get(stamped, SourcePatch) == Some(Text(IdText(patch)))
            && (f != SourcePatch ==> FieldRewritten(Get(metadata, f), Get(stamped, f), ids))
  {
    AllRewritten(metadata, ids, f);
    hide RewriteAll, FieldRewritten;
  }

  lemma AddedEdge(c: Canvas, patch: Id, op: Candidate, ids: IdMap)
    requires HandleCandidate(c, patch, op, ids).Fine? && op.AddEdgeCandidate?
    ensures var d := HandleCandidate(c, patch, op, ids).value.0;
            match Meant(op.local, ids)
            case Some(e) =>
              e !in c.edges && e in d.edges && EdgeAdded(patch, op, ids, d.edges[e]) && d.edges == c.edges[e := d.edges[e]]
            case None => false
  {
    forall f: Field ensures var stamped := RewriteAll(op.metadata, ids)[SourcePatch := Text(IdText(patch))];
        && Get(stamped, SourcePatch) == Some(Text(IdText(patch)))
        && (f != SourcePatch ==> FieldRewritten(Get(op.metadata, f), Get(stamped, f), ids)) {
      EdgeMetadata(patch, op.metadata, ids, f);
    }
    hide RewriteAll, FieldRewritten, Get;
  }

  lemma ChangedEdge(c: Canvas, patch: Id, op: Candidate, ids: IdMap)
    requires HandleCandidate(c, patch, op, ids).Fine? && op.UpdateEdgeCandidate?
    ensures var d := HandleCandidate(c, patch, op, ids).value.0;
            match Meant(op.edge, ids)
            case Some(e) =>
              e in c.edges && e in d.edges && EdgeChanged(op, ids, c.edges[e], d.edges[e]) && d.edges == c.edges[e := d.edges[e]]
            case None => false
  {
    if op.newMetadata.Some? {
      forall f: Field ensures FieldRewritten(Get(op.newMetadata.value, f), Get(RewriteAll(op.newMetadata.value, ids), f), ids) {
        EdgeMetadata(patch, op.newMetadata.value, ids, f);
      }
    }
    hide RewriteAll, FieldRewritten, Get;
  }

  lemma OtherEdges(c: Canvas, patch: Id, op: Candidate, ids: IdMap)
    requires HandleCandidate(c, patch, op, ids).Fine? && !op.UpdateEdgeCandidate? && !op.AddEdgeCandidate?
    ensures var d := HandleCandidate(c, patch, op, ids).value.0;
            if op.DeleteEdgeCandidate? then
              match Meant(op.edge, ids)
              case Some(e) => e in c.edges && d.edges == c.edges - {e}
              case None => false
            else d.edges == c.edges
  {
    hide RewriteAll, CandidateRoot, AcceptedMetadata, Get;
  }

  lemma EdgesHandledFrom(c: Canvas, patch: Id, op: Candidate, ids: IdMap, e: Id)
    requires HandleCandidate(c, patch, op, ids).Fine?
    ensures CandidateEdgesLaw(c, patch, op, ids, HandleCandidate(c, patch, op, ids).value.0, e)
  {
    hide HandleCandidate, EdgeAdded, EdgeChanged, Meant;
    if op.AddEdgeCandidate? {
      AddedEdge(c, patch, op, ids);
    } else if op.UpdateEdgeCandidate? {
      ChangedEdge(c, patch, op, ids);
    } else {
      OtherEdges(c, patch, op, ids);
    }
  }

  lemma ChangeHandledFrom(c: Canvas, patch: Id, op: Candidate, ids: IdMap)
    requires HandleCandidate(c, patch, op, ids).Fine?
    ensures var r := HandleCandidate(c, patch, op, ids).value;
            && CandidateChangeLaw(op, ids, r.1) && !r.1.EvidenceRejected?
            && r.0.revision == c.revision && r.0.ingested == c.ingested && r.0.log == c.log
  {
    hide RewriteAll, CandidateRoot, AcceptedMetadata;
  }

  // ---- the commit ----

  ghost predicate Applied(c: Canvas, patch: Id, operation: Id, op: Candidate, ids: IdMap, excluded: set<Id>, d: Canvas,
                          payload: Payload) {
    && (forall i :: 0 <= i < |c.log| ==> c.log[i].key != PatchKey(patch, operation))
    && ApplyCandidate(c, patch, operation, op, ids, excluded) == Fine((d, payload))
  }

  /** An application is the commit of what was handled. */
  lemma AppliedIsCommitted(c: Canvas, patch: Id, operation: Id, op: Candidate, ids: IdMap, excluded: set<Id>, d: Canvas,
                           payload: Payload)
    requires Applied(c, patch, operation, op, ids, excluded, d, payload)
    ensures HandleCandidate(c, patch, op, ids).Fine?
    ensures var handled := HandleCandidate(c, patch, op, ids).value;
            && d == Commit(handled.0, PatchKey(patch, operation), FromPatch(patch, operation, op), handled.1,
                           AffectedByCandidate(c, handled.0, op, excluded), OriginOf(CaptureCandidate(c, op)))
            && d.log != [] && payload == d.log[|d.log| - 1].payload
  {
    assert forall i: nat :: !KeyUsed(c.log, PatchKey(patch, operation), i);
    hide HandleCandidate, AffectedByCandidate, CaptureCandidate, MarkStale, Stamp, StaleTargets, NewlyStale;
  }

  lemma ChangedThenStaled(op: Candidate, ids: IdMap, y: Id, before: Node, mid: Node, after: Node, goes: bool, revision: nat)
    requires ChangedAs(op, ids, y, before, mid, false, revision)
    requires && after.kind == mid.kind && after.title == mid.title && after.body == mid.body && after.metadata == mid.metadata
             && after.branchRoot == mid.branchRoot && after.position == mid.position
             && after.positionVersion == mid.positionVersion
             && after.version == mid.version + (if goes then 1 else 0) && after.stale == (mid.stale || goes)
             && after.staleSince == (if goes then Some(revision) else mid.staleSince)
    ensures ChangedAs(op, ids, y, before, after, goes, revision)
  {
    hide EditsAt, FieldRewritten, Get;
  }

  /** Before anything is staled. */
  lemma NodesHandledFrom(c: Canvas, patch: Id, op: Candidate, ids: IdMap, y: Id)
    requires HandleCandidate(c, patch, op, ids).Fine?
    ensures CandidateNodesLaw(c, patch, op, ids, HandleCandidate(c, patch, op, ids).value.0, {}, y)
  {
    hide HandleCandidate, ChangedAs, AddedAs, EditsAt;
    var d := HandleCandidate(c, patch, op, ids).value.0;
    if y !in c.nodes {
      NewNodeHandled(c, patch, op, ids, y);
    } else if EditsAt(op, ids, y) {
      UpdateHandled(c, patch, op, ids, y);
      NotDeleted(op, ids, y);
      NotStaled(op, ids, y, c.nodes[y], d.nodes[y], c.revision + 1);
    } else {
      OtherNodeHandled(c, patch, op, ids, y);
      if y in d.nodes {
        NotStaled(op, ids, y, c.nodes[y], d.nodes[y], c.revision + 1);
      }
    }
  }

  lemma NotStaled(op: Candidate, ids: IdMap, y: Id, before: Node, after: Node, revision: nat)
    requires ChangedAs(op, ids, y, before, after, false, 0)
    ensures ChangedAs(op, ids, y, before, after, false, revision)
  {
    hide EditsAt, FieldRewritten, Get;
  }

  lemma CommittedNodes(c: Canvas, patch: Id, op: Candidate, ids: IdMap, mid: Canvas, key: Key, audit: Audit, change: Change,
                       affected: set<Id>, origin: Origin, y: Id)
    requires CandidateNodesLaw(c, patch, op, ids, mid, {}, y) && !change.EvidenceRejected? && mid.revision == c.revision
    requires op.AddNodeCandidate? ==> affected == {}
    ensures var d := Commit(mid, key, audit, change, affected, origin);
            d.log != [] && CandidateNodesLaw(c, patch, op, ids, d, d.log[|d.log| - 1].payload.newlyStale, y)
  {
    hide Commit, ChangedAs, AddedAs, Eligible, Meant;
    var d := Commit(mid, key, audit, change, affected, origin);
    CommitKeepsRest(mid, key, audit, change, affected, origin);
    if y in mid.nodes {
      CommitKeepsContent(mid, key, audit, change, affected, origin, y);
      CommitCauses(mid, key, audit, change, affected, origin, y);
      if y in c.nodes {
        ChangedThenStaled(op, ids, y, c.nodes[y], mid.nodes[y], d.nodes[y], y in d.log[|d.log| - 1].payload.newlyStale,
                          c.revision + 1);
      } else {
        FreshNodeStays(mid, key, audit, change, affected, origin, y);
      }
    }
  }

  lemma CandidateNodesFollow(c: Canvas, patch: Id, operation: Id, op: Candidate, ids: IdMap, excluded: set<Id>,
                             d: Canvas, payload: Payload, y: Id)
    requires Applied(c, patch, operation, op, ids, excluded, d, payload)
    ensures CandidateNodesLaw(c, patch, op, ids, d, payload.newlyStale, y)
  {
    AppliedIsCommitted(c, patch, operation, op, ids, excluded, d, payload);
    hide Applied, HandleCandidate, Commit, AffectedByCandidate, CaptureCandidate, CandidateNodesLaw, CandidateChangeLaw;
    var handled := HandleCandidate(c, patch, op, ids).value;
    var affected := AffectedByCandidate(c, handled.0, op, excluded);
    ChangeHandledFrom(c, patch, op, ids);
    NodesHandledFrom(c, patch, op, ids, y);
    if op.AddNodeCandidate? {
      AdditionAffectsNothing(c, handled.0, op, excluded);
    }
    CommittedNodes(c, patch, op, ids, handled.0, PatchKey(patch, operation), FromPatch(patch, operation, op), handled.1, affected,
                   OriginOf(CaptureCandidate(c, op)), y);
  }

  lemma NotDeleted(op: Candidate, ids: IdMap, y: Id)
    requires EditsAt(op, ids, y)
    ensures !op.DeleteNodeCandidate?
  {
  }

  lemma AdditionAffectsNothing(c: Canvas, after: Canvas, op: Candidate, excluded: set<Id>)
    requires op.AddNodeCandidate?
    ensures AffectedByCandidate(c, after, op, excluded) == {}
  {
  }

  lemma CandidateEdgesFollow(c: Canvas, patch: Id, operation: Id, op: Candidate, ids: IdMap, excluded: set<Id>,
                             d: Canvas, payload: Payload, e: Id)
    requires Applied(c, patch, operation, op, ids, excluded, d, payload)
    ensures CandidateEdgesLaw(c, patch, op, ids, d, e)
  {
    AppliedIsCommitted(c, patch, operation, op, ids, excluded, d, payload);
    hide Applied, HandleCandidate, Commit, AffectedByCandidate, CaptureCandidate, EdgeAdded, EdgeChanged;
    var handled := HandleCandidate(c, patch, op, ids).value;
    CommitKeepsRest(handled.0, PatchKey(patch, operation), FromPatch(patch, operation, op), handled.1,
                    AffectedByCandidate(c, handled.0, op, excluded), OriginOf(CaptureCandidate(c, op)));
    EdgesHandledFrom(c, patch, op, ids, e);
  }

  lemma CandidateLogFollows(c: Canvas, patch: Id, operation: Id, op: Candidate, ids: IdMap, excluded: set<Id>,
                            d: Canvas, payload: Payload)
    requires Applied(c, patch, operation, op, ids, excluded, d, payload)
    ensures CandidateLogLaw(c, patch, operation, op, ids, d, payload)
  {
    AppliedIsCommitted(c, patch, operation, op, ids, excluded, d, payload);
    hide Applied, HandleCandidate, Commit, AffectedByCandidate, CaptureCandidate, CandidateChangeLaw;
    var handled := HandleCandidate(c, patch, op, ids).value;
    CommitKeepsRest(handled.0, PatchKey(patch, operation), FromPatch(patch, operation, op), handled.1,
                    AffectedByCandidate(c, handled.0, op, excluded), OriginOf(CaptureCandidate(c, op)));
    ChangeHandledFrom(c, patch, op, ids);
  }

  // ---- what becomes stale ----

  /** What a candidate touches, as with the direct operation of the same name. */
  ghost predicate TouchedBy(c: Canvas, after: map<Id, Edge>, op: Candidate, y: Id) {
    match op
    case UpdateNodeCandidate(t, _, _, _, _, _) => exists n :: Meant(t, map[]) == Some(n) && y != n && LeadsTo(c.edges, n, y)
    case PatchMetadataCandidate(t, _, _) => exists n :: Meant(t, map[]) == Some(n) && y != n && LeadsTo(c.edges, n, y)
    case UpdateEdgeCandidate(t, _, _, _, _, _) =>
      exists e :: Meant(t, map[]) == Some(e) && (UnderEnd(c.edges, e, y) || UnderEnd(after, e, y))
    case DeleteEdgeCandidate(t, _) => exists e :: Meant(t, map[]) == Some(e) && UnderEnd(c.edges, e, y)
    case _ => false
  }

  function Names(op: Candidate): Origin {
    match op
    case UpdateNodeCandidate(IdText(n), _, _, _, _, _) => FromNode(n)
    case UpdateNodeCandidate(IdSpelling(n, _), _, _, _, _, _) => FromNode(n)
    case PatchMetadataCandidate(IdText(n), _, _) => FromNode(n)
    case PatchMetadataCandidate(IdSpelling(n, _), _, _) => FromNode(n)
    case UpdateEdgeCandidate(IdText(e), _, _, _, _, _) => FromEdge(e)
    case UpdateEdgeCandidate(IdSpelling(e, _), _, _, _, _, _) => FromEdge(e)
    case DeleteEdgeCandidate(IdText(e), _) => FromEdge(e)
    case DeleteEdgeCandidate(IdSpelling(e, _), _) => FromEdge(e)
    case _ => NoOrigin
  }

  /** The candidate refers to what it changes by its identity, not by a local name of the patch. */
  predicate ByIdentity(op: Candidate, ids: IdMap) {
    match op
    case AddNodeCandidate(_, _, _, _, _, _, _) => true
    case AddEdgeCandidate(_, _, _, _, _) => true
    case UpdateNodeCandidate(t, _, _, _, _, _) => t !in ids
    case PatchMetadataCandidate(t, _, _) => t !in ids
    case MoveNodeCandidate(t, _, _) => t !in ids
    case DeleteNodeCandidate(t, _) => t !in ids
    case UpdateEdgeCandidate(t, _, _, _, _, _) => t !in ids
    case DeleteEdgeCandidate(t, _) => t !in ids
  }

  lemma SeenMoves(c: Canvas, patch: Id, op: Candidate, ids: IdMap)
    requires HandleCandidate(c, patch, op, ids).Fine? && ByIdentity(op, ids)
    ensures var d, seen := HandleCandidate(c, patch, op, ids).value.0, InvalidationView(op);
            seen.Some? ==> EdgesMove(c, d.edges, seen.value)
  {
    hide RewriteAll, CandidateRoot, AcceptedMetadata;
  }

  lemma SeenTouches(c: Canvas, after: map<Id, Edge>, op: Candidate, y: Id)
    ensures TouchedBy(c, after, op, y) <==> InvalidationView(op).Some? && Touched(c, after, InvalidationView(op).value, y)
    ensures InvalidationView(op).Some? && TouchedBy(c, after, op, y) ==> Named(InvalidationView(op).value) == Names(op)
  {
    hide LeadsTo, UnderEnd;
  }

  lemma CandidateAffects(c: Canvas, patch: Id, op: Candidate, ids: IdMap, excluded: set<Id>, y: Id)
    requires HandleCandidate(c, patch, op, ids).Fine? && ByIdentity(op, ids)
    ensures var d := HandleCandidate(c, patch, op, ids).value.0;
            y in AffectedByCandidate(c, d, op, excluded) <==> TouchedBy(c, d.edges, op, y) && y !in excluded
  {
    var d := HandleCandidate(c, patch, op, ids).value.0;
    SeenMoves(c, patch, op, ids);
    SeenTouches(c, d.edges, op, y);
    var seen := InvalidationView(op);
    hide HandleCandidate, Touched, TouchedBy, InvalidationView, ResolveInvalidation, CaptureInvalidation, EdgesMove;
    if seen.Some? {
      AffectedIffTouched(c, d, seen.value, y);
    }
  }

  lemma CandidateOrigin(c: Canvas, patch: Id, op: Candidate, ids: IdMap, y: Id)
    requires HandleCandidate(c, patch, op, ids).Fine? && ByIdentity(op, ids)
    requires TouchedBy(c, HandleCandidate(c, patch, op, ids).value.0.edges, op, y)
    ensures OriginOf(CaptureCandidate(c, op)) == Names(op)
  {
    hide RewriteAll, CandidateRoot, AcceptedMetadata, LeadsTo, UnderEnd, Dependencies;
  }

  lemma HandledKeepsBooks(c: Canvas, patch: Id, op: Candidate, ids: IdMap, y: Id)
    requires HandleCandidate(c, patch, op, ids).Fine? && y in c.nodes && y in HandleCandidate(c, patch, op, ids).value.0.nodes
    ensures var d := HandleCandidate(c, patch, op, ids).value.0;
            d.nodes[y].stale == c.nodes[y].stale && CausesOf(d.causes, y) == CausesOf(c.causes, y)
  {
    hide RewriteAll, CandidateRoot, AcceptedMetadata;
  }

  /** The node goes stale for this cause when touched, and stays as it was otherwise; the stored lists say so. */
  ghost predicate StaledAs(c: Canvas, d: Canvas, payload: Payload, y: Id, touched: bool, origin: Origin)
    requires y in c.nodes && y in d.nodes
  {
    && (d.nodes[y].stale <==> c.nodes[y].stale || touched)
    && CausesOf(d.causes, y) == CausesOf(c.causes, y) + (if touched then [Cause(c.revision + 1, origin)] else [])
    && (y in payload.stale <==> touched)
    && (y in payload.newlyStale <==> touched && !c.nodes[y].stale)
  }

  lemma CommitStales(mid: Canvas, key: Key, audit: Audit, change: Change, affected: set<Id>, origin: Origin, y: Id)
    requires y in mid.nodes && !change.EvidenceRejected?
    ensures var d := Commit(mid, key, audit, change, affected, origin);
            && y in d.nodes && d.log != [] && (Stalable(d.nodes[y]) <==> Stalable(mid.nodes[y]))
            && StaledAs(mid, d, d.log[|d.log| - 1].payload, y, y in affected && Stalable(mid.nodes[y]), origin)
  {
    var d := Commit(mid, key, audit, change, affected, origin);
    hide Commit, Eligible, Stalable;
    CommitKeepsRest(mid, key, audit, change, affected, origin);
    CommitKeepsContent(mid, key, audit, change, affected, origin, y);
    CommitCauses(mid, key, audit, change, affected, origin, y);
    StalableIsEligible(mid.nodes, y);
    SameStalable(mid.nodes[y], d.nodes[y]);
  }

  lemma StaledFrom(c: Canvas, mid: Canvas, d: Canvas, payload: Payload, y: Id, touched: bool, origin: Origin, name: Origin)
    requires y in c.nodes && y in mid.nodes && y in d.nodes && StaledAs(mid, d, payload, y, touched, origin)
    requires mid.nodes[y].stale == c.nodes[y].stale && CausesOf(mid.causes, y) == CausesOf(c.causes, y) && mid.revision == c.revision
    requires touched ==> origin == name
    ensures StaledAs(c, d, payload, y, touched, name)
  {
    hide CausesOf;
  }

  /** Exactly the touched nodes that invalidation applies to, except those the patch means to delete, become stale, get a
      cause and are listed. */
  lemma CandidateStalesExactly(c: Canvas, patch: Id, operation: Id, op: Candidate, ids: IdMap, excluded: set<Id>,
                               d: Canvas, payload: Payload, y: Id)
    requires Applied(c, patch, operation, op, ids, excluded, d, payload) && ByIdentity(op, ids) && y in c.nodes && y in d.nodes
    ensures StaledAs(c, d, payload, y, y !in excluded && Stalable(d.nodes[y]) && TouchedBy(c, d.edges, op, y), Names(op))
  {
    AppliedIsCommitted(c, patch, operation, op, ids, excluded, d, payload);
    hide Applied, HandleCandidate, Commit, AffectedByCandidate, CaptureCandidate, Stalable, TouchedBy, Names, CandidateChangeLaw,
         StaledAs, CausesOf, ByIdentity;
    var handled := HandleCandidate(c, patch, op, ids).value;
    var affected, origin := AffectedByCandidate(c, handled.0, op, excluded), OriginOf(CaptureCandidate(c, op));
    var key, audit := PatchKey(patch, operation), FromPatch(patch, operation, op);
    ChangeHandledFrom(c, patch, op, ids);
    CommitKeepsRest(handled.0, key, audit, handled.1, affected, origin);
    CommitStales(handled.0, key, audit, handled.1, affected, origin, y);
    HandledKeepsBooks(c, patch, op, ids, y);
    CandidateAffects(c, patch, op, ids, excluded, y);
    if TouchedBy(c, d.edges, op, y) {
      CandidateOrigin(c, patch, op, ids, y);
    }
    StaledFrom(c, handled.0, d, payload, y, y in affected && Stalable(handled.0.nodes[y]), origin, Names(op));
  }

  lemma SameStalable(a: Node, b: Node)
    requires a.kind == b.kind && a.metadata == b.metadata
    ensures Stalable(a) <==> Stalable(b)
  {
  }
}

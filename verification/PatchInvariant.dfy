/** Candidate operations keep the canvas invariant, and an add-only patch is a frame step. */
module PatchInvariant {
  import opened Reachability
  import opened GraphTypes
  import opened CanvasModel
  import opened CanvasInvariant
  import opened CanvasStaleness
  import opened PatchCandidates

  // ------------------------------------------------------------------ invariant

  lemma AddedNodeCandidateKeeps(c: Canvas, patch: Id, op: Candidate, ids: IdMap)
    requires Valid(c) && op.AddNodeCandidate? && HandleCandidate(c, patch, op, ids).Fine?
    ensures var d := HandleCandidate(c, patch, op, ids).value.0; Valid(d) && SameBooks(c, d)
  {
    hide EdgesAttached, RootsAnchored, StalenessConsistent, LogGapFree, RewriteAll;
    var d := HandleCandidate(c, patch, op, ids).value.0;
    var id := Resolve(op.local, ids).value;
    NewNodeKeeps(c, id, d.nodes[id]);
  }

  lemma UpdatedNodeKeeps(c: Canvas, token: Token, expected: nat, newTitle: Option<string>,
                         newBody: Option<Option<string>>, fields: Metadata, newRoot: Option<Option<Token>>, ids: IdMap)
    requires Valid(c) && UpdateCandidateIn(c, token, expected, newTitle, newBody, fields, newRoot, ids).Fine?
    ensures var d := UpdateCandidateIn(c, token, expected, newTitle, newBody, fields, newRoot, ids).value.0;
            Valid(d) && SameBooks(c, d)
  {
    hide EdgesAttached, RootsAnchored, StalenessConsistent, LogGapFree, RewriteAll;
    var d := UpdateCandidateIn(c, token, expected, newTitle, newBody, fields, newRoot, ids).value.0;
    var id := Resolve(token, ids).value;
    AnchoredIn(c, id);
    ReplacedNodeKeeps(c, id, d.nodes[id]);
  }

  lemma MovedNodeKeeps(c: Canvas, op: Candidate, ids: IdMap)
    requires Valid(c) && op.MoveNodeCandidate? && MoveCandidateIn(c, op, ids).Fine?
    ensures var d := MoveCandidateIn(c, op, ids).value.0; Valid(d) && SameBooks(c, d)
  {
    hide EdgesAttached, RootsAnchored, StalenessConsistent, LogGapFree;
    var d := MoveCandidateIn(c, op, ids).value.0;
    var id := Resolve(op.node, ids).value;
    AnchoredIn(c, id);
    ReplacedNodeKeeps(c, id, d.nodes[id]);
  }

  lemma EdgeCandidateKeeps(c: Canvas, patch: Id, op: Candidate, ids: IdMap)
    requires Valid(c) && HandleCandidate(c, patch, op, ids).Fine?
    requires op.AddEdgeCandidate? || op.UpdateEdgeCandidate? || op.DeleteEdgeCandidate?
    ensures var d := HandleCandidate(c, patch, op, ids).value.0; Valid(d) && SameBooks(c, d)
  {
    hide RootsAnchored, StalenessConsistent, LogGapFree, RewriteAll;
    var d := HandleCandidate(c, patch, op, ids).value.0;
    var id := Resolve(if op.AddEdgeCandidate? then op.local else op.edge, ids).value;
    if op.DeleteEdgeCandidate? {
      RemovedEdgeKeeps(c, id);
    } else {
      SavedEdgeKeeps(c, id, d.edges[id]);
    }
  }

  lemma HandleCandidateKeepsValid(c: Canvas, patch: Id, op: Candidate, ids: IdMap)
    requires Valid(c) && HandleCandidate(c, patch, op, ids).Fine?
    ensures var d := HandleCandidate(c, patch, op, ids).value.0; Valid(d) && SameBooks(c, d)
  {
    hide Valid, SameBooks;
    match op {
      case DeleteNodeCandidate(node, expected) => DeletedNodeKeeps(c, Resolve(node, ids).value, expected);
      case AddNodeCandidate(_, _, _, _, _, _, _) => AddedNodeCandidateKeeps(c, patch, op, ids);
      case UpdateNodeCandidate(node, expected, title, body, fields, root) =>
        UpdatedNodeKeeps(c, node, expected, title, body, if fields.Some? then fields.value else map[], root, ids);
      case PatchMetadataCandidate(node, expected, fields) =>
        UpdatedNodeKeeps(c, node, expected, None, None, fields, None, ids);
      case MoveNodeCandidate(_, _, _) => MovedNodeKeeps(c, op, ids);
      case _ => EdgeCandidateKeeps(c, patch, op, ids);
    }
  }

  lemma ApplyCandidateKeepsValid(c: Canvas, patch: Id, operation: Id, op: Candidate, ids: IdMap, excluded: set<Id>)
    requires Valid(c) && ApplyCandidate(c, patch, operation, op, ids, excluded).Fine?
    ensures Valid(ApplyCandidate(c, patch, operation, op, ids, excluded).value.0)
  {
    hide Valid, HandleCandidate, Commit, AffectedByCandidate, CaptureCandidate;
    var key := PatchKey(patch, operation);
    if forall i: nat :: !KeyUsed(c.log, key, i) {
      HandleCandidateKeepsValid(c, patch, op, ids);
      var handled := HandleCandidate(c, patch, op, ids).value;
      SameLog(c, handled.0);
      CommitKeepsValid(handled.0, key, FromPatch(patch, operation, op), handled.1,
                       AffectedByCandidate(c, handled.0, op, excluded), OriginOf(CaptureCandidate(c, op)));
    }
  }

  lemma SameLog(c: Canvas, d: Canvas)
    requires SameBooks(c, d)
    ensures d.log == c.log
  {
  }

  // ------------------------------------------------------------------ frame

  predicate AddOnly(op: Candidate) {
    op.AddNodeCandidate? || op.AddEdgeCandidate?
  }

  /** Every existing node, edge and cause is exactly as before; ingestion links are untouched. */
  ghost predicate Framed(before: Canvas, after: Canvas) {
    && (forall n :: n in before.nodes ==> n in after.nodes && after.nodes[n] == before.nodes[n])
    && (forall e :: e in before.edges ==> e in after.edges && after.edges[e] == before.edges[e])
    && after.causes == before.causes && after.ingested == before.ingested
  }

  /** Adding a node or an edge stales nothing, so it changes no existing row at all. */
  lemma AddOnlyIsFrameStep(c: Canvas, patch: Id, operation: Id, op: Candidate, ids: IdMap, excluded: set<Id>)
    requires AddOnly(op) && ApplyCandidate(c, patch, operation, op, ids, excluded).Fine?
    ensures Framed(c, ApplyCandidate(c, patch, operation, op, ids, excluded).value.0)
  {
    if forall i: nat :: !KeyUsed(c.log, PatchKey(patch, operation), i) {
      assert HandleCandidate(c, patch, op, ids).Fine? by { hide HandleCandidate; }
      var handled := HandleCandidate(c, patch, op, ids).value;
      AdditionFrames(c, patch, op, ids);
      assert AffectedByCandidate(c, handled.0, op, excluded) == {};
      hide HandleCandidate, AffectedByCandidate, Commit, CaptureCandidate, Framed;
      QuietCommitFrames(c, handled.0, PatchKey(patch, operation), FromPatch(patch, operation, op), handled.1,
                        OriginOf(CaptureCandidate(c, op)));
    }
  }

  lemma AdditionFrames(c: Canvas, patch: Id, op: Candidate, ids: IdMap)
    requires AddOnly(op) && HandleCandidate(c, patch, op, ids).Fine?
    ensures Framed(c, HandleCandidate(c, patch, op, ids).value.0) && !HandleCandidate(c, patch, op, ids).value.1.EvidenceRejected?
  {
    hide RewriteAll, CandidateRoot, AcceptedMetadata;
  }

  /** A commit that stales nothing changes no row. */
  lemma QuietCommitFrames(c: Canvas, handled: Canvas, key: Key, audit: Audit, change: Change, origin: Origin)
    requires Framed(c, handled) && !change.EvidenceRejected?
    ensures Framed(c, Commit(handled, key, audit, change, {}, origin))
  {
    var after := Commit(handled, key, audit, change, {}, origin);
    assert StaleTargets(handled.nodes, {}) == {};
    assert after.nodes == handled.nodes;
    assert after.causes == handled.causes;
  }

  lemma FramedTransitive(a: Canvas, b: Canvas, c: Canvas)
    requires Framed(a, b) && Framed(b, c)
    ensures Framed(a, c)
  {
    forall n | n in a.nodes ensures n in c.nodes && c.nodes[n] == a.nodes[n] {
      assert b.nodes[n] == a.nodes[n];
    }
    forall e | e in a.edges ensures e in c.edges && c.edges[e] == a.edges[e] {
      assert b.edges[e] == a.edges[e];
    }
  }

  // ------------------------------------------------------------------ versions

  /** The candidate rewrites node n. */
  predicate Edits(op: Candidate, ids: IdMap, n: Id) {
    (op.UpdateNodeCandidate? || op.PatchMetadataCandidate?) && Resolve(op.node, ids) == Fine(n)
  }

  /** The candidate names one identity, its patch uses that text as a local name for n, and n is a fresh eligible
      dependent of the identity named: invalidation reads the name without the id map, so it stales what was edited. */
  ghost predicate StalesItsOwnEdit(c: Canvas, patch: Id, op: Candidate, ids: IdMap, excluded: set<Id>, n: Id)
    requires HandleCandidate(c, patch, op, ids).Fine? && n in c.nodes
  {
    && Edits(op, ids, n) && SpellsId(op.node) && op.node.id != n && n !in excluded && !c.nodes[n].stale
    && Reaches(Dependencies(c.edges), op.node.id, n) && Eligible(HandleCandidate(c, patch, op, ids).value.0.nodes, n)
  }

  lemma HandledVersion(c: Canvas, patch: Id, op: Candidate, ids: IdMap, n: Id)
    requires HandleCandidate(c, patch, op, ids).Fine? && n in c.nodes && n in HandleCandidate(c, patch, op, ids).value.0.nodes
    ensures var d := HandleCandidate(c, patch, op, ids).value.0;
            && d.nodes[n].stale == c.nodes[n].stale
            && d.nodes[n].version == c.nodes[n].version + (if Edits(op, ids, n) then 1 else 0)
            && (Edits(op, ids, n) ==> d.edges == c.edges)
  {
    hide RewriteAll, CandidateRoot, AcceptedMetadata;
  }

  lemma EditedAndAffected(c: Canvas, after: Canvas, op: Candidate, ids: IdMap, excluded: set<Id>, n: Id)
    requires Edits(op, ids, n) && after.edges == c.edges
    ensures n in AffectedByCandidate(c, after, op, excluded) <==>
            SpellsId(op.node) && op.node.id != n && n !in excluded && Reaches(Dependencies(c.edges), op.node.id, n)
  {
    hide Dependencies;
  }

  /** A patch operation raises the semantic version of a surviving node by at most one, except when it stales the
      very node it edits: then, and only then, by two. */
  lemma CandidateVersionSteps(c: Canvas, patch: Id, operation: Id, op: Candidate, ids: IdMap, excluded: set<Id>, n: Id)
    requires forall i: nat :: !KeyUsed(c.log, PatchKey(patch, operation), i)
    requires ApplyCandidate(c, patch, operation, op, ids, excluded).Fine?
    requires n in c.nodes && n in ApplyCandidate(c, patch, operation, op, ids, excluded).value.0.nodes
    ensures var d := ApplyCandidate(c, patch, operation, op, ids, excluded).value.0;
            && c.nodes[n].version <= d.nodes[n].version <= c.nodes[n].version + 2
            && (d.nodes[n].version == c.nodes[n].version + 2 <==> StalesItsOwnEdit(c, patch, op, ids, excluded, n))
  {
    hide HandleCandidate, AffectedByCandidate, CaptureCandidate, Commit, Edits, Dependencies, Eligible;
    var handled := HandleCandidate(c, patch, op, ids).value;
    var affected := AffectedByCandidate(c, handled.0, op, excluded);
    var audit, origin := FromPatch(patch, operation, op), OriginOf(CaptureCandidate(c, op));
    CommitKeepsKeys(handled.0, PatchKey(patch, operation), audit, handled.1, affected, origin);
    CommitEffect(handled.0, PatchKey(patch, operation), audit, handled.1, affected, origin, n);
    HandledVersion(c, patch, op, ids, n);
    if Edits(op, ids, n) {
      EditedAndAffected(c, handled.0, op, ids, excluded, n);
    }
  }

  /** The identities a patch derives for its local names are not on the canvas it is reviewed against. */
  predicate DerivedAreNew(c: Canvas, ids: IdMap) {
    forall t :: t in ids ==> ids[t] !in c.nodes
  }

  /** In a review this cannot happen: an operation that passes the preflight names a node of the canvas before, not
      a local one, so it raises no surviving node's version by more than one on whatever canvas it is applied to. */
  lemma PreflightedStepsOnce(before: Canvas, selected: set<Candidate>, c: Canvas, patch: Id, operation: Id,
                             op: Candidate, ids: IdMap, excluded: set<Id>, n: Id)
    requires Preflight(before, op, ids, selected) == None && DerivedAreNew(before, ids)
    requires ApplyCandidate(c, patch, operation, op, ids, excluded).Fine?
    requires n in c.nodes && n in ApplyCandidate(c, patch, operation, op, ids, excluded).value.0.nodes
    ensures var d := ApplyCandidate(c, patch, operation, op, ids, excluded).value.0;
            c.nodes[n].version <= d.nodes[n].version <= c.nodes[n].version + 1
  {
    assert Edits(op, ids, n) && SpellsId(op.node) ==> op.node.id == n;
    hide Preflight, ApplyCandidate, Edits, HandleCandidate;
    if forall i: nat :: !KeyUsed(c.log, PatchKey(patch, operation), i) {
      FineIsHandled(c, patch, operation, op, ids, excluded);
      CandidateVersionSteps(c, patch, operation, op, ids, excluded, n);
    } else {
      RepeatedIsNoStep(c, patch, operation, op, ids, excluded);
    }
  }

  lemma FineIsHandled(c: Canvas, patch: Id, operation: Id, op: Candidate, ids: IdMap, excluded: set<Id>)
    requires forall i: nat :: !KeyUsed(c.log, PatchKey(patch, operation), i)
    requires ApplyCandidate(c, patch, operation, op, ids, excluded).Fine?
    ensures HandleCandidate(c, patch, op, ids).Fine?
  {
    hide HandleCandidate;
  }

  lemma RepeatedIsNoStep(c: Canvas, patch: Id, operation: Id, op: Candidate, ids: IdMap, excluded: set<Id>)
    requires exists i: nat :: KeyUsed(c.log, PatchKey(patch, operation), i)
    requires ApplyCandidate(c, patch, operation, op, ids, excluded).Fine?
    ensures ApplyCandidate(c, patch, operation, op, ids, excluded).value.0 == c
  {
  }
}

/** Which candidates pass the check before a review applies anything, which of them can be applied to the canvas they meet,
    and what every refusal says (proofgraph/generation/patch_application.py:520-1094). */
module CandidateChecks {
  import opened Reachability
  import opened GraphTypes
  import opened CanvasModel
  import opened PatchCandidates
  import opened CandidateOutcomes

  // ---- references ----

  /** A local name of the patch, or an identity that is on the canvas. */
  predicate Known(c: Canvas, token: Token, ids: IdMap) {
    token in ids || OnCanvas(c, token, map[])
  }

  predicate OnCanvas(c: Canvas, token: Token, ids: IdMap) {
    match Meant(token, ids)
    case Some(n) => n in c.nodes
    case None => false
  }

  predicate AllKnown(c: Canvas, values: seq<Value>, ids: IdMap) {
    forall i :: 0 <= i < |values| ==> values[i].Text? && Known(c, values[i].token, ids)
  }

  predicate ProvenanceKnown(c: Canvas, metadata: Metadata, ids: IdMap) {
    match Get(metadata, ProvenanceNodes)
    case None => true
    case Some(Items(values)) => AllKnown(c, values, ids)
    case _ => false
  }

  predicate CanRoot(kind: NodeKind) {
    kind == Strategy || kind == Claim || kind == Opportunity
  }

  /** The root of an added constraint: another selected addition, or a node of the canvas, of a kind that can be one. */
  predicate RootKnown(c: Canvas, op: Candidate, ids: IdMap, selected: set<Candidate>)
    requires op.AddNodeCandidate?
  {
    if op.kind != Constraint || Get(op.metadata, ContextScope) == Some(Text(GlobalScope)) then op.root == None
    else
      && Get(op.metadata, ContextScope) == Some(Text(BranchScope)) && op.root.Some?
      && if op.root.value in ids then
           exists other :: other in selected && other.AddNodeCandidate? && other.local == op.root.value && CanRoot(other.kind)
         else
           match Meant(op.root.value, map[])
           case Some(n) => n in c.nodes && CanRoot(c.nodes[n].kind)
           case None => false
  }

  predicate VersionIs(c: Canvas, token: Token, ids: IdMap, expected: nat) {
    match Meant(token, ids)
    case Some(n) => n in c.nodes && c.nodes[n].version == expected
    case None => false
  }

  predicate EdgeVersionIs(c: Canvas, token: Token, ids: IdMap, expected: nat) {
    match Meant(token, ids)
    case Some(e) => e in c.edges && c.edges[e].version == expected
    case None => false
  }

  // ---- deletions ----

  predicate DeletesEdge(op: Candidate, e: Id) {
    op.DeleteEdgeCandidate? && Meant(op.edge, map[]) == Some(e)
  }

  predicate Unanchors(op: Candidate, n: Id) {
    (op.DeleteNodeCandidate? || (op.UpdateNodeCandidate? && op.newRoot.Some?)) && Meant(op.node, map[]) == Some(n)
  }

  /** Whatever refers to the node is on its way out: its edges are deleted by the selection, and the constraints it
      anchors are deleted or anchored anew. */
  predicate Freed(c: Canvas, n: Id, selected: set<Candidate>) {
    && (forall e :: e in c.edges && (c.edges[e].source == n || c.edges[e].target == n) ==>
          exists op :: op in selected && DeletesEdge(op, e))
    && (forall m :: m in c.nodes && c.nodes[m].branchRoot == Some(n) ==> exists op :: op in selected && Unanchors(op, m))
  }

  predicate Spelled(selected: set<Candidate>) {
    forall op :: op in selected ==>
      && (op.DeleteEdgeCandidate? ==> Meant(op.edge, map[]).Some?)
      && (op.DeleteNodeCandidate? || (op.UpdateNodeCandidate? && op.newRoot.Some?) ==> Meant(op.node, map[]).Some?)
  }

  // ---- the check ----

  predicate Passes(c: Canvas, op: Candidate, ids: IdMap, selected: set<Candidate>) {
    match op
    case AddNodeCandidate(local, _, _, _, metadata, _, _) =>
      && Meant(local, ids).Some? && Meant(local, ids).value !in c.nodes
      && ProvenanceKnown(c, metadata, ids) && RootKnown(c, op, ids, selected)
    case UpdateNodeCandidate(n, expected, _, _, _, _) => VersionIs(c, n, ids, expected)
    case PatchMetadataCandidate(n, expected, _) => VersionIs(c, n, ids, expected)
    case MoveNodeCandidate(n, expected, _) =>
      (match Meant(n, ids) case Some(m) => m in c.nodes && c.nodes[m].positionVersion == expected case None => false)
    case DeleteNodeCandidate(n, expected) =>
      VersionIs(c, n, ids, expected) && Spelled(selected) && Freed(c, Meant(n, ids).value, selected)
    case AddEdgeCandidate(local, source, target, _, _) =>
      && Meant(local, ids).Some? && Meant(local, ids).value !in c.edges && Known(c, source, ids) && Known(c, target, ids)
    case UpdateEdgeCandidate(e, expected, source, target, _, _) =>
      && EdgeVersionIs(c, e, ids, expected)
      && (source.Some? ==> Known(c, source.value, ids)) && (target.Some? ==> Known(c, target.value, ids))
    case DeleteEdgeCandidate(e, expected) => EdgeVersionIs(c, e, ids, expected)
  }

  lemma KnownIff(c: Canvas, token: Token, ids: IdMap)
    ensures KnownNode(c, token, ids).None? <==> Known(c, token, ids)
  {
  }

  lemma {:induction false} AllKnownIff(c: Canvas, values: seq<Value>, ids: IdMap)
    ensures KnownNodes(c, values, ids).None? <==> AllKnown(c, values, ids)
  {
    if values != [] {
      AllKnownIff(c, values[1..], ids);
      if values[0].Text? {
        KnownIff(c, values[0].token, ids);
      }
      hide Known, KnownNode;
      assert AllKnown(c, values, ids) <==> values[0].Text? && Known(c, values[0].token, ids) && AllKnown(c, values[1..], ids) by {
        assert forall i :: 0 < i < |values| ==> values[i] == values[1..][i - 1];
      }
    }
  }

  lemma RootIff(c: Canvas, op: Candidate, ids: IdMap, selected: set<Candidate>)
    requires op.AddNodeCandidate?
    ensures RootVerdict(c, op.kind, op.metadata, op.root, ids, selected).None? <==> RootKnown(c, op, ids, selected)
  {
    hide Get;
  }

  lemma FreedIff(c: Canvas, n: Id, selected: set<Candidate>)
    ensures Freed(c, n, selected) <==>
      !((exists e :: e in c.edges && Incident(c.edges, e, n) && !EdgeResolved(selected, e))
        || (exists m :: m in c.nodes && c.nodes[m].branchRoot == Some(n) && !AnchorResolved(selected, m)))
  {
    forall e ensures EdgeResolved(selected, e) <==> exists op :: op in selected && DeletesEdge(op, e) {
      assert forall op :: DeletesEdge(op, e) <==> op.DeleteEdgeCandidate? && Spells(op.edge, e);
    }
    forall m ensures AnchorResolved(selected, m) <==> exists op :: op in selected && Unanchors(op, m) {
      assert forall op :: Unanchors(op, m) <==> (op.DeleteNodeCandidate? && Spells(op.node, m))
                                                || (op.UpdateNodeCandidate? && op.newRoot.Some? && Spells(op.node, m));
    }
    hide EdgeResolved, AnchorResolved, DeletesEdge, Unanchors;
  }

  lemma SpelledIff(selected: set<Candidate>)
    ensures Spelled(selected) <==> ResolutionsParse(selected)
  {
  }

  /** The check before a review lets through exactly these. */
  lemma PassesIff(c: Canvas, op: Candidate, ids: IdMap, selected: set<Candidate>)
    ensures Preflight(c, op, ids, selected).None? <==> Passes(c, op, ids, selected)
  {
    if op.AddNodeCandidate? {
      AdditionPasses(c, op, ids, selected);
    } else if op.DeleteNodeCandidate? {
      DeletionPasses(c, op, ids, selected);
    } else {
      OtherPasses(c, op, ids, selected);
    }
  }

  lemma AdditionPasses(c: Canvas, op: Candidate, ids: IdMap, selected: set<Candidate>)
    requires op.AddNodeCandidate?
    ensures Preflight(c, op, ids, selected).None? <==> Passes(c, op, ids, selected)
  {
    RootIff(c, op, ids, selected);
    if ProvenanceNodes in op.metadata && op.metadata[ProvenanceNodes].Items? {
      AllKnownIff(c, op.metadata[ProvenanceNodes].items, ids);
    }
    hide RootVerdict, RootKnown, KnownNodes, AllKnown;
  }

  lemma DeletionPasses(c: Canvas, op: Candidate, ids: IdMap, selected: set<Candidate>)
    requires op.DeleteNodeCandidate?
    ensures Preflight(c, op, ids, selected).None? <==> Passes(c, op, ids, selected)
  {
    SpelledIff(selected);
    if Meant(op.node, ids).Some? {
      FreedIff(c, Meant(op.node, ids).value, selected);
    }
    hide Spelled, ResolutionsParse, Freed, EdgeResolved, AnchorResolved, Incident;
  }

  lemma OtherPasses(c: Canvas, op: Candidate, ids: IdMap, selected: set<Candidate>)
    requires !op.AddNodeCandidate? && !op.DeleteNodeCandidate?
    ensures Preflight(c, op, ids, selected).None? <==> Passes(c, op, ids, selected)
  {
  }

  // ---- applying ----

  /** The root that an addition or an edit of a constraint ends up with, or none it can have. */
  predicate RootFits(c: Canvas, kind: NodeKind, scope: Option<Value>, root: Option<Id>, named: bool) {
    if kind != Constraint || scope == Some(Text(GlobalScope)) then !named
    else
      && scope == Some(Text(BranchScope)) && root.Some? && root.value in c.nodes && CanRoot(c.nodes[root.value].kind)
  }

  function ScopeAfter(op: Candidate, node: Node, ids: IdMap): Option<Value> {
    if ContextScope in FieldsGiven(op) then Some(Rewrite(FieldsGiven(op)[ContextScope], ids))
    else Get(node.metadata, ContextScope)
  }

  /** An edit may go ahead when it leaves the anchor alone or the anchor it leads to is one the node can have. */
  predicate EditFits(c: Canvas, op: Candidate, ids: IdMap, n: Id)
    requires n in c.nodes
  {
    var node := c.nodes[n];
    if op.UpdateNodeCandidate? && op.newRoot.Some? then
      match op.newRoot.value
      case Some(token) => RootFits(c, node.kind, ScopeAfter(op, node, ids), MeantInUpdate(token, ids), true)
      case None => RootFits(c, node.kind, ScopeAfter(op, node, ids), None, false)
    else if node.kind != Constraint then true
    else
      match node.branchRoot
      case Some(r) => RootFits(c, node.kind, ScopeAfter(op, node, ids), Meant(IdText(r), ids), true)
      case None => RootFits(c, node.kind, ScopeAfter(op, node, ids), None, false)
  }

  predicate EndFits(c: Canvas, token: Option<Token>, ids: IdMap) {
    token.Some? ==> match MeantInUpdate(token.value, ids)
                    case Some(n) => n in c.nodes
                    case None => false
  }

  predicate Applicable(c: Canvas, op: Candidate, ids: IdMap) {
    match op
    case AddNodeCandidate(local, kind, _, _, metadata, root, _) =>
      && Meant(local, ids).Some? && Meant(local, ids).value !in c.nodes
      && RootFits(c, kind, if ContextScope in metadata then Some(Rewrite(metadata[ContextScope], ids)) else None,
                  if root.Some? then Meant(root.value, ids) else None, root.Some?)
    case UpdateNodeCandidate(n, expected, _, _, _, _) => VersionIs(c, n, ids, expected) && EditFits(c, op, ids, Meant(n, ids).value)
    case PatchMetadataCandidate(n, expected, _) => VersionIs(c, n, ids, expected) && EditFits(c, op, ids, Meant(n, ids).value)
    case MoveNodeCandidate(n, expected, _) =>
      (match Meant(n, ids) case Some(m) => m in c.nodes && c.nodes[m].positionVersion == expected case None => false)
    case DeleteNodeCandidate(n, expected) =>
      && VersionIs(c, n, ids, expected)
      && (forall e :: e in c.edges ==> c.edges[e].source != Meant(n, ids).value && c.edges[e].target != Meant(n, ids).value)
      && (forall m :: m in c.nodes ==> c.nodes[m].branchRoot != Some(Meant(n, ids).value))
      && Meant(n, ids).value !in c.ingested
    case AddEdgeCandidate(local, source, target, _, _) =>
      && Meant(local, ids).Some? && Meant(local, ids).value !in c.edges && OnCanvas(c, source, ids) && OnCanvas(c, target, ids)
    case UpdateEdgeCandidate(e, expected, source, target, _, _) =>
      EdgeVersionIs(c, e, ids, expected) && EndFits(c, source, ids) && EndFits(c, target, ids)
    case DeleteEdgeCandidate(e, expected) => EdgeVersionIs(c, e, ids, expected)
  }

  lemma EndIff(c: Canvas, token: Option<Token>, current: Id, ids: IdMap)
    ensures NewEnd(c, token, current, ids).Fine? <==> EndFits(c, token, ids)
  {
  }

  lemma AdditionApplies(c: Canvas, patch: Id, op: Candidate, ids: IdMap)
    requires op.AddNodeCandidate?
    ensures HandleCandidate(c, patch, op, ids).Fine? <==> Applicable(c, op, ids)
  {
    assert Get(AcceptedMetadata(patch, op.metadata, ids), ContextScope)
        == if ContextScope in op.metadata then Some(Rewrite(op.metadata[ContextScope], ids)) else None;
    hide AcceptedMetadata, Get, Rewrite;
  }

  /** Which anchors an edit can lead to. */
  lemma AnchorApplies(c: Canvas, node: Node, metadata: Metadata, newRoot: Option<Option<Token>>, ids: IdMap)
    ensures var scope := Get(metadata, ContextScope);
            (if newRoot.Some? || node.kind == Constraint then
               CandidateRoot(c, node.kind, metadata, if newRoot.Some? then RenamedRoot(newRoot.value, ids) else CurrentRoot(node), ids)
             else Fine(node.branchRoot)).Fine?
            <==> match newRoot
                 case Some(Some(token)) => RootFits(c, node.kind, scope, MeantInUpdate(token, ids), true)
                 case Some(None) => RootFits(c, node.kind, scope, None, false)
                 case None =>
                   node.kind == Constraint ==>
                     match node.branchRoot
                     case Some(r) => RootFits(c, node.kind, scope, Meant(IdText(r), ids), true)
                     case None => RootFits(c, node.kind, scope, None, false)
  {
    hide Get;
  }

  lemma ScopeIs(metadata: Metadata, fields: Metadata, ids: IdMap)
    ensures Get(metadata + RewriteAll(fields, ids), ContextScope)
            == if ContextScope in fields then Some(Rewrite(fields[ContextScope], ids)) else Get(metadata, ContextScope)
  {
    hide Rewrite;
  }

  lemma EditApplies(c: Canvas, patch: Id, op: Candidate, ids: IdMap)
    requires op.UpdateNodeCandidate? || op.PatchMetadataCandidate?
    ensures HandleCandidate(c, patch, op, ids).Fine? <==> Applicable(c, op, ids)
  {
    if Meant(op.node, ids).Some? && Meant(op.node, ids).value in c.nodes {
      var node := c.nodes[Meant(op.node, ids).value];
      ScopeIs(node.metadata, FieldsGiven(op), ids);
      AnchorApplies(c, node, node.metadata + RewriteAll(FieldsGiven(op), ids), if op.UpdateNodeCandidate? then op.newRoot else None, ids);
    }
    hide RewriteAll, Get, Rewrite, CandidateRoot, RootFits, MeantInUpdate, RenamedRoot, CurrentRoot;
  }

  lemma OtherApplies(c: Canvas, patch: Id, op: Candidate, ids: IdMap)
    requires !op.AddNodeCandidate? && !op.UpdateNodeCandidate? && !op.PatchMetadataCandidate?
    ensures HandleCandidate(c, patch, op, ids).Fine? <==> Applicable(c, op, ids)
  {
    if op.UpdateEdgeCandidate? && Meant(op.edge, ids).Some? && Meant(op.edge, ids).value in c.edges {
      EndIff(c, op.newSource, c.edges[Meant(op.edge, ids).value].source, ids);
      EndIff(c, op.newTarget, c.edges[Meant(op.edge, ids).value].target, ids);
    }
    hide NewEnd, EndFits, RewriteAll;
  }

  /** A candidate whose key is new can be applied exactly when this holds of the canvas it meets. */
  lemma AppliesIff(c: Canvas, patch: Id, operation: Id, op: Candidate, ids: IdMap, excluded: set<Id>)
    requires forall i :: 0 <= i < |c.log| ==> c.log[i].key != PatchKey(patch, operation)
    ensures ApplyCandidate(c, patch, operation, op, ids, excluded).Fine? <==> Applicable(c, op, ids)
  {
    assert forall i: nat :: !KeyUsed(c.log, PatchKey(patch, operation), i);
    hide HandleCandidate, AffectedByCandidate, CaptureCandidate, Commit, Applicable;
    if op.AddNodeCandidate? {
      AdditionApplies(c, patch, op, ids);
    } else if op.UpdateNodeCandidate? || op.PatchMetadataCandidate? {
      EditApplies(c, patch, op, ids);
    } else {
      OtherApplies(c, patch, op, ids);
    }
  }
}

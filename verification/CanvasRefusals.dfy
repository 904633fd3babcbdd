/** When a direct operation is refused, error by error: the operation commits exactly when none of them applies
    (proofgraph/graph/operations.py:180-419, 480-934). */
module CanvasRefusals {
  import opened Reachability
  import opened GraphTypes
  import opened CanvasModel
  import opened CanvasInvalidation

  predicate NamesNode(request: Request) {
    || request.UpdateNode? || request.PatchNodeMetadata? || request.MoveNode? || request.DeleteNode?
    || request.ReplaceAssumption? || request.RejectEvidence?
  }

  predicate NamesEdge(request: Request) {
    request.UpdateEdge? || request.DeleteEdge?
  }

  predicate EditsNode(request: Request) {
    request.UpdateNode? || request.PatchNodeMetadata?
  }

  /** The operation is one that its subject can undergo at all: an accepted assumption is replaced; a source or claim that
      is no longer provisional and not yet rejected is rejected. */
  predicate Fit(c: Canvas, request: Request)
    requires NamesNode(request) && request.node in c.nodes
  {
    var node := c.nodes[request.node];
    var review := Get(node.metadata, ReviewStatus);
    && (request.ReplaceAssumption? ==> node.kind == Assumption && review == Some(Text(Accepted)))
    && (request.RejectEvidence? ==>
          (node.kind == Source || node.kind == Claim) && review != Some(Text(Provisional)) && review != Some(Text(Rejected)))
  }

  /** The subject is there and has the version the request was made for; a move counts position versions. */
  predicate Current(c: Canvas, request: Request) {
    if NamesNode(request) then
      && request.node in c.nodes && Fit(c, request)
      && request.expected == if request.MoveNode? then c.nodes[request.node].positionVersion else c.nodes[request.node].version
    else NamesEdge(request) ==> request.edge in c.edges && request.expected == c.edges[request.edge].version
  }

  predicate Empty(request: Request) {
    match request
    case UpdateNode(_, _, None, None, None, MissingRoot) => true
    case UpdateNode(_, _, None, None, Some(patch), MissingRoot) => patch == map[]
    case PatchNodeMetadata(_, _, fields, MissingRoot) => fields == map[]
    case UpdateEdge(_, _, None, None, None, None) => true
    case _ => false
  }

  // ---- additions and edits of nodes ----

  /** The request writes the content of a node, and nothing before its fields is wrong. */
  predicate Writes(c: Canvas, request: Request) {
    request.AddNode? || (EditsNode(request) && Current(c, request) && !Empty(request))
  }

  function KindOf(c: Canvas, request: Request): NodeKind
    requires Writes(c, request)
  {
    if request.AddNode? then request.kind else c.nodes[request.node].kind
  }

  function FieldsOf(request: Request): Metadata {
    match request
    case AddNode(_, _, _, metadata, _, _) => metadata
    case UpdateNode(_, _, _, _, Some(patch), _) => patch
    case PatchNodeMetadata(_, _, fields, _) => fields
    case _ => map[]
  }

  /** A field of the node as it would be. */
  function Becomes(c: Canvas, request: Request, f: Field): Option<Value>
    requires Writes(c, request)
  {
    if f in FieldsOf(request) then Some(FieldsOf(request)[f])
    else if request.AddNode? then None else Get(c.nodes[request.node].metadata, f)
  }

  /** A field that the server owns: it is neither free text nor one of the two that constraints have. */
  predicate Owned(request: Request) {
    exists f :: f in FieldsOf(request) && !f.Other? && f != ContextScope && f != Pinned
  }

  predicate ForConstraints(request: Request)
    requires request.AddNode? || EditsNode(request)
  {
    ContextScope in FieldsOf(request) || Pinned in FieldsOf(request) || !request.root.MissingRoot?
  }

  predicate WellScoped(c: Canvas, request: Request)
    requires Writes(c, request)
  {
    && (Becomes(c, request, ContextScope) == Some(Text(GlobalScope)) || Becomes(c, request, ContextScope) == Some(Text(BranchScope)))
    && (Becomes(c, request, Pinned) == Some(Flag(true)) || Becomes(c, request, Pinned) == Some(Flag(false)))
  }

  /** The root that a constraint would have: the given one; for an edit that says nothing of it, the one it has. */
  function RootOf(c: Canvas, request: Request): Option<Id>
    requires Writes(c, request)
  {
    match request.root
    case Root(id) => Some(id)
    case NullRoot => None
    case MissingRoot => if request.AddNode? then None else c.nodes[request.node].branchRoot
  }

  /** A branch constraint needs a root of a kind that can carry one; a global one must not be given any. */
  predicate WellRooted(c: Canvas, request: Request)
    requires Writes(c, request)
  {
    if Becomes(c, request, ContextScope) == Some(Text(GlobalScope)) then !request.root.Root?
    else
      match RootOf(c, request)
      case None => false
      case Some(r) =>
        r in c.nodes && (c.nodes[r].kind == Strategy || c.nodes[r].kind == Claim || c.nodes[r].kind == Opportunity)
  }

  predicate FieldsPass(c: Canvas, request: Request) {
    && Writes(c, request) && !Owned(request)
    && if KindOf(c, request) == Constraint then WellScoped(c, request) && WellRooted(c, request) else !ForConstraints(request)
  }

  predicate Untitled(request: Request) {
    match request
    case AddNode(_, title, _, _, _, _) => title == ""
    case UpdateNode(_, _, Some(title), _, _, _) => title == ""
    case ReplaceAssumption(_, _, title, _) => title == ""
    case _ => false
  }

  // ---- other subjects ----

  predicate EndsExist(c: Canvas, request: Request) {
    match request
    case AddEdge(source, target, _, _) => source in c.nodes && target in c.nodes
    case UpdateEdge(e, _, source, target, _, _) =>
      && e in c.edges
      && (match source case Some(n) => n in c.nodes case None => c.edges[e].source in c.nodes)
      && (match target case Some(n) => n in c.nodes case None => c.edges[e].target in c.nodes)
    case _ => true
  }

  /** Something on the canvas still refers to the node. */
  predicate InUse(c: Canvas, n: Id) {
    || (exists e :: e in c.edges && (c.edges[e].source == n || c.edges[e].target == n))
    || (exists m :: m in c.nodes && c.nodes[m].branchRoot == Some(n))
  }

  ghost predicate OwnedBy(c: Canvas, assumption: Id, owner: Id) {
    exists e :: OwnedAlong(c, e, assumption) && c.edges[e].source == owner
  }

  ghost predicate OneOwner(c: Canvas, assumption: Id) {
    exists o :: OwnedBy(c, assumption, o) && forall p :: OwnedBy(c, assumption, p) ==> p == o
  }

  // ---- which error ----

  ghost predicate RefusedAs(c: Canvas, request: Request, newId: Id, error: Error) {
    match error
    case NodeNotFound => NamesNode(request) && request.node !in c.nodes
    case EdgeNotFound => NamesEdge(request) && request.edge !in c.edges
    case InvalidAssumption => request.ReplaceAssumption? && request.node in c.nodes && !Fit(c, request)
    case EvidenceAlreadyRejected =>
      && request.RejectEvidence? && request.node in c.nodes
      && (c.nodes[request.node].kind == Source || c.nodes[request.node].kind == Claim)
      && Get(c.nodes[request.node].metadata, ReviewStatus) == Some(Text(Rejected))
    case InvalidEvidence =>
      && request.RejectEvidence? && request.node in c.nodes
      && ((c.nodes[request.node].kind != Source && c.nodes[request.node].kind != Claim)
          || Get(c.nodes[request.node].metadata, ReviewStatus) == Some(Text(Provisional)))
    case VersionConflict =>
      && !Current(c, request)
      && (NamesNode(request) ==> request.node in c.nodes && Fit(c, request)) && (NamesEdge(request) ==> request.edge in c.edges)
    case EmptyUpdate => Current(c, request) && Empty(request)
    case ServerOwnedField => Writes(c, request) && Owned(request)
    case WrongKindField =>
      Writes(c, request) && !Owned(request) && KindOf(c, request) != Constraint && ForConstraints(request)
    case InvalidConstraintMetadata =>
      Writes(c, request) && !Owned(request) && KindOf(c, request) == Constraint && !WellScoped(c, request)
    case InvalidBranchRoot =>
      && Writes(c, request) && !Owned(request) && KindOf(c, request) == Constraint && WellScoped(c, request)
      && !WellRooted(c, request)
    case InvalidTitle =>
      Untitled(request)
      && (FieldsPass(c, request) || (request.ReplaceAssumption? && Current(c, request) && OneOwner(c, request.node)))
    case InvalidAssumptionLineage => request.ReplaceAssumption? && Current(c, request) && !OneOwner(c, request.node)
    case InvalidEdgeEndpoint =>
      || (request.AddEdge? && !EndsExist(c, request))
      || (request.UpdateEdge? && Current(c, request) && !Empty(request) && !EndsExist(c, request))
    case NodeHasDependencies => request.DeleteNode? && Current(c, request) && InUse(c, request.node)
    case IntegrityError =>
      || (request.AddNode? && FieldsPass(c, request) && !Untitled(request) && newId in c.nodes)
      || (request.AddEdge? && EndsExist(c, request) && newId in c.edges)
      || (request.DeleteNode? && Current(c, request) && !InUse(c, request.node) && request.node in c.ingested)
    case OperationKeyConflict => false
  }

  lemma OwnersAre(c: Canvas, n: Id)
    ensures forall o :: o in Owners(c, n) <==> OwnedBy(c, n, o)
    ensures |Owners(c, n)| == 1 <==> OneOwner(c, n)
  {
    forall o ensures o in Owners(c, n) <==> OwnedBy(c, n, o) {
      if OwnedBy(c, n, o) {
        var e :| OwnedAlong(c, e, n) && c.edges[e].source == o;
      }
      if o in Owners(c, n) {
        var e :| e in c.edges && c.edges[e].kind == DerivedFrom && c.edges[e].target == n
          && c.edges[e].source in c.nodes && c.nodes[c.edges[e].source].kind == Opportunity && c.edges[e].source == o;
        assert OwnedAlong(c, e, n);
      }
    }
    hide Owners, OwnedBy;
    if |Owners(c, n)| == 1 {
      OnlyMember(Owners(c, n));
      var o :| o in Owners(c, n);
    }
    if OneOwner(c, n) {
      var o :| OwnedBy(c, n, o) && forall p :: OwnedBy(c, n, p) ==> p == o;
      assert Owners(c, n) == {o};
    }
  }

  lemma AdditionRefused(c: Canvas, request: Request, newId: Id, error: Error)
    requires request.AddNode?
    ensures Handle(c, request, newId) == Err(error) <==> RefusedAs(c, request, newId, error)
  {
  }

  lemma FieldsChecked(c: Canvas, request: Request)
    requires Writes(c, request)
    ensures var bad := CheckMetadata(KindOf(c, request), FieldsOf(request));
            && (bad == Some(ServerOwnedField) <==> Owned(request))
            && (bad == Some(WrongKindField) <==>
                  && !Owned(request) && KindOf(c, request) != Constraint
                  && (ContextScope in FieldsOf(request) || Pinned in FieldsOf(request)))
            && (bad.Some? ==> bad == Some(ServerOwnedField) || bad == Some(WrongKindField))
  {
  }

  lemma BecomesMerged(c: Canvas, request: Request, f: Field)
    requires Writes(c, request) && EditsNode(request)
    ensures Get(c.nodes[request.node].metadata + FieldsOf(request), f) == Becomes(c, request, f)
  {
  }

  lemma EditStops(c: Canvas, request: Request, newId: Id, error: Error)
    requires EditsNode(request) && !Writes(c, request)
    ensures Handle(c, request, newId) == Err(error) <==> RefusedAs(c, request, newId, error)
  {
    hide CheckMetadata, ConstraintRoot, Get, Owned;
  }

  lemma PlainNodeRefused(c: Canvas, request: Request, newId: Id, error: Error)
    requires EditsNode(request) && Writes(c, request) && KindOf(c, request) != Constraint
    ensures Handle(c, request, newId) == Err(error) <==> RefusedAs(c, request, newId, error)
  {
    FieldsChecked(c, request);
    hide CheckMetadata, Get, Becomes, Owned;
  }

  lemma UpdatedConstraintRefused(c: Canvas, request: Request, newId: Id, error: Error)
    requires request.UpdateNode? && Writes(c, request) && KindOf(c, request) == Constraint
    ensures Handle(c, request, newId) == Err(error) <==> RefusedAs(c, request, newId, error)
  {
    FieldsChecked(c, request);
    BecomesMerged(c, request, ContextScope);
    BecomesMerged(c, request, Pinned);
    hide CheckMetadata, Get, Becomes, Owned;
  }

  lemma PatchedConstraintRefused(c: Canvas, request: Request, newId: Id, error: Error)
    requires request.PatchNodeMetadata? && Writes(c, request) && KindOf(c, request) == Constraint
    ensures Handle(c, request, newId) == Err(error) <==> RefusedAs(c, request, newId, error)
  {
    FieldsChecked(c, request);
    BecomesMerged(c, request, ContextScope);
    BecomesMerged(c, request, Pinned);
    hide CheckMetadata, Get, Becomes, Owned;
  }

  lemma EditRefused(c: Canvas, request: Request, newId: Id, error: Error)
    requires EditsNode(request)
    ensures Handle(c, request, newId) == Err(error) <==> RefusedAs(c, request, newId, error)
  {
    hide Handle, RefusedAs, Writes;
    if !Writes(c, request) {
      EditStops(c, request, newId, error);
    } else if KindOf(c, request) != Constraint {
      PlainNodeRefused(c, request, newId, error);
    } else if request.UpdateNode? {
      UpdatedConstraintRefused(c, request, newId, error);
    } else {
      PatchedConstraintRefused(c, request, newId, error);
    }
  }

  lemma EdgeRefused(c: Canvas, request: Request, newId: Id, error: Error)
    requires request.AddEdge? || NamesEdge(request)
    ensures Handle(c, request, newId) == Err(error) <==> RefusedAs(c, request, newId, error)
  {
  }

  lemma NodeRefused(c: Canvas, request: Request, newId: Id, error: Error)
    requires request.MoveNode? || request.DeleteNode? || request.RejectEvidence?
    ensures Handle(c, request, newId) == Err(error) <==> RefusedAs(c, request, newId, error)
  {
    hide RemainingSources, IndependenceKeys, ImpactedClaims;
  }

  lemma ReplacementStops(c: Canvas, request: Request, newId: Id)
    requires request.ReplaceAssumption?
    ensures var r := Handle(c, request, newId);
            if request.node !in c.nodes then r == Err(NodeNotFound)
            else if !Fit(c, request) then r == Err(InvalidAssumption)
            else if !Current(c, request) then r == Err(VersionConflict)
            else if !OneOwner(c, request.node) then r == Err(InvalidAssumptionLineage)
            else if request.replacement == "" then r == Err(InvalidTitle)
            else r.Ok?
  {
    hide Owners, OwnedBy, OneOwner, TheOnly;
    OneOwnerCounts(c, request.node);
  }

  lemma OneOwnerCounts(c: Canvas, n: Id)
    ensures |Owners(c, n)| == 1 <==> OneOwner(c, n)
  {
    hide Owners, OwnedBy, OneOwner;
    OwnersAre(c, n);
  }

  lemma ReplacementRefused(c: Canvas, request: Request, newId: Id, error: Error)
    requires request.ReplaceAssumption?
    ensures Handle(c, request, newId) == Err(error) <==> RefusedAs(c, request, newId, error)
  {
    ReplacementStops(c, request, newId);
    assert !Writes(c, request) && !FieldsPass(c, request) && !Empty(request);
    hide Handle, OneOwner, Writes, FieldsPass, Empty, Owned, EndsExist, InUse;
  }

  /** Every error exactly when its condition holds. */
  lemma RefusedExactly(c: Canvas, request: Request, newId: Id, error: Error)
    ensures Handle(c, request, newId) == Err(error) <==> RefusedAs(c, request, newId, error)
  {
    hide Handle, RefusedAs;
    match request
    case AddNode(_, _, _, _, _, _) => AdditionRefused(c, request, newId, error);
    case UpdateNode(_, _, _, _, _, _) => EditRefused(c, request, newId, error);
    case PatchNodeMetadata(_, _, _, _) => EditRefused(c, request, newId, error);
    case ReplaceAssumption(_, _, _, _) => ReplacementRefused(c, request, newId, error);
    case AddEdge(_, _, _, _) => EdgeRefused(c, request, newId, error);
    case UpdateEdge(_, _, _, _, _, _) => EdgeRefused(c, request, newId, error);
    case DeleteEdge(_, _) => EdgeRefused(c, request, newId, error);
    case _ => NodeRefused(c, request, newId, error);
  }

  // ---- replays ----

  /** A known key answers with what was stored under it for the same request, or is refused; an unknown one is handled. */
  lemma KeyDecides(c: Canvas, id: Id, request: Request, newId: Id, i: nat)
    requires i < |c.log| && c.log[i].key == DirectKey(id)
    requires forall j :: 0 <= j < |c.log| && c.log[j].key == DirectKey(id) ==> j == i
    ensures ApplyOperation(c, id, request, newId)
            == if c.log[i].audit == Direct(request) then Replayed(c.log[i].payload) else Failed(OperationKeyConflict)
  {
    hide Handle;
    assert KeyUsed(c.log, DirectKey(id), i);
  }
}

/** One canvas: its rows, its append-only operation log, and the outcome of every direct graph
    operation as a function of the canvas before it. */
module CanvasModel {
  import opened Reachability
  import opened GraphTypes

  datatype Node = Node(
    kind: NodeKind,
    title: string,
    body: Option<string>,
    metadata: Metadata,
    branchRoot: Option<Id>,
    position: Option<(real, real)>,
    stale: bool,
    staleSince: Option<nat>,
    version: nat,
    positionVersion: nat)

  datatype Origin = FromNode(node: Id) | FromEdge(edge: Id) | NoOrigin

  /** A staleness cause row: the revision of the causing operation, and the entity it touched. */
  datatype Cause = Cause(operation: nat, origin: Origin)

  /** actor_type and operation_key together; patch keys are derived from patch and operation. */
  datatype Key = DirectKey(id: Id) | PatchKey(patch: Id, operation: Id) | SourceKey(key: Token)

  datatype Change =
    | NodeSaved(id: Id) | NodeDeleted(id: Id)
    | EdgeSaved(id: Id) | EdgeDeleted(id: Id)
    | AssumptionReplaced(id: Id, previousTitle: string, previousBody: Option<string>, previousVersion: nat, owner: Id)
    | EvidenceRejected(id: Id, rejectedClaims: set<Id>, retainedClaims: set<Id>)

  /** The stored result of an operation. */
  datatype Payload = Payload(revision: nat, change: Change, stale: set<Id>, newlyStale: set<Id>)

  /** Fingerprints are injective, so an entry carries the request it was made from. */
  datatype Audit = Direct(request: Request) | FromPatch(patch: Id, operation: Id, candidate: Candidate)
                 | FromIngestion(fingerprint: Token)

  datatype Entry = Entry(key: Key, audit: Audit, payload: Payload)

  /** ingested: sources a completed ingestion request refers to; the database refuses to delete them. */
  datatype Canvas = Canvas(
    nodes: map<Id, Node>,
    edges: map<Id, Edge>,
    causes: map<Id, seq<Cause>>,
    ingested: set<Id>,
    revision: nat,
    log: seq<Entry>)

  datatype Error =
    | NodeNotFound | EdgeNotFound | VersionConflict | EmptyUpdate | InvalidTitle
    | ServerOwnedField | WrongKindField | InvalidConstraintMetadata | InvalidBranchRoot
    | InvalidEdgeEndpoint | NodeHasDependencies | InvalidAssumption | InvalidAssumptionLineage
    | InvalidEvidence | EvidenceAlreadyRejected | OperationKeyConflict | IntegrityError

  datatype Result<+T> = Ok(value: T) | Err(error: Error)

  /** branch_root_node_id in a request: left out, null, or an identity. */
  datatype RootArg = MissingRoot | NullRoot | Root(id: Id)

  datatype Request =
    | AddNode(kind: NodeKind, title: string, body: Option<string>, metadata: Metadata, root: RootArg,
              position: Option<(real, real)>)
    | UpdateNode(node: Id, expected: nat, newTitle: Option<string>, newBody: Option<Option<string>>,
                 patch: Option<Metadata>, root: RootArg)
    | PatchNodeMetadata(node: Id, expected: nat, fields: Metadata, root: RootArg)
    | MoveNode(node: Id, expected: nat, to: (real, real))
    | DeleteNode(node: Id, expected: nat)
    | AddEdge(source: Id, target: Id, edgeKind: EdgeKind, metadata: Metadata)
    | UpdateEdge(edge: Id, expected: nat, newSource: Option<Id>, newTarget: Option<Id>,
                 newKind: Option<EdgeKind>, newMetadata: Option<Metadata>)
    | DeleteEdge(edge: Id, expected: nat)
    | ReplaceAssumption(node: Id, expected: nat, replacement: string, replacementBody: Option<Option<string>>)
    | RejectEvidence(node: Id, expected: nat)

  /** An operation of a candidate patch; references are patch-local names or identity texts. */
  datatype Candidate =
    | AddNodeCandidate(local: Token, kind: NodeKind, title: string, body: Option<string>, metadata: Metadata,
                       root: Option<Token>, position: Option<(real, real)>)
    | UpdateNodeCandidate(node: Token, expected: nat, newTitle: Option<string>, newBody: Option<Option<string>>,
                          patch: Option<Metadata>, newRoot: Option<Option<Token>>)
    | PatchMetadataCandidate(node: Token, expected: nat, fields: Metadata)
    | MoveNodeCandidate(node: Token, expected: nat, to: (real, real))
    | DeleteNodeCandidate(node: Token, expected: nat)
    | AddEdgeCandidate(local: Token, source: Token, target: Token, edgeKind: EdgeKind, metadata: Metadata)
    | UpdateEdgeCandidate(edge: Token, expected: nat, newSource: Option<Token>, newTarget: Option<Token>,
                          newKind: Option<EdgeKind>, newMetadata: Option<Metadata>)
    | DeleteEdgeCandidate(edge: Token, expected: nat)

  // ------------------------------------------------------------------ validation helpers

  /** Fields only the server writes. Per-kind allow lists of the other fields are not modelled,
      except that context_scope and pinned belong to constraints. */
  predicate ServerOwned(field: Field) {
    !field.Other? && !field.ContextScope? && !field.Pinned?
  }

  function CheckMetadata(kind: NodeKind, metadata: Metadata): Option<Error> {
    if exists f :: f in metadata && ServerOwned(f) then Some(ServerOwnedField)
    else if kind != Constraint && (ContextScope in metadata || Pinned in metadata) then Some(WrongKindField)
    else None
  }

  predicate IsRootKind(kind: NodeKind) {
    kind == Strategy || kind == Claim || kind == Opportunity
  }

  /** The branch root a node with this metadata must have. */
  function ConstraintRoot(nodes: map<Id, Node>, kind: NodeKind, metadata: Metadata, root: RootArg)
    : Result<Option<Id>>
  {
    if kind != Constraint then
      if root.MissingRoot? then Ok(None) else Err(WrongKindField)
    else
      var scope := Get(metadata, ContextScope);
      if scope != Some(Text(GlobalScope)) && scope != Some(Text(BranchScope)) then Err(InvalidConstraintMetadata)
      else if Get(metadata, Pinned) != Some(Flag(true)) && Get(metadata, Pinned) != Some(Flag(false)) then
        Err(InvalidConstraintMetadata)
      else if scope == Some(Text(GlobalScope)) then
        if root.Root? then Err(InvalidBranchRoot) else Ok(None)
      else if !root.Root? then Err(InvalidBranchRoot)
      else if root.id !in nodes || !IsRootKind(nodes[root.id].kind) then Err(InvalidBranchRoot)
      else Ok(Some(root.id))
  }

  predicate Incident(edges: map<Id, Edge>, e: Id, node: Id) {
    e in edges && (edges[e].source == node || edges[e].target == node)
  }

  // ------------------------------------------------------------------ handlers

  function AddNodeTo(c: Canvas, request: Request, newId: Id): Result<(Canvas, Change)>
    requires request.AddNode?
  {
    var bad := CheckMetadata(request.kind, request.metadata);
    if bad.Some? then Err(bad.value) else
    var root := ConstraintRoot(c.nodes, request.kind, request.metadata, request.root);
    if root.Err? then Err(root.error)
    else if request.title == "" then Err(InvalidTitle)
    else if newId in c.nodes then Err(IntegrityError)
    else
      var node := Node(request.kind, request.title, request.body, request.metadata, root.value, request.position,
                       false, None, 1, 1);
      Ok((c.(nodes := c.nodes[newId := node]), NodeSaved(newId)))
  }

  /** UPDATE_NODE and PATCH_NODE_METADATA share one path; the patch is merged over the old metadata. */
  function SemanticChange(c: Canvas, id: Id, expected: nat, newTitle: Option<string>,
                             newBody: Option<Option<string>>, patch: Option<Metadata>, root: RootArg)
    : Result<(Canvas, Change)>
  {
    if id !in c.nodes then Err(NodeNotFound) else
    var node := c.nodes[id];
    if node.version != expected then Err(VersionConflict)
    else if newTitle.None? && newBody.None? && root.MissingRoot? && (patch.None? || patch.value == map[]) then
      Err(EmptyUpdate)
    else
      var fields := if patch.Some? then patch.value else map[];
      var bad := CheckMetadata(node.kind, fields);
      if bad.Some? then Err(bad.value) else
      var metadata := node.metadata + fields;
      var effectiveRoot :=
        if node.kind != Constraint || !root.MissingRoot? then root
        else if Get(metadata, ContextScope) == Some(Text(GlobalScope)) then NullRoot
        else if node.branchRoot.Some? then Root(node.branchRoot.value)
        else MissingRoot;
      var branchRoot := ConstraintRoot(c.nodes, node.kind, metadata, effectiveRoot);
      if branchRoot.Err? then Err(branchRoot.error)
      else if newTitle == Some("") then Err(InvalidTitle)
      else
        var changed := node.(
          title := if newTitle.Some? then newTitle.value else node.title,
          body := if newBody.Some? then newBody.value else node.body,
          metadata := metadata, branchRoot := branchRoot.value, version := node.version + 1);
        Ok((c.(nodes := c.nodes[id := changed]), NodeSaved(id)))
  }

  function MoveNodeIn(c: Canvas, id: Id, expected: nat, to: (real, real)): Result<(Canvas, Change)> {
    if id !in c.nodes then Err(NodeNotFound) else
    var node := c.nodes[id];
    if node.positionVersion != expected then Err(VersionConflict)
    else
      var moved := node.(position := Some(to), positionVersion := node.positionVersion + 1);
      Ok((c.(nodes := c.nodes[id := moved]), NodeSaved(id)))
  }

  /** Refused while edges or branch constraints refer to the node; its cause rows go with it. */
  function DeleteNodeFrom(c: Canvas, id: Id, expected: nat): Result<(Canvas, Change)> {
    if id !in c.nodes then Err(NodeNotFound)
    else if c.nodes[id].version != expected then Err(VersionConflict)
    else if (exists e :: e in c.edges && Incident(c.edges, e, id))
         || (exists n :: n in c.nodes && c.nodes[n].branchRoot == Some(id)) then Err(NodeHasDependencies)
    else if id in c.ingested then Err(IntegrityError)
    else Ok((c.(nodes := c.nodes - {id}, causes := c.causes - {id}), NodeDeleted(id)))
  }

  function AddEdgeTo(c: Canvas, request: Request, newId: Id): Result<(Canvas, Change)>
    requires request.AddEdge?
  {
    if request.source !in c.nodes || request.target !in c.nodes then Err(InvalidEdgeEndpoint)
    else if newId in c.edges then Err(IntegrityError)
    else
      var edge := Edge(request.source, request.target, request.edgeKind, request.metadata, 1);
      Ok((c.(edges := c.edges[newId := edge]), EdgeSaved(newId)))
  }

  function UpdateEdgeIn(c: Canvas, request: Request): Result<(Canvas, Change)>
    requires request.UpdateEdge?
  {
    if request.edge !in c.edges then Err(EdgeNotFound) else
    var edge := c.edges[request.edge];
    if edge.version != request.expected then Err(VersionConflict)
    else if request.newSource.None? && request.newTarget.None? && request.newKind.None? && request.newMetadata.None? then
      Err(EmptyUpdate)
    else
      var changed := Edge(
        if request.newSource.Some? then request.newSource.value else edge.source,
        if request.newTarget.Some? then request.newTarget.value else edge.target,
        if request.newKind.Some? then request.newKind.value else edge.kind,
        if request.newMetadata.Some? then request.newMetadata.value else edge.metadata,
        edge.version + 1);
      if changed.source !in c.nodes || changed.target !in c.nodes then Err(InvalidEdgeEndpoint)
      else Ok((c.(edges := c.edges[request.edge := changed]), EdgeSaved(request.edge)))
  }

  function DeleteEdgeFrom(c: Canvas, id: Id, expected: nat): Result<(Canvas, Change)> {
    if id !in c.edges then Err(EdgeNotFound)
    else if c.edges[id].version != expected then Err(VersionConflict)
    else Ok((c.(edges := c.edges - {id}), EdgeDeleted(id)))
  }

  /** Opportunities a derived_from edge attaches to the assumption. */
  function Owners(c: Canvas, assumption: Id): set<Id> {
    set e | e in c.edges && c.edges[e].kind == DerivedFrom && c.edges[e].target == assumption
            && c.edges[e].source in c.nodes && c.nodes[c.edges[e].source].kind == Opportunity :: c.edges[e].source
  }

  function ReplaceAssumptionIn(c: Canvas, request: Request): Result<(Canvas, Change)>
    requires request.ReplaceAssumption?
  {
    if request.node !in c.nodes then Err(NodeNotFound) else
    var node := c.nodes[request.node];
    if node.kind != Assumption || !HasReview(node.metadata, Accepted) then Err(InvalidAssumption)
    else if node.version != request.expected then Err(VersionConflict)
    else if |Owners(c, request.node)| != 1 then Err(InvalidAssumptionLineage)
    else if request.replacement == "" then Err(InvalidTitle)
    else
      var owner := TheOnly(Owners(c, request.node));
      var changed := node.(
        title := request.replacement,
        body := if request.replacementBody.Some? then request.replacementBody.value else Some(request.replacement),
        version := node.version + 1);
      Ok((c.(nodes := c.nodes[request.node := changed]),
          AssumptionReplaced(request.node, node.title, node.body, node.version, owner)))
  }

  function TheOnly(s: set<Id>): (x: Id)
    requires |s| == 1
    ensures s == {x}
  {
    OnlyMember(s);
    var x :| x in s && s == {x};
    x
  }

  lemma OnlyMember(s: set<Id>)
    requires |s| == 1
    ensures exists x :: x in s && s == {x}
    ensures forall x, y :: x in s && y in s ==> x == y
  {
    var x :| x in s;
    assert |s - {x}| == 0;
    assert s == {x};
  }

  /** Claims extracted from a source. */
  function ExtractedClaims(c: Canvas, source: Id): set<Id> {
    set e | e in c.edges && c.edges[e].kind == ExtractedFrom && c.edges[e].target == source
            && c.edges[e].source in c.nodes && c.nodes[c.edges[e].source].kind == Claim :: c.edges[e].source
  }

  /** The other sources of a claim that may still carry it. */
  function RemainingSources(c: Canvas, claim: Id, rejected: Id): set<Id> {
    set e | e in c.edges && c.edges[e].kind == ExtractedFrom && c.edges[e].source == claim
            && c.edges[e].target != rejected && c.edges[e].target in c.nodes
            && c.nodes[c.edges[e].target].kind == Source
            && !HasReview(c.nodes[c.edges[e].target].metadata, Provisional)
            && !HasReview(c.nodes[c.edges[e].target].metadata, Rejected) :: c.edges[e].target
  }

  function IndependenceKeys(c: Canvas, sources: set<Id>): set<Token> {
    set s | s in sources && s in c.nodes && IndependenceKey in c.nodes[s].metadata
            && c.nodes[s].metadata[IndependenceKey].Text? && c.nodes[s].metadata[IndependenceKey].token != Word("")
      :: c.nodes[s].metadata[IndependenceKey].token
  }

  function RecomputedClaim(c: Canvas, claim: Id, rejected: Id): Node
    requires claim in c.nodes
  {
    var sources := RemainingSources(c, claim, rejected);
    var keys := IndependenceKeys(c, sources);
    var node := c.nodes[claim];
    var metadata := node.metadata[EligibleSourceIds := IdSet(sources)][EligibleIndependenceKeys := TokenSet(keys)]
      [IndependentSupportCount := Number(|keys|)];
    node.(metadata := if sources == {} then metadata[ReviewStatus := Text(Rejected)] else metadata,
          version := node.version + 1)
  }

  function ImpactedClaims(c: Canvas, evidence: Id): set<Id>
    requires evidence in c.nodes
  {
    if c.nodes[evidence].kind != Source then {}
    else set n | n in ExtractedClaims(c, evidence) && !HasReview(c.nodes[n].metadata, Rejected)
  }

  function RejectEvidenceIn(c: Canvas, id: Id, expected: nat): Result<(Canvas, Change)> {
    if id !in c.nodes then Err(NodeNotFound) else
    var node := c.nodes[id];
    if node.kind != Source && node.kind != Claim then Err(InvalidEvidence)
    else if HasReview(node.metadata, Provisional) then Err(InvalidEvidence)
    else if HasReview(node.metadata, Rejected) then Err(EvidenceAlreadyRejected)
    else if node.version != expected then Err(VersionConflict)
    else
      var impacted := ImpactedClaims(c, id);
      var dropped := set n | n in impacted && RemainingSources(c, n, id) == {};
      var nodes := map n | n in c.nodes ::
        if n == id then node.(metadata := node.metadata[ReviewStatus := Text(Rejected)], version := node.version + 1)
        else if n in impacted then RecomputedClaim(c, n, id)
        else c.nodes[n];
      Ok((c.(nodes := nodes), EvidenceRejected(id, dropped, impacted - dropped)))
  }

  function Handle(c: Canvas, request: Request, newId: Id): Result<(Canvas, Change)> {
    match request
    case AddNode(_, _, _, _, _, _) => AddNodeTo(c, request, newId)
    case UpdateNode(n, v, title, body, patch, root) => SemanticChange(c, n, v, title, body, patch, root)
    case PatchNodeMetadata(n, v, fields, root) => SemanticChange(c, n, v, None, None, Some(fields), root)
    case MoveNode(n, v, to) => MoveNodeIn(c, n, v, to)
    case DeleteNode(n, v) => DeleteNodeFrom(c, n, v)
    case AddEdge(_, _, _, _) => AddEdgeTo(c, request, newId)
    case UpdateEdge(_, _, _, _, _, _) => UpdateEdgeIn(c, request)
    case DeleteEdge(e, v) => DeleteEdgeFrom(c, e, v)
    case ReplaceAssumption(_, _, _, _) => ReplaceAssumptionIn(c, request)
    case RejectEvidence(n, v) => RejectEvidenceIn(c, n, v)
  }

  // ------------------------------------------------------------------ invalidation

  /** What is captured before the handler runs: where the traversal after it starts. */
  datatype Capture = NoCapture
                   | Captured(origin: Origin, roots: set<Id>, includeRoots: bool, excluded: set<Id>, precomputed: set<Id>)

  ghost function CaptureInvalidation(c: Canvas, request: Request): Capture {
    match request
    case UpdateNode(n, _, _, _, _, _) => Captured(FromNode(n), {n}, false, {n}, {})
    case PatchNodeMetadata(n, _, _, _) => Captured(FromNode(n), {n}, false, {n}, {})
    case DeleteNode(n, _) =>
      Captured(FromNode(n), {}, false, {}, Dependents(Dependencies(c.edges), {n}, false, {n}))
    case UpdateEdge(e, _, _, _, _, _) =>
      if e in c.edges then Captured(FromEdge(e), {PairOf(c.edges[e]).1}, true, {}, {}) else NoCapture
    case DeleteEdge(e, _) =>
      if e in c.edges then Captured(FromEdge(e), {PairOf(c.edges[e]).1}, true, {}, {}) else NoCapture
    case ReplaceAssumption(n, _, _, _) => Captured(FromNode(n), Owners(c, n), true, {n}, {})
    case RejectEvidence(n, _) =>
      if n !in c.nodes || (c.nodes[n].kind != Source && c.nodes[n].kind != Claim) then NoCapture
      else
        var claims := if c.nodes[n].kind == Source then ExtractedClaims(c, n) else {};
        Captured(FromNode(n), {n} + claims, false, {n} + claims, {})
    case _ => NoCapture
  }

  /** Resolved on the canvas after the handler; an updated edge adds its new descendant end. */
  ghost function ResolveInvalidation(after: Canvas, request: Request, capture: Capture): set<Id> {
    if capture.NoCapture? then {}
    else if capture.precomputed != {} then capture.precomputed
    else
      var roots := capture.roots +
        (if request.UpdateEdge? && request.edge in after.edges then {PairOf(after.edges[request.edge]).1} else {});
      Dependents(Dependencies(after.edges), roots, capture.includeRoots, capture.excluded)
  }

  predicate Eligible(nodes: map<Id, Node>, id: Id) {
    id in nodes && nodes[id].kind != GenerationPlaceholder && !HasReview(nodes[id].metadata, Rejected)
  }

  // ------------------------------------------------------------------ commit

  /** The first fresh-to-stale transition bumps the version; later causes only accumulate. */
  function Staled(node: Node, revision: nat): Node {
    if node.stale then node
    else node.(stale := true, staleSince := Some(revision), version := node.version + 1)
  }

  /** The affected nodes that invalidation applies to, and those of them that were fresh. */
  function StaleTargets(nodes: map<Id, Node>, affected: set<Id>): set<Id> {
    set n | n in affected && Eligible(nodes, n)
  }

  function NewlyStale(nodes: map<Id, Node>, stale: set<Id>): set<Id> {
    set n | n in stale && n in nodes && !nodes[n].stale
  }

  function CausesOf(causes: map<Id, seq<Cause>>, id: Id): seq<Cause> {
    if id in causes then causes[id] else []
  }

  function MarkStale(c: Canvas, ids: set<Id>, revision: nat, origin: Origin): Canvas {
    c.(nodes := map n | n in c.nodes :: if n in ids then Staled(c.nodes[n], revision) else c.nodes[n],
       causes := map n | n in c.causes.Keys + ids ::
         if n in ids then CausesOf(c.causes, n) + [Cause(revision, origin)] else c.causes[n])
  }

  function ReviewStamped(node: Node, stamp: Field, revision: nat): Node {
    node.(metadata := node.metadata[ReviewedBy := Number(revision)][stamp := Number(revision)])
  }

  /** Audit stamps of an evidence rejection; no version changes. */
  function Stamp(nodes: map<Id, Node>, change: Change, revision: nat): map<Id, Node> {
    if !change.EvidenceRejected? then nodes else
    map n | n in nodes ::
      (if n == change.id || n in change.rejectedClaims then ReviewStamped(nodes[n], RejectedBy, revision)
       else if n in change.retainedClaims then ReviewStamped(nodes[n], SupportReviewedBy, revision)
       else nodes[n])
  }

  /** The transaction after its handler: affected nodes are staled, the operation is logged, and
      the revision advances by one. */
  ghost function Commit(changed: Canvas, key: Key, audit: Audit, change: Change, affected: set<Id>, origin: Origin)
    : Canvas
  {
    var revision := changed.revision + 1;
    var stale := StaleTargets(changed.nodes, affected);
    var newly := NewlyStale(changed.nodes, stale);
    var stamped := changed.(nodes := Stamp(changed.nodes, change, revision));
    MarkStale(stamped, stale, revision, origin).(
      revision := revision,
      log := changed.log + [Entry(key, audit, Payload(revision, change, stale, newly))])
  }

  datatype Outcome = Replayed(payload: Payload) | Committed(canvas: Canvas, payload: Payload) | Failed(error: Error)

  predicate KeyUsed(log: seq<Entry>, key: Key, i: nat) {
    i < |log| && log[i].key == key
  }

  function OriginOf(capture: Capture): Origin {
    if capture.NoCapture? then NoOrigin else capture.origin
  }

  /** One call of apply_graph_operation. */
  ghost function ApplyOperation(c: Canvas, id: Id, request: Request, newId: Id): Outcome {
    var key, audit := DirectKey(id), Direct(request);
    if exists i: nat :: KeyUsed(c.log, key, i) then
      var i: nat :| KeyUsed(c.log, key, i);
      if c.log[i].audit == audit then Replayed(c.log[i].payload) else Failed(OperationKeyConflict)
    else
      var handled := Handle(c, request, newId);
      if handled.Err? then Failed(handled.error)
      else
        var capture := CaptureInvalidation(c, request);
        var affected := ResolveInvalidation(handled.value.0, request, capture);
        var after := Commit(handled.value.0, key, audit, handled.value.1, affected, OriginOf(capture));
        Committed(after, after.log[|after.log| - 1].payload)
  }
}

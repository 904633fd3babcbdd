/** Operations of a candidate patch: how they are checked before anything is applied, and what
    applying one does to the canvas. */
module PatchCandidates {
  import opened Reachability
  import opened GraphTypes
  import opened CanvasModel

  /** Patch-local names and the identities derived for them. */
  type IdMap = map<Token, Id>

  datatype Conflict =
    | InvalidReference | MissingNode | MissingEdge | ChangedVersion | IdCollision | BadBranchRoot
    | HasDependencies | KeyConflict | UnsupportedValue

  datatype Checked<+T> = Fine(value: T) | Refused(conflict: Conflict)

  function Resolve(token: Token, ids: IdMap): Checked<Id> {
    if token in ids then Fine(ids[token])
    else if SpellsId(token) then Fine(token.id)
    else Refused(InvalidReference)
  }

  /** A local reference becomes the canonical text of its identity. */
  function Renamed(token: Token, ids: IdMap): Token {
    if token in ids then IdText(ids[token]) else token
  }

  /** Local references inside metadata are replaced wherever they occur. */
  function Rewrite(value: Value, ids: IdMap): Value
    decreases value
  {
    match value
    case Text(t) => Text(Renamed(t, ids))
    case Items(items) => Items(seq(|items|, i requires 0 <= i < |items| => Rewrite(items[i], ids)))
    case _ => value
  }

  function RewriteAll(metadata: Metadata, ids: IdMap): Metadata {
    map f | f in metadata :: Rewrite(metadata[f], ids)
  }

  function NodeAt(c: Canvas, token: Token, ids: IdMap): Checked<Id> {
    var id := Resolve(token, ids);
    if id.Refused? then id else if id.value in c.nodes then id else Refused(MissingNode)
  }

  function EdgeAt(c: Canvas, token: Token, ids: IdMap): Checked<Id> {
    var id := Resolve(token, ids);
    if id.Refused? then id else if id.value in c.edges then id else Refused(MissingEdge)
  }

  /** Empty means acceptable. */
  type Verdict = Option<Conflict>

  function Failure<T>(checked: Checked<T>): Verdict {
    if checked.Refused? then Some(checked.conflict) else None
  }

  /** A reference to something the patch itself creates is accepted unseen. */
  function KnownNode(c: Canvas, token: Token, ids: IdMap): Verdict {
    if token in ids then None else Failure(NodeAt(c, token, map[]))
  }

  function KnownOptional(c: Canvas, token: Option<Token>, ids: IdMap): Verdict {
    if token.None? then None else KnownNode(c, token.value, ids)
  }

  function Both(a: Verdict, b: Verdict): Verdict {
    if a.Some? then a else b
  }

  function KnownNodes(c: Canvas, values: seq<Value>, ids: IdMap): Verdict {
    if values == [] then None
    else if !values[0].Text? then Some(InvalidReference)
    else Both(KnownNode(c, values[0].token, ids), KnownNodes(c, values[1..], ids))
  }

  function KnownProvenance(c: Canvas, metadata: Metadata, ids: IdMap): Verdict {
    if ProvenanceNodes !in metadata then None
    else if !metadata[ProvenanceNodes].Items? then Some(InvalidReference)
    else KnownNodes(c, metadata[ProvenanceNodes].items, ids)
  }

  predicate CreatesRoot(selected: set<Candidate>, token: Token) {
    exists op :: op in selected && op.AddNodeCandidate? && op.local == token && IsRootKind(op.kind)
  }

  function RootVerdict(c: Canvas, kind: NodeKind, metadata: Metadata, root: Option<Token>, ids: IdMap,
                       selected: set<Candidate>): Verdict
  {
    if kind != Constraint then if root.Some? then Some(BadBranchRoot) else None
    else if Get(metadata, ContextScope) == Some(Text(GlobalScope)) then if root.Some? then Some(BadBranchRoot) else None
    else if Get(metadata, ContextScope) != Some(Text(BranchScope)) || root.None? then Some(BadBranchRoot)
    else if root.value in ids then if CreatesRoot(selected, root.value) then None else Some(BadBranchRoot)
    else
      var node := NodeAt(c, root.value, map[]);
      if node.Refused? then Some(node.conflict)
      else if IsRootKind(c.nodes[node.value].kind) then None else Some(BadBranchRoot)
  }

  predicate Spells(token: Token, id: Id) {
    SpellsId(token) && token.id == id
  }

  /** Edges and constraints the selected operations themselves remove or re-anchor. */
  predicate EdgeResolved(selected: set<Candidate>, e: Id) {
    exists op :: op in selected && op.DeleteEdgeCandidate? && Spells(op.edge, e)
  }

  predicate AnchorResolved(selected: set<Candidate>, n: Id) {
    exists op :: op in selected && ((op.DeleteNodeCandidate? && Spells(op.node, n))
                                    || (op.UpdateNodeCandidate? && op.newRoot.Some? && Spells(op.node, n)))
  }

  /** What a deletion is checked against is parsed without the id map, so a local name there is an error. */
  predicate ResolutionsParse(selected: set<Candidate>) {
    forall op :: op in selected ==>
      && (op.DeleteEdgeCandidate? ==> SpellsId(op.edge))
      && (op.DeleteNodeCandidate? || (op.UpdateNodeCandidate? && op.newRoot.Some?) ==> SpellsId(op.node))
  }

  /** Checked against the canvas before any operation of the patch is applied. */
  function Preflight(c: Canvas, op: Candidate, ids: IdMap, selected: set<Candidate>): Verdict {
    match op
    case AddNodeCandidate(local, kind, _, _, metadata, root, _) =>
      var id := Resolve(local, ids);
      if id.Refused? then Some(id.conflict)
      else if id.value in c.nodes then Some(IdCollision)
      else Both(KnownProvenance(c, metadata, ids), RootVerdict(c, kind, metadata, root, ids, selected))
    case UpdateNodeCandidate(node, expected, _, _, _, _) => VersionVerdict(c, node, expected, ids)
    case PatchMetadataCandidate(node, expected, _) => VersionVerdict(c, node, expected, ids)
    case MoveNodeCandidate(node, expected, _) =>
      var id := NodeAt(c, node, ids);
      if id.Refused? then Some(id.conflict)
      else if c.nodes[id.value].positionVersion != expected then Some(ChangedVersion) else None
    case DeleteNodeCandidate(node, expected) =>
      var id := NodeAt(c, node, ids);
      if id.Refused? then Some(id.conflict)
      else if c.nodes[id.value].version != expected then Some(ChangedVersion)
      else if !ResolutionsParse(selected) then Some(InvalidReference)
      else if (exists e :: e in c.edges && Incident(c.edges, e, id.value) && !EdgeResolved(selected, e))
           || (exists n :: n in c.nodes && c.nodes[n].branchRoot == Some(id.value) && !AnchorResolved(selected, n))
      then Some(HasDependencies) else None
    case AddEdgeCandidate(local, source, target, _, _) =>
      var id := Resolve(local, ids);
      if id.Refused? then Some(id.conflict)
      else if id.value in c.edges then Some(IdCollision)
      else Both(KnownNode(c, source, ids), KnownNode(c, target, ids))
    case UpdateEdgeCandidate(edge, expected, source, target, _, _) =>
      Both(EdgeVersionVerdict(c, edge, expected, ids), Both(KnownOptional(c, source, ids), KnownOptional(c, target, ids)))
    case DeleteEdgeCandidate(edge, expected) => EdgeVersionVerdict(c, edge, expected, ids)
  }

  function VersionVerdict(c: Canvas, node: Token, expected: nat, ids: IdMap): Verdict {
    var id := NodeAt(c, node, ids);
    if id.Refused? then Some(id.conflict)
    else if c.nodes[id.value].version != expected then Some(ChangedVersion) else None
  }

  function EdgeVersionVerdict(c: Canvas, edge: Token, expected: nat, ids: IdMap): Verdict {
    var id := EdgeAt(c, edge, ids);
    if id.Refused? then Some(id.conflict)
    else if c.edges[id.value].version != expected then Some(ChangedVersion) else None
  }

  // ------------------------------------------------------------------ applying

  function CandidateRoot(c: Canvas, kind: NodeKind, metadata: Metadata, root: Option<Token>, ids: IdMap)
    : Checked<Option<Id>>
  {
    if kind != Constraint then if root.Some? then Refused(BadBranchRoot) else Fine(None)
    else if Get(metadata, ContextScope) == Some(Text(GlobalScope)) then
      if root.Some? then Refused(BadBranchRoot) else Fine(None)
    else if Get(metadata, ContextScope) != Some(Text(BranchScope)) || root.None? then Refused(BadBranchRoot)
    else
      var node := NodeAt(c, root.value, ids);
      if node.Refused? then Refused(node.conflict)
      else if IsRootKind(c.nodes[node.value].kind) then Fine(Some(node.value)) else Refused(BadBranchRoot)
  }

  function AcceptedMetadata(patch: Id, metadata: Metadata, ids: IdMap): Metadata {
    RewriteAll(metadata, ids)[ReviewStatus := Text(Accepted)][SourcePatch := Text(IdText(patch))]
  }

  function AddNodeCandidateTo(c: Canvas, patch: Id, op: Candidate, ids: IdMap): Checked<(Canvas, Change)>
    requires op.AddNodeCandidate?
  {
    var id := Resolve(op.local, ids);
    if id.Refused? then Refused(id.conflict)
    else if id.value in c.nodes then Refused(IdCollision)
    else
      var metadata := AcceptedMetadata(patch, op.metadata, ids);
      var root := CandidateRoot(c, op.kind, metadata, op.root, ids);
      if root.Refused? then Refused(root.conflict)
      else
        var node := Node(op.kind, op.title, op.body, metadata, root.value, op.position, false, None, 1, 1);
        Fine((c.(nodes := c.nodes[id.value := node]), NodeSaved(id.value)))
  }

  function CurrentRoot(node: Node): Option<Token> {
    if node.branchRoot.Some? then Some(IdText(node.branchRoot.value)) else None
  }

  /** The changes of an update are renamed as a whole before the references in them are resolved. */
  function RenamedRoot(root: Option<Token>, ids: IdMap): Option<Token> {
    if root.Some? then Some(Renamed(root.value, ids)) else None
  }

  function UpdateCandidateIn(c: Canvas, token: Token, expected: nat, newTitle: Option<string>,
                             newBody: Option<Option<string>>, fields: Metadata, newRoot: Option<Option<Token>>, ids: IdMap)
    : Checked<(Canvas, Change)>
  {
    var id := NodeAt(c, token, ids);
    if id.Refused? then Refused(id.conflict) else
    var node := c.nodes[id.value];
    if node.version != expected then Refused(ChangedVersion)
    else
      var metadata := node.metadata + RewriteAll(fields, ids);
      var root :=
        if newRoot.Some? || node.kind == Constraint then
          CandidateRoot(c, node.kind, metadata, if newRoot.Some? then RenamedRoot(newRoot.value, ids) else CurrentRoot(node), ids)
        else Fine(node.branchRoot);
      if root.Refused? then Refused(root.conflict)
      else
        var changed := node.(
          title := if newTitle.Some? then newTitle.value else node.title,
          body := if newBody.Some? then newBody.value else node.body,
          metadata := metadata, branchRoot := root.value, version := node.version + 1);
        Fine((c.(nodes := c.nodes[id.value := changed]), NodeSaved(id.value)))
  }

  function MoveCandidateIn(c: Canvas, op: Candidate, ids: IdMap): Checked<(Canvas, Change)>
    requires op.MoveNodeCandidate?
  {
    var id := NodeAt(c, op.node, ids);
    if id.Refused? then Refused(id.conflict) else
    var moved := MoveNodeIn(c, id.value, op.expected, op.to);
    if moved.Err? then Refused(ChangedVersion) else Fine(moved.value)
  }

  function DeleteNodeCandidateFrom(c: Canvas, op: Candidate, ids: IdMap): Checked<(Canvas, Change)>
    requires op.DeleteNodeCandidate?
  {
    var id := NodeAt(c, op.node, ids);
    if id.Refused? then Refused(id.conflict) else
    var deleted := DeleteNodeFrom(c, id.value, op.expected);
    if deleted.Err? then Refused(if deleted.error.VersionConflict? then ChangedVersion else HasDependencies)
    else Fine(deleted.value)
  }

  function AddEdgeCandidateTo(c: Canvas, patch: Id, op: Candidate, ids: IdMap): Checked<(Canvas, Change)>
    requires op.AddEdgeCandidate?
  {
    var id := Resolve(op.local, ids);
    if id.Refused? then Refused(id.conflict)
    else if id.value in c.edges then Refused(IdCollision)
    else
      var source, target := NodeAt(c, op.source, ids), NodeAt(c, op.target, ids);
      if source.Refused? then Refused(source.conflict)
      else if target.Refused? then Refused(target.conflict)
      else
        var metadata := RewriteAll(op.metadata, ids)[SourcePatch := Text(IdText(patch))];
        var edge := Edge(source.value, target.value, op.edgeKind, metadata, 1);
        Fine((c.(edges := c.edges[id.value := edge]), EdgeSaved(id.value)))
  }

  function NewEnd(c: Canvas, token: Option<Token>, current: Id, ids: IdMap): Checked<Id> {
    if token.Some? then NodeAt(c, Renamed(token.value, ids), ids) else Fine(current)
  }

  function UpdateEdgeCandidateIn(c: Canvas, op: Candidate, ids: IdMap): Checked<(Canvas, Change)>
    requires op.UpdateEdgeCandidate?
  {
    var id := EdgeAt(c, op.edge, ids);
    if id.Refused? then Refused(id.conflict) else
    var edge := c.edges[id.value];
    if edge.version != op.expected then Refused(ChangedVersion)
    else
      var source, target := NewEnd(c, op.newSource, edge.source, ids), NewEnd(c, op.newTarget, edge.target, ids);
      if source.Refused? then Refused(source.conflict)
      else if target.Refused? then Refused(target.conflict)
      else
        var changed := Edge(source.value, target.value,
          if op.newKind.Some? then op.newKind.value else edge.kind,
          if op.newMetadata.Some? then RewriteAll(op.newMetadata.value, ids) else edge.metadata,
          edge.version + 1);
        Fine((c.(edges := c.edges[id.value := changed]), EdgeSaved(id.value)))
  }

  function DeleteEdgeCandidateFrom(c: Canvas, op: Candidate, ids: IdMap): Checked<(Canvas, Change)>
    requires op.DeleteEdgeCandidate?
  {
    var id := EdgeAt(c, op.edge, ids);
    if id.Refused? then Refused(id.conflict) else
    var deleted := DeleteEdgeFrom(c, id.value, op.expected);
    if deleted.Err? then Refused(ChangedVersion) else Fine(deleted.value)
  }

  function HandleCandidate(c: Canvas, patch: Id, op: Candidate, ids: IdMap): Checked<(Canvas, Change)> {
    match op
    case AddNodeCandidate(_, _, _, _, _, _, _) => AddNodeCandidateTo(c, patch, op, ids)
    case UpdateNodeCandidate(n, v, title, body, fields, root) =>
      UpdateCandidateIn(c, n, v, title, body, if fields.Some? then fields.value else map[], root, ids)
    case PatchMetadataCandidate(n, v, fields) => UpdateCandidateIn(c, n, v, None, None, fields, None, ids)
    case MoveNodeCandidate(_, _, _) => MoveCandidateIn(c, op, ids)
    case DeleteNodeCandidate(_, _) => DeleteNodeCandidateFrom(c, op, ids)
    case AddEdgeCandidate(_, _, _, _, _) => AddEdgeCandidateTo(c, patch, op, ids)
    case UpdateEdgeCandidate(_, _, _, _, _, _) => UpdateEdgeCandidateIn(c, op, ids)
    case DeleteEdgeCandidate(_, _) => DeleteEdgeCandidateFrom(c, op, ids)
  }

  /** What the invalidation code sees of a candidate: its references, parsed without the id map. */
  function InvalidationView(op: Candidate): Option<Request> {
    match op
    case UpdateNodeCandidate(n, v, _, _, _, _) =>
      if SpellsId(n) then Some(UpdateNode(n.id, v, None, None, None, MissingRoot)) else None
    case PatchMetadataCandidate(n, v, _) =>
      if SpellsId(n) then Some(PatchNodeMetadata(n.id, v, map[], MissingRoot)) else None
    case DeleteNodeCandidate(n, v) => if SpellsId(n) then Some(DeleteNode(n.id, v)) else None
    case UpdateEdgeCandidate(e, v, _, _, _, _) =>
      if SpellsId(e) then Some(UpdateEdge(e.id, v, None, None, None, None)) else None
    case DeleteEdgeCandidate(e, v) => if SpellsId(e) then Some(DeleteEdge(e.id, v)) else None
    case _ => None
  }

  ghost function CaptureCandidate(c: Canvas, op: Candidate): Capture {
    var view := InvalidationView(op);
    if view.None? then NoCapture else CaptureInvalidation(c, view.value)
  }

  ghost function AffectedByCandidate(c: Canvas, after: Canvas, op: Candidate, excluded: set<Id>): set<Id> {
    var view := InvalidationView(op);
    if view.None? then {} else ResolveInvalidation(after, view.value, CaptureCandidate(c, op)) - excluded
  }

  /** One call of _apply_candidate. */
  ghost function ApplyCandidate(c: Canvas, patch: Id, operation: Id, op: Candidate, ids: IdMap, excluded: set<Id>)
    : Checked<(Canvas, Payload)>
  {
    var key, audit := PatchKey(patch, operation), FromPatch(patch, operation, op);
    if exists i: nat :: KeyUsed(c.log, key, i) then
      var i: nat :| KeyUsed(c.log, key, i);
      if c.log[i].audit == audit then Fine((c, c.log[i].payload)) else Refused(KeyConflict)
    else
      var handled := HandleCandidate(c, patch, op, ids);
      if handled.Refused? then Refused(handled.conflict)
      else
        var affected := AffectedByCandidate(c, handled.value.0, op, excluded);
        var after := Commit(handled.value.0, key, audit, handled.value.1, affected, OriginOf(CaptureCandidate(c, op)));
        Fine((after, after.log[|after.log| - 1].payload))
  }
}

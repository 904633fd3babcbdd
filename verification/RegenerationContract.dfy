/** The contract an always-parallel regeneration patch must meet before any of it is applied:
    one successor, one lineage edge and the constraint clones of every frozen target. */
module RegenerationContract {
  import opened Reachability
  import opened GraphTypes
  import opened Ordering
  import opened DependencyOrder
  import opened CanvasModel
  import opened PatchPasses
  import PatchInvariant

  type Operations = map<Id, Candidate>

  /** The frozen workset of the run, and what the patch itself declares. */
  datatype Workset = Workset(run: Id, scope: Token, targets: set<Id>, permitted: set<Id>)

  // ------------------------------------------------------------------ the frozen workset

  datatype StaleMembers = NotListed | Listed(ids: seq<Id>) | NotAList

  datatype FrozenTarget = FrozenTarget(node: Id, stale: StaleMembers) | MalformedTarget

  /** The part of a run's context manifest that an application reads. */
  datatype Manifest = Manifest(run: Id, scope: Option<Token>, requested: Option<Token>, targets: Option<seq<FrozenTarget>>)

  predicate WellFormed(target: FrozenTarget) {
    target.FrozenTarget? && !target.stale.NotAList?
  }

  /** Without a list, or with an empty one, a target stands for itself. */
  function FrozenMembers(target: FrozenTarget): set<Id>
    requires WellFormed(target)
  {
    if target.stale.Listed? && target.stale.ids != [] then set n | n in target.stale.ids else {target.node}
  }

  /** The i-th frozen target is n. */
  predicate TargetAt(targets: seq<FrozenTarget>, i: nat, n: Id) {
    i < |targets| && targets[i].FrozenTarget? && targets[i].node == n
  }

  predicate MemberAt(targets: seq<FrozenTarget>, i: nat, n: Id) {
    i < |targets| && WellFormed(targets[i]) && n in FrozenMembers(targets[i])
  }

  ghost predicate ManifestSound(m: Manifest) {
    && m.scope in {Some(NodeScope), Some(BranchScope)} && m.requested == m.scope
    && m.targets.Some? && m.targets.value != [] && (forall i :: 0 <= i < |m.targets.value| ==> WellFormed(m.targets.value[i]))
    && forall i: nat, j: nat, n :: TargetAt(m.targets.value, i, n) && TargetAt(m.targets.value, j, n) ==> i == j
  }

  /** The workset consists of the targets and of all their stale members. */
  ghost predicate Freezes(m: Manifest, w: Workset)
    requires m.targets.Some?
  {
    && w.run == m.run && Some(w.scope) == m.scope
    && (forall n :: n in w.targets <==> exists i: nat :: TargetAt(m.targets.value, i, n))
    && (forall n :: n in w.permitted <==> exists i: nat :: MemberAt(m.targets.value, i, n))
  }

  /** `_manifest_regeneration_contract`: the frozen workset, or none when the manifest is malformed. */
  method FrozenWorkset(m: Manifest) returns (r: Option<Workset>)
    ensures r.Some? <==> ManifestSound(m)
    ensures r.Some? ==> Freezes(m, r.value)
  {
    if m.scope != Some(NodeScope) && m.scope != Some(BranchScope) { return None; }
    if m.requested != m.scope || m.targets.None? || m.targets.value == [] { return None; }
    var targets := m.targets.value;
    var nodes: set<Id>, permitted: set<Id>, distinct := {}, {}, true;
    hide FrozenMembers;
    for i := 0 to |targets|
      invariant forall j :: 0 <= j < i ==> WellFormed(targets[j])
      invariant forall n :: n in nodes <==> exists j: nat :: j < i && TargetAt(targets, j, n)
      invariant forall n :: n in permitted <==> exists j: nat :: j < i && MemberAt(targets, j, n)
      invariant distinct <==> forall j: nat, k: nat, n :: TargetAt(targets, j, n) && TargetAt(targets, k, n) && j < i && k < i ==> j == k
    {
      if !WellFormed(targets[i]) { return None; }
      var target := targets[i];
      assert TargetAt(targets, i, target.node);
      distinct := distinct && target.node !in nodes;
      nodes := nodes + {target.node};
      forall n ensures n in permitted + FrozenMembers(target) <==> exists j: nat :: j < i + 1 && MemberAt(targets, j, n) {
        if n in FrozenMembers(target) { assert MemberAt(targets, i, n); }
      }
      permitted := permitted + FrozenMembers(target);
    }
    if !distinct { return None; }
    return Some(Workset(m.run, m.scope.value, nodes, permitted));
  }

  /** What a manifest can freeze: some targets with some stale members, in one of the two scopes. */
  predicate WorksetSound(w: Workset) {
    w.targets != {} && w.permitted != {} && (w.scope == NodeScope || w.scope == BranchScope)
  }

  lemma FrozenIsSound(m: Manifest, w: Workset)
    requires ManifestSound(m) && Freezes(m, w)
    ensures WorksetSound(w)
  {
    var first := m.targets.value[0];
    assert TargetAt(m.targets.value, 0, first.node);
    assert first.node in w.targets;
    var member := if first.stale.Listed? && first.stale.ids != [] then first.stale.ids[0] else first.node;
    assert MemberAt(m.targets.value, 0, member);
    assert member in w.permitted;
  }

  /** And nothing less: every such workset is frozen by a manifest. */
  lemma SoundIsFrozen(w: Workset) returns (m: Manifest)
    requires WorksetSound(w)
    ensures ManifestSound(m) && Freezes(m, w)
  {
    var nodes := Listing(w.targets);
    var members := Listing(w.permitted);
    var targets := seq(|nodes|, i requires 0 <= i < |nodes| => FrozenTarget(nodes[i], Listed(members)));
    m := Manifest(w.run, Some(w.scope), Some(w.scope), Some(targets));
    var t :| t in w.targets;
    assert t in nodes;
    var n :| n in w.permitted;
    assert n in members;
    assert forall i :: 0 <= i < |targets| ==> FrozenMembers(targets[i]) == w.permitted;
    forall x ensures x in w.targets <==> exists i: nat :: TargetAt(targets, i, x) {
      if x in w.targets {
        var i :| 0 <= i < |nodes| && nodes[i] == x;
        assert TargetAt(targets, i, x);
      }
    }
    forall x ensures x in w.permitted <==> exists i: nat :: MemberAt(targets, i, x) {
      if x in w.permitted { assert MemberAt(targets, 0, x); }
    }
  }

  lemma {:induction false} Listing(ids: set<Id>) returns (q: seq<Id>)
    ensures (forall n :: n in q <==> n in ids) && forall i, j :: 0 <= i < j < |q| ==> q[i] != q[j]
    decreases ids
  {
    if ids == {} {
      q := [];
    } else {
      var n :| n in ids;
      var rest := Listing(ids - {n});
      q := [n] + rest;
    }
  }

  // ------------------------------------------------------------------ the three kinds of member

  /** The predecessor a candidate names, in whatever spelling. */
  function RegeneratedOrigin(metadata: Metadata): Option<Id> {
    match Get(metadata, RegeneratedFrom)
    case Some(Text(t)) => if SpellsId(t) then Some(t.id) else None
    case _ => None
  }

  predicate IsSuccessor(op: Candidate, origin: Id, kind: NodeKind, w: Workset) {
    && op.AddNodeCandidate? && IsRootKind(op.kind) && op.kind == kind
    && RegeneratedOrigin(op.metadata) == Some(origin)
    && Get(op.metadata, RegenerationScope) == Some(Text(w.scope))
    && Get(op.metadata, LineageMode) == Some(Text(Parallel))
    && Get(op.metadata, GeneratedByRun) == Some(Text(IdText(w.run)))
  }

  predicate LineageMatch(op: Candidate, origin: Id, local: Token) {
    op.AddEdgeCandidate? && op.edgeKind == EvolvesInto && op.source == IdText(origin) && op.target == local
  }

  /** Everything but the fields the server adds to a clone. */
  function ConstraintSemantics(metadata: Metadata): Metadata {
    metadata - {GeneratedByRun, ProvenanceNodes, ReviewStatus, SourcePatch}
  }

  /** The constraint a clone names as its single predecessor. */
  function Predecessor(op: Candidate): Option<Id>
    requires op.AddNodeCandidate?
  {
    match Get(op.metadata, ProvenanceNodes)
    case Some(Items(items)) =>
      if |items| == 1 && items[0].Text? && SpellsId(items[0].token) then Some(items[0].token.id) else None
    case _ => None
  }

  predicate IsClone(op: Candidate, constraint: Node, local: Token, w: Workset)
    requires op.AddNodeCandidate?
  {
    && op.root == Some(local)
    && Get(op.metadata, GeneratedByRun) == Some(Text(IdText(w.run))) && HasReview(op.metadata, Provisional)
    && op.title == constraint.title && op.body == constraint.body
    && ConstraintSemantics(op.metadata) == ConstraintSemantics(constraint.metadata)
  }

  predicate CloneCandidate(op: Candidate) {
    op.AddNodeCandidate? && op.kind == Constraint
  }

  /** The one target an operation of the patch can belong to; groups are disjoint because of it. */
  function TargetOf(c: Canvas, op: Candidate): Option<Id> {
    if op.AddEdgeCandidate? then if op.source.IdText? then Some(op.source.id) else None
    else if !op.AddNodeCandidate? then None
    else if op.kind == Constraint then
      var n := Predecessor(op);
      if n.Some? && n.value in c.nodes then c.nodes[n.value].branchRoot else None
    else RegeneratedOrigin(op.metadata)
  }

  // ------------------------------------------------------------------ the contract

  /** Metadata of an earlier lineage scheme; no candidate may carry it any more. */
  const OBSOLETE := Other("regenerates_node_id")

  /** s names the successor of every target: each added production root is one of them, and no other
      added node names a predecessor. */
  ghost predicate SuccessorsAre(c: Canvas, ops: Operations, w: Workset, s: map<Id, Id>) {
    && w.targets <= c.nodes.Keys && s.Keys == w.targets
    && (forall t :: t in s ==> s[t] in ops && IsSuccessor(ops[s[t]], t, c.nodes[t].kind, w))
    && (forall o :: o in ops && ops[o].AddNodeCandidate? ==>
          && OBSOLETE !in ops[o].metadata
          && if IsRootKind(ops[o].kind) then o in s.Values else Get(ops[o].metadata, RegeneratedFrom).None?)
  }

  /** The one old-to-new edge of a target, made by this run. */
  ghost predicate OnlyMatch(ops: Operations, target: Id, local: Token, w: Workset, o: Id) {
    && o in ops && LineageMatch(ops[o], target, local)
    && Get(ops[o].metadata, GeneratedByRun) == Some(Text(IdText(w.run)))
    && forall p :: p in ops && LineageMatch(ops[p], target, local) ==> p == o
  }

  ghost predicate LineageOf(ops: Operations, depends: Depends, s: map<Id, Id>, w: Workset, t: Id, o: Id) {
    && t in s && s[t] in ops && ops[s[t]].AddNodeCandidate?
    && OnlyMatch(ops, t, ops[s[t]].local, w, o) && o in depends && s[t] in depends[o]
  }

  ghost predicate LineageIs(ops: Operations, depends: Depends, s: map<Id, Id>, w: Workset, l: map<Id, Id>) {
    l.Keys == s.Keys && forall t :: t in l ==> LineageOf(ops, depends, s, w, t, l[t])
  }

  function AnchoredConstraints(c: Canvas, targets: set<Id>): set<Id> {
    set n | n in c.nodes && c.nodes[n].kind == Constraint && c.nodes[n].branchRoot.Some?
            && c.nodes[n].branchRoot.value in targets
  }

  /** o clones the constraint n: its own content, the successor as anchor, behind the lineage edge. */
  predicate CloneOf(c: Canvas, ops: Operations, depends: Depends, s: map<Id, Id>, l: map<Id, Id>, w: Workset, o: Id, n: Id) {
    && o in ops && CloneCandidate(ops[o]) && Predecessor(ops[o]) == Some(n)
    && n in AnchoredConstraints(c, w.targets)
    && var root := c.nodes[n].branchRoot.value;
    && root in s && s[root] in ops && ops[s[root]].AddNodeCandidate? && IsClone(ops[o], c.nodes[n], ops[s[root]].local, w)
    && root in l && o in depends && l[root] in depends[o]
  }

  ghost predicate ClonesAre(c: Canvas, ops: Operations, depends: Depends, s: map<Id, Id>, l: map<Id, Id>, w: Workset,
                            k: map<Id, Id>)
  {
    && k.Keys == AnchoredConstraints(c, w.targets)
    && (forall n :: n in k ==> CloneOf(c, ops, depends, s, l, w, k[n], n))
    && (forall o :: o in ops && CloneCandidate(ops[o]) ==> o in k.Values)
  }

  function GroupFor(c: Canvas, s: map<Id, Id>, l: map<Id, Id>, k: map<Id, Id>, t: Id): Group
    requires t in s && t in l
  {
    Group(t, s[t], {s[t], l[t]} + set n | n in k && n in c.nodes && c.nodes[n].branchRoot == Some(t) :: k[n])
  }

  ghost predicate SelectedWhole(g: Group, selected: set<Id>) {
    g.members <= selected || g.members !! selected
  }

  /** The operations are successors, lineage edges and clones of the targets, each group selected whole or not at all. */
  ghost predicate Decomposes(c: Canvas, ops: Operations, depends: Depends, w: Workset, selected: set<Id>,
                             s: map<Id, Id>, l: map<Id, Id>, k: map<Id, Id>)
  {
    && SuccessorsAre(c, ops, w, s) && LineageIs(ops, depends, s, w, l) && ClonesAre(c, ops, depends, s, l, w, k)
    && forall t :: t in w.targets ==> SelectedWhole(GroupFor(c, s, l, k, t), selected)
  }

  ghost predicate MembersFit(c: Canvas, ops: Operations, depends: Depends, w: Workset, s: map<Id, Id>, l: map<Id, Id>, k: map<Id, Id>) {
    SuccessorsAre(c, ops, w, s) && LineageIs(ops, depends, s, w, l) && ClonesAre(c, ops, depends, s, l, w, k)
  }

  /** The patch declares the frozen workset, only adds, and every frozen member is still there, stale with a cause. */
  ghost predicate WorksetHolds(c: Canvas, ops: Operations, w: Workset, declared: Workset) {
    && WorksetSound(w) && declared.targets == w.targets && declared.permitted == w.permitted
    && (forall o :: o in ops ==> PatchInvariant.AddOnly(ops[o]))
    && w.targets + w.permitted <= c.nodes.Keys
    && forall n :: n in w.permitted ==> c.nodes[n].stale && CausesOf(c.causes, n) != []
  }

  /** What the patch must satisfy, whatever of it is selected. */
  ghost predicate PatchFits(c: Canvas, ops: Operations, depends: Depends, w: Workset, declared: Workset) {
    WorksetHolds(c, ops, w, declared) && exists s, l, k :: MembersFit(c, ops, depends, w, s, l, k)
  }

  /** Exactly what an always-parallel regeneration patch and a selection of it must satisfy. */
  ghost predicate ContractMet(c: Canvas, ops: Operations, depends: Depends, w: Workset, declared: Workset, selected: set<Id>) {
    WorksetHolds(c, ops, w, declared) && exists s, l, k :: Decomposes(c, ops, depends, w, selected, s, l, k)
  }

  // ------------------------------------------------------------------ collecting members

  /** What a list of successors says about one added node. */
  ghost predicate Assigned(c: Canvas, ops: Operations, w: Workset, s: map<Id, Id>, o: Id)
    requires o in ops && ops[o].AddNodeCandidate?
  {
    && OBSOLETE !in ops[o].metadata
    && if !IsRootKind(ops[o].kind) then Get(ops[o].metadata, RegeneratedFrom).None?
    else
      && RegeneratedOrigin(ops[o].metadata).Some?
      && var t := RegeneratedOrigin(ops[o].metadata).value;
      && t in w.targets && t in c.nodes && t in s && s[t] == o && IsSuccessor(ops[o], t, c.nodes[t].kind, w)
  }

  lemma AllAssigned(c: Canvas, ops: Operations, w: Workset, o: Id)
    requires o in ops && ops[o].AddNodeCandidate?
    ensures forall s :: SuccessorsAre(c, ops, w, s) ==> Assigned(c, ops, w, s, o)
  {
    forall s | SuccessorsAre(c, ops, w, s) ensures Assigned(c, ops, w, s, o) {
      if IsRootKind(ops[o].kind) {
        var t :| t in s && s[t] == o;
      }
    }
  }

  lemma SuccessorsUnique(c: Canvas, ops: Operations, w: Workset, s: map<Id, Id>, z: map<Id, Id>)
    requires SuccessorsAre(c, ops, w, s) && SuccessorsAre(c, ops, w, z)
    ensures s == z
  {
    forall t | t in s ensures s[t] == z[t] {
      AllAssigned(c, ops, w, s[t]);
      assert Assigned(c, ops, w, z, s[t]);
    }
  }

  /** The successors found among the operations seen so far. */
  ghost predicate FoundSuccessors(c: Canvas, ops: Operations, w: Workset, seen: seq<Id>, found: map<Id, Id>) {
    && found.Keys <= w.targets <= c.nodes.Keys
    && (forall t :: t in found ==> found[t] in seen && found[t] in ops && IsSuccessor(ops[found[t]], t, c.nodes[t].kind, w))
    && (forall o :: o in seen && o in ops && ops[o].AddNodeCandidate? ==> Assigned(c, ops, w, found, o))
  }

  lemma FoundOneMore(c: Canvas, ops: Operations, w: Workset, seen: seq<Id>, found: map<Id, Id>, o: Id, more: map<Id, Id>)
    requires FoundSuccessors(c, ops, w, seen, found) && o in ops && o !in seen
    requires more == found || (exists t :: t !in found && more == found[t := o] && t in w.targets && t in c.nodes
                                           && IsSuccessor(ops[o], t, c.nodes[t].kind, w))
    requires ops[o].AddNodeCandidate? ==> Assigned(c, ops, w, more, o)
    ensures FoundSuccessors(c, ops, w, seen + [o], more)
  {
    hide IsSuccessor;
    assert forall p :: p in seen + [o] <==> p in seen || p == o;
    forall p | p in seen + [o] && p in ops && ops[p].AddNodeCandidate? ensures Assigned(c, ops, w, more, p) {
      if p in seen { assert Assigned(c, ops, w, found, p); }
    }
  }

  lemma FoundAll(c: Canvas, ops: Operations, w: Workset, order: seq<Id>, found: map<Id, Id>)
    requires FoundSuccessors(c, ops, w, order, found) && forall o :: o in order <==> o in ops
    ensures found.Keys == w.targets ==> SuccessorsAre(c, ops, w, found)
    ensures found.Keys != w.targets ==> forall s :: !SuccessorsAre(c, ops, w, s)
  {
    hide IsSuccessor;
    forall s | SuccessorsAre(c, ops, w, s) ensures found.Keys == w.targets {
      forall t | t in w.targets ensures t in found {
        assert Assigned(c, ops, w, found, s[t]) by { assert ops[s[t]].AddNodeCandidate? && s[t] in order by { SuccessorIsRoot(ops, s, t, c, w); } }
        AllAssigned(c, ops, w, s[t]);
        SuccessorIsRoot(ops, s, t, c, w);
      }
    }
    if found.Keys == w.targets {
      forall o | o in ops && ops[o].AddNodeCandidate?
        ensures OBSOLETE !in ops[o].metadata
                && if IsRootKind(ops[o].kind) then o in found.Values else Get(ops[o].metadata, RegeneratedFrom).None?
      {
        assert o in order && Assigned(c, ops, w, found, o);
      }
    }
  }

  lemma SuccessorIsRoot(ops: Operations, s: map<Id, Id>, t: Id, c: Canvas, w: Workset)
    requires SuccessorsAre(c, ops, w, s) && t in s
    ensures s[t] in ops && ops[s[t]].AddNodeCandidate? && IsRootKind(ops[s[t]].kind)
    ensures RegeneratedOrigin(ops[s[t]].metadata) == Some(t)
  {
  }

  method CollectSuccessors(c: Canvas, order: seq<Id>, ops: Operations, w: Workset) returns (r: Option<map<Id, Id>>)
    requires NoDuplicates(order) && forall o :: o in order <==> o in ops
    requires w.targets <= c.nodes.Keys
    ensures r.Some? ==> SuccessorsAre(c, ops, w, r.value)
    ensures r.None? ==> forall s :: !SuccessorsAre(c, ops, w, s)
  {
    hide IsSuccessor, SuccessorsAre, IsRootKind, Get, RegeneratedOrigin;
    var successors: map<Id, Id> := map[];
    for i := 0 to |order|
      invariant FoundSuccessors(c, ops, w, order[..i], successors)
    {
      assert order[..i + 1] == order[..i] + [order[i]] && order[i] in order && order[i] !in order[..i];
      var o := order[i];
      var op := ops[o];
      var more := successors;
      if op.AddNodeCandidate? {
        AllAssigned(c, ops, w, o);
        if OBSOLETE in op.metadata { return None; }
        if !IsRootKind(op.kind) {
          if Get(op.metadata, RegeneratedFrom).Some? { return None; }
        } else {
          var origin := RegeneratedOrigin(op.metadata);
          if origin.None? { return None; }
          var target := origin.value;
          if target !in w.targets { return None; }
          if target in successors {
            TakenTwice(c, ops, w, order[..i], successors, target, o);
            return None;
          }
          if !IsSuccessor(op, target, c.nodes[target].kind, w) { return None; }
          more := successors[target := o];
        }
      }
      FoundOneMore(c, ops, w, order[..i], successors, o, more);
      successors := more;
    }
    assert order[..|order|] == order;
    FoundAll(c, ops, w, order, successors);
    if successors.Keys != w.targets { return None; }
    return Some(successors);
  }

  /** Two production roots cannot succeed the same target. */
  lemma TakenTwice(c: Canvas, ops: Operations, w: Workset, seen: seq<Id>, found: map<Id, Id>, t: Id, o: Id)
    requires FoundSuccessors(c, ops, w, seen, found) && t in found && o in ops && o !in seen && ops[o].AddNodeCandidate?
    requires IsRootKind(ops[o].kind) && RegeneratedOrigin(ops[o].metadata) == Some(t)
    ensures forall s :: !SuccessorsAre(c, ops, w, s)
  {
    hide SuccessorsAre;
    AllAssigned(c, ops, w, o);
    AllAssigned(c, ops, w, found[t]);
  }

  method OnlyLineage(ops: Operations, target: Id, local: Token, w: Workset) returns (r: Option<Id>)
    ensures r.Some? ==> OnlyMatch(ops, target, local, w, r.value)
    ensures r.None? ==> forall o :: !OnlyMatch(ops, target, local, w, o)
  {
    hide LineageMatch, Get;
    var matches := set o | o in ops && LineageMatch(ops[o], target, local);
    assert forall o :: OnlyMatch(ops, target, local, w, o) ==> matches == {o};
    if |matches| != 1 { return None; }
    var o := TheOnly(matches);
    assert o in matches;
    LineageIsEdge(ops[o], target, local);
    if Get(ops[o].metadata, GeneratedByRun) != Some(Text(IdText(w.run))) { return None; }
    assert forall p :: p in ops && LineageMatch(ops[p], target, local) ==> p in matches;
    return Some(o);
  }

  lemma LineageIsEdge(op: Candidate, target: Id, local: Token)
    requires LineageMatch(op, target, local)
    ensures op.AddEdgeCandidate?
  {
  }

  /** The lineage edges of the targets seen so far. */
  ghost predicate FoundLineage(ops: Operations, depends: Depends, s: map<Id, Id>, w: Workset, seen: seq<Id>, l: map<Id, Id>) {
    && (forall t :: t in l <==> t in seen)
    && (forall t :: t in l ==> LineageOf(ops, depends, s, w, t, l[t]))
  }

  lemma NoLineageYet(ops: Operations, depends: Depends, s: map<Id, Id>, w: Workset)
    ensures FoundLineage(ops, depends, s, w, [], map[])
  {
  }

  lemma LineageOneMore(ops: Operations, depends: Depends, s: map<Id, Id>, w: Workset, targets: seq<Id>, i: nat, l: map<Id, Id>, o: Id)
    requires i < |targets| && FoundLineage(ops, depends, s, w, targets[..i], l)
    requires targets[i] in s && s[targets[i]] in ops && ops[s[targets[i]]].AddNodeCandidate?
    requires OnlyMatch(ops, targets[i], ops[s[targets[i]]].local, w, o) && o in depends && s[targets[i]] in depends[o]
    ensures FoundLineage(ops, depends, s, w, targets[..i + 1], l[targets[i] := o])
  {
    hide OnlyMatch;
    assert targets[..i + 1] == targets[..i] + [targets[i]];
  }

  lemma AllLineage(ops: Operations, depends: Depends, s: map<Id, Id>, w: Workset, targets: seq<Id>, l: map<Id, Id>)
    requires FoundLineage(ops, depends, s, w, targets, l) && forall t :: t in targets <==> t in s.Keys
    ensures LineageIs(ops, depends, s, w, l)
  {
    hide LineageOf;
  }

  /** Without its one lineage edge behind the successor, a target leaves the patch without a lineage. */
  lemma LineageMissing(ops: Operations, depends: Depends, s: map<Id, Id>, w: Workset, t: Id, o: Option<Id>)
    requires t in s && s[t] in ops && ops[s[t]].AddNodeCandidate?
    requires o.None? ==> forall p :: !OnlyMatch(ops, t, ops[s[t]].local, w, p)
    requires o.Some? ==> OnlyMatch(ops, t, ops[s[t]].local, w, o.value) && !(o.value in depends && s[t] in depends[o.value])
    ensures forall l :: !LineageIs(ops, depends, s, w, l)
  {
    hide LineageMatch, Get;
    assert forall l :: LineageIs(ops, depends, s, w, l) ==> LineageOf(ops, depends, s, w, t, l[t]);
  }

  lemma MatchIsOperation(ops: Operations, t: Id, local: Token, w: Workset, o: Id)
    requires OnlyMatch(ops, t, local, w, o)
    ensures o in ops
  {
  }

  method CollectLineage(ops: Operations, depends: Depends, successors: map<Id, Id>, w: Workset)
    returns (r: Option<map<Id, Id>>)
    requires forall t :: t in successors ==> successors[t] in ops && ops[successors[t]].AddNodeCandidate?
    requires depends.Keys == ops.Keys
    ensures r.Some? ==> LineageIs(ops, depends, successors, w, r.value)
    ensures r.None? ==> forall l :: !LineageIs(ops, depends, successors, w, l)
  {
    hide *;
    var lineage: map<Id, Id> := map[];
    var targets := Sorted(successors.Keys);
    NoLineageYet(ops, depends, successors, w);
    for i := 0 to |targets|
      invariant FoundLineage(ops, depends, successors, w, targets[..i], lineage)
    {
      var t := targets[i];
      var o := OnlyLineage(ops, t, ops[successors[t]].local, w);
      if o.Some? { MatchIsOperation(ops, t, ops[successors[t]].local, w, o.value); }
      if o.None? || successors[t] !in depends[o.value] {
        LineageMissing(ops, depends, successors, w, t, o);
        return None;
      }
      LineageOneMore(ops, depends, successors, w, targets, i, lineage, o.value);
      lineage := lineage[t := o.value];
    }
    assert targets[..|targets|] == targets;
    AllLineage(ops, depends, successors, w, targets, lineage);
    return Some(lineage);
  }

  /** The clones found among the operations seen so far. */
  ghost predicate FoundClones(c: Canvas, ops: Operations, depends: Depends, s: map<Id, Id>, l: map<Id, Id>, w: Workset,
                              seen: seq<Id>, found: map<Id, Id>)
  {
    && (forall n :: n in found ==> found[n] in seen && CloneOf(c, ops, depends, s, l, w, found[n], n))
    && (forall o :: o in seen && o in ops && CloneCandidate(ops[o]) ==> o in found.Values)
  }

  /** Among the clones of a patch, an operation can only stand under the constraint it names. */
  lemma CloneAssigned(c: Canvas, ops: Operations, depends: Depends, s: map<Id, Id>, l: map<Id, Id>, w: Workset,
                      k: map<Id, Id>, o: Id)
    requires o in ops && CloneCandidate(ops[o])
    ensures ClonesAre(c, ops, depends, s, l, w, k) ==>
      && Predecessor(ops[o]).Some?
      && var n := Predecessor(ops[o]).value;
      && n in k && k[n] == o && CloneOf(c, ops, depends, s, l, w, o, n)
  {
    hide CloneCandidate, IsClone, Predecessor, AnchoredConstraints;
    if ClonesAre(c, ops, depends, s, l, w, k) {
      var n :| n in k && k[n] == o;
      assert CloneOf(c, ops, depends, s, l, w, k[n], n);
    }
  }

  /** An operation that clones nothing, or a constraint that is cloned already, spoils every assignment. */
  lemma SpoilsClones(c: Canvas, ops: Operations, depends: Depends, s: map<Id, Id>, l: map<Id, Id>, w: Workset,
                     seen: seq<Id>, found: map<Id, Id>, o: Id, n: Option<Id>)
    requires FoundClones(c, ops, depends, s, l, w, seen, found)
    requires o in ops && o !in seen && CloneCandidate(ops[o]) && Predecessor(ops[o]) == n
    requires n.None? || n.value in found || !CloneOf(c, ops, depends, s, l, w, o, n.value)
    ensures forall k :: !ClonesAre(c, ops, depends, s, l, w, k)
  {
    hide CloneCandidate, IsClone, Predecessor, AnchoredConstraints, ClonesAre;
    forall k ensures !ClonesAre(c, ops, depends, s, l, w, k) {
      CloneAssigned(c, ops, depends, s, l, w, k, o);
      if n.Some? && n.value in found {
        CloneAssigned(c, ops, depends, s, l, w, k, found[n.value]);
      }
    }
  }

  lemma CloneOneMore(c: Canvas, ops: Operations, depends: Depends, s: map<Id, Id>, l: map<Id, Id>, w: Workset,
                     seen: seq<Id>, found: map<Id, Id>, o: Id, n: Id)
    requires FoundClones(c, ops, depends, s, l, w, seen, found) && n !in found
    requires o in ops && CloneOf(c, ops, depends, s, l, w, o, n)
    ensures FoundClones(c, ops, depends, s, l, w, seen + [o], found[n := o])
  {
    hide CloneCandidate, CloneOf;
    var more := found[n := o];
    assert more[n] == o && forall m :: m in found ==> more[m] == found[m];
    forall p | p in seen + [o] && p in ops && CloneCandidate(ops[p]) ensures p in more.Values {
      if p in seen {
        var m :| m in found && found[m] == p;
        assert more[m] == p;
      }
    }
  }

  lemma OtherOneMore(c: Canvas, ops: Operations, depends: Depends, s: map<Id, Id>, l: map<Id, Id>, w: Workset,
                     seen: seq<Id>, found: map<Id, Id>, o: Id)
    requires FoundClones(c, ops, depends, s, l, w, seen, found) && o in ops && !CloneCandidate(ops[o])
    ensures FoundClones(c, ops, depends, s, l, w, seen + [o], found)
  {
    hide CloneCandidate, CloneOf;
  }

  lemma NoClonesYet(c: Canvas, ops: Operations, depends: Depends, s: map<Id, Id>, l: map<Id, Id>, w: Workset)
    ensures FoundClones(c, ops, depends, s, l, w, [], map[])
  {
  }

  lemma FoundAllClones(c: Canvas, ops: Operations, depends: Depends, s: map<Id, Id>, l: map<Id, Id>, w: Workset,
                       order: seq<Id>, found: map<Id, Id>)
    requires FoundClones(c, ops, depends, s, l, w, order, found) && forall o :: o in order <==> o in ops
    ensures found.Keys == AnchoredConstraints(c, w.targets) ==> ClonesAre(c, ops, depends, s, l, w, found)
    ensures found.Keys != AnchoredConstraints(c, w.targets) ==> forall k :: !ClonesAre(c, ops, depends, s, l, w, k)
  {
    hide CloneCandidate, IsClone, Predecessor, AnchoredConstraints;
    forall k | ClonesAre(c, ops, depends, s, l, w, k) ensures found.Keys == AnchoredConstraints(c, w.targets) {
      forall n | n in k ensures n in found {
        assert CloneOf(c, ops, depends, s, l, w, k[n], n) && k[n] in order;
        var m :| m in found && found[m] == k[n];
        assert CloneOf(c, ops, depends, s, l, w, found[m], m);
      }
      forall n | n in found ensures n in AnchoredConstraints(c, w.targets) {
        assert CloneOf(c, ops, depends, s, l, w, found[n], n);
      }
    }
  }

  method CollectClones(c: Canvas, order: seq<Id>, ops: Operations, depends: Depends, successors: map<Id, Id>,
                       lineage: map<Id, Id>, w: Workset)
    returns (r: Option<map<Id, Id>>)
    requires NoDuplicates(order) && forall o :: o in order <==> o in ops
    requires depends.Keys == ops.Keys && successors.Keys == lineage.Keys == w.targets
    requires forall t :: t in successors ==> successors[t] in ops && ops[successors[t]].AddNodeCandidate?
    ensures r.Some? ==> ClonesAre(c, ops, depends, successors, lineage, w, r.value)
    ensures r.None? ==> forall k :: !ClonesAre(c, ops, depends, successors, lineage, w, k)
  {
    hide ClonesAre, IsClone, FoundClones;
    var constraints := AnchoredConstraints(c, w.targets);
    var clones: map<Id, Id> := map[];
    NoClonesYet(c, ops, depends, successors, lineage, w);
    for i := 0 to |order|
      invariant FoundClones(c, ops, depends, successors, lineage, w, order[..i], clones)
    {
      assert order[..i + 1] == order[..i] + [order[i]] && order[i] in order && order[i] !in order[..i];
      var o := order[i];
      if CloneCandidate(ops[o]) {
        var n := Predecessor(ops[o]);
        var fails := n.None? || n.value !in constraints || n.value in clones;
        if !fails {
          var target := c.nodes[n.value].branchRoot.value;
          fails := !IsClone(ops[o], c.nodes[n.value], ops[successors[target]].local, w) || lineage[target] !in depends[o];
        }
        if fails {
          SpoilsClones(c, ops, depends, successors, lineage, w, order[..i], clones, o, n);
          return None;
        }
        CloneOneMore(c, ops, depends, successors, lineage, w, order[..i], clones, o, n.value);
        clones := clones[n.value := o];
      } else {
        OtherOneMore(c, ops, depends, successors, lineage, w, order[..i], clones, o);
      }
    }
    assert order[..|order|] == order;
    FoundAllClones(c, ops, depends, successors, lineage, w, order, clones);
    if clones.Keys != constraints { return None; }
    return Some(clones);
  }

  // ------------------------------------------------------------------ the groups

  /** The group of one target: its successor is the root, the lineage edge needs the successor, and
      every clone needs the lineage edge. */
  ghost predicate ChainedGroup(depends: Depends, g: Group, lineage: Id) {
    && g.root in g.members && lineage in g.members && g.root != lineage
    && lineage in depends && g.root in depends[lineage]
    && forall m :: m in g.members && m != g.root && m != lineage ==> m in depends && lineage in depends[m]
  }

  ghost predicate Chained(depends: Depends, g: Group) {
    exists lineage :: ChainedGroup(depends, g, lineage)
  }

  lemma ChainedIsRooted(depends: Depends, g: Group)
    requires Chained(depends, g)
    ensures Rooted(depends, g)
  {
    var rel := Prerequisites(depends);
    var lineage :| ChainedGroup(depends, g, lineage);
    ReachesSelf(rel, g.root);
    ReachesHeadStep(rel, lineage, g.root, g.root);
    forall m | m in g.members ensures Reaches(rel, m, g.root) {
      if m != g.root && m != lineage {
        ReachesHeadStep(rel, m, lineage, g.root);
      }
    }
  }

  ghost predicate GroupSound(c: Canvas, ops: Operations, depends: Depends, w: Workset, selected: set<Id>, g: Group) {
    && g.target in w.targets && Chained(depends, g) && SelectedWhole(g, selected)
    && g.root in ops && g.target in c.nodes && IsSuccessor(ops[g.root], g.target, c.nodes[g.target].kind, w)
    && forall m :: m in g.members ==> m in ops && TargetOf(c, ops[m]) == Some(g.target)
  }

  /** The facts about a decomposition that make its groups sound. */
  lemma MemberTargets(c: Canvas, ops: Operations, depends: Depends, w: Workset, s: map<Id, Id>, l: map<Id, Id>, k: map<Id, Id>, t: Id)
    requires MembersFit(c, ops, depends, w, s, l, k) && t in w.targets
    ensures t in s && t in l && s[t] in ops && l[t] in ops && s[t] != l[t] && l[t] in depends && s[t] in depends[l[t]]
    ensures TargetOf(c, ops[s[t]]) == Some(t) && TargetOf(c, ops[l[t]]) == Some(t)
    ensures t in c.nodes && IsSuccessor(ops[s[t]], t, c.nodes[t].kind, w)
  {
    assert LineageOf(ops, depends, s, w, t, l[t]);
  }

  lemma CloneTarget(c: Canvas, ops: Operations, depends: Depends, w: Workset, s: map<Id, Id>, l: map<Id, Id>, k: map<Id, Id>, t: Id, n: Id)
    requires MembersFit(c, ops, depends, w, s, l, k) && t in w.targets && n in k && n in c.nodes && c.nodes[n].branchRoot == Some(t)
    ensures k[n] in ops && TargetOf(c, ops[k[n]]) == Some(t) && t in l && k[n] in depends && l[t] in depends[k[n]]
  {
    assert CloneOf(c, ops, depends, s, l, w, k[n], n);
  }

  /** A member of a group beside the successor and the lineage edge is a clone behind that edge. */
  lemma OtherMember(c: Canvas, ops: Operations, depends: Depends, w: Workset, s: map<Id, Id>, l: map<Id, Id>, k: map<Id, Id>,
                    t: Id, m: Id)
    requires MembersFit(c, ops, depends, w, s, l, k) && t in w.targets && t in s && t in l
    requires m in GroupFor(c, s, l, k, t).members && m != s[t] && m != l[t]
    ensures m in ops && TargetOf(c, ops[m]) == Some(t) && m in depends && l[t] in depends[m]
  {
    hide TargetOf, MembersFit;
    var n :| n in k && n in c.nodes && c.nodes[n].branchRoot == Some(t) && k[n] == m;
    CloneTarget(c, ops, depends, w, s, l, k, t, n);
  }

  lemma GroupIsSound(c: Canvas, ops: Operations, depends: Depends, w: Workset, s: map<Id, Id>, l: map<Id, Id>, k: map<Id, Id>,
                     t: Id, selected: set<Id>)
    requires MembersFit(c, ops, depends, w, s, l, k) && t in w.targets && t in s && t in l
    requires SelectedWhole(GroupFor(c, s, l, k, t), selected)
    ensures GroupSound(c, ops, depends, w, selected, GroupFor(c, s, l, k, t))
  {
    var g := GroupFor(c, s, l, k, t);
    assert g.target == t && g.root == s[t] && s[t] in g.members && l[t] in g.members;
    MemberTargets(c, ops, depends, w, s, l, k, t);
    forall m | m in g.members && m != s[t] && m != l[t]
      ensures m in ops && TargetOf(c, ops[m]) == Some(t) && m in depends && l[t] in depends[m]
    {
      OtherMember(c, ops, depends, w, s, l, k, t, m);
    }
    hide *;
    SoundFromParts(c, ops, depends, w, selected, g, l[t]);
  }

  lemma SoundFromParts(c: Canvas, ops: Operations, depends: Depends, w: Workset, selected: set<Id>, g: Group, lineage: Id)
    requires g.target in w.targets && g.target in c.nodes && SelectedWhole(g, selected)
    requires g.root in ops && IsSuccessor(ops[g.root], g.target, c.nodes[g.target].kind, w)
    requires g.root in g.members && lineage in g.members && g.root != lineage && lineage in ops
    requires TargetOf(c, ops[g.root]) == Some(g.target) && TargetOf(c, ops[lineage]) == Some(g.target)
    requires lineage in depends && g.root in depends[lineage]
    requires forall m :: m in g.members && m != g.root && m != lineage ==>
      m in ops && TargetOf(c, ops[m]) == Some(g.target) && m in depends && lineage in depends[m]
    ensures GroupSound(c, ops, depends, w, selected, g)
  {
    hide IsSuccessor, TargetOf, SelectedWhole;
    assert ChainedGroup(depends, g, lineage);
  }

  /** These are the groups of a decomposition, one per target. */
  ghost predicate GroupsAre(c: Canvas, targets: set<Id>, s: map<Id, Id>, l: map<Id, Id>, k: map<Id, Id>, groups: seq<Group>) {
    && targets <= s.Keys && targets <= l.Keys
    && forall g :: g in groups <==> g.target in targets && g == GroupFor(c, s, l, k, g.target)
  }

  method BuildGroups(c: Canvas, ops: Operations, depends: Depends, successors: map<Id, Id>, lineage: map<Id, Id>,
                     clones: map<Id, Id>, w: Workset, selected: set<Id>)
    returns (r: Option<seq<Group>>)
    requires MembersFit(c, ops, depends, w, successors, lineage, clones)
    ensures r.Some? <==> Decomposes(c, ops, depends, w, selected, successors, lineage, clones)
    ensures r.Some? ==> GroupsAre(c, w.targets, successors, lineage, clones, r.value) && Disjoint(r.value)
    ensures r.Some? ==> forall g :: g in r.value ==> GroupSound(c, ops, depends, w, selected, g)
  {
    hide *;
    FitKeys(c, ops, depends, w, successors, lineage, clones);
    var groups: seq<Group> := [];
    var targets := Sorted(w.targets);
    for i := 0 to |targets|
      invariant |groups| == i && forall j :: 0 <= j < i ==> groups[j] == GroupFor(c, successors, lineage, clones, targets[j])
      invariant forall j :: 0 <= j < i ==> SelectedWhole(groups[j], selected)
    {
      var g := GroupFor(c, successors, lineage, clones, targets[i]);
      var chosen := g.members * selected;
      ChosenWhole(g, selected);
      if chosen != {} && chosen != g.members {
        GroupNotWhole(c, ops, depends, w, selected, successors, lineage, clones, targets[i]);
        return None;
      }
      groups := groups + [g];
    }
    GroupsBuilt(c, ops, depends, w, selected, successors, lineage, clones, targets, groups);
    return Some(groups);
  }

  lemma FitKeys(c: Canvas, ops: Operations, depends: Depends, w: Workset, s: map<Id, Id>, l: map<Id, Id>, k: map<Id, Id>)
    requires MembersFit(c, ops, depends, w, s, l, k)
    ensures s.Keys == w.targets && l.Keys == w.targets
  {
  }

  lemma GroupNotWhole(c: Canvas, ops: Operations, depends: Depends, w: Workset, selected: set<Id>,
                      s: map<Id, Id>, l: map<Id, Id>, k: map<Id, Id>, t: Id)
    requires t in w.targets && t in s && t in l && !SelectedWhole(GroupFor(c, s, l, k, t), selected)
    ensures !Decomposes(c, ops, depends, w, selected, s, l, k)
  {
    hide SuccessorsAre, LineageIs, ClonesAre, SelectedWhole, GroupFor;
  }

  /** One whole group per target: the operations decompose, and the groups are sound and disjoint. */
  lemma GroupsBuilt(c: Canvas, ops: Operations, depends: Depends, w: Workset, selected: set<Id>,
                    s: map<Id, Id>, l: map<Id, Id>, k: map<Id, Id>, targets: seq<Id>, groups: seq<Group>)
    requires MembersFit(c, ops, depends, w, s, l, k) && s.Keys == w.targets && l.Keys == w.targets
    requires StrictlyIncreasing(targets) && |groups| == |targets|
    requires (forall t :: t in targets <==> t in w.targets) && forall j :: 0 <= j < |targets| ==> targets[j] in w.targets
    requires forall j :: 0 <= j < |groups| ==> groups[j] == GroupFor(c, s, l, k, targets[j]) && SelectedWhole(groups[j], selected)
    ensures Decomposes(c, ops, depends, w, selected, s, l, k)
    ensures GroupsAre(c, w.targets, s, l, k, groups) && Disjoint(groups)
    ensures forall g :: g in groups ==> GroupSound(c, ops, depends, w, selected, g)
  {
    hide SuccessorsAre, LineageIs, ClonesAre, GroupSound, SelectedWhole;
    GroupsAssembled(c, w, s, l, k, targets, groups);
    forall t | t in w.targets ensures SelectedWhole(GroupFor(c, s, l, k, t), selected) {
      var j :| 0 <= j < |targets| && targets[j] == t;
      assert SelectedWhole(groups[j], selected);
    }
    hide MembersFit, StrictlyIncreasing;
    forall j | 0 <= j < |groups| ensures GroupSound(c, ops, depends, w, selected, groups[j]) && groups[j].target == targets[j] {
      GroupIsSound(c, ops, depends, w, s, l, k, targets[j], selected);
    }
    SoundGroupsDisjoint(c, ops, depends, w, selected, groups, targets);
  }

  lemma GroupsAssembled(c: Canvas, w: Workset, s: map<Id, Id>, l: map<Id, Id>, k: map<Id, Id>, targets: seq<Id>, groups: seq<Group>)
    requires s.Keys == w.targets && l.Keys == w.targets && |groups| == |targets|
    requires (forall t :: t in targets <==> t in w.targets) && forall j :: 0 <= j < |targets| ==> targets[j] in w.targets
    requires forall j :: 0 <= j < |groups| ==> groups[j] == GroupFor(c, s, l, k, targets[j])
    ensures GroupsAre(c, w.targets, s, l, k, groups)
  {
    forall g: Group | g.target in w.targets && g == GroupFor(c, s, l, k, g.target) ensures g in groups {
      var j :| 0 <= j < |targets| && targets[j] == g.target;
      assert groups[j] == g;
    }
  }

  lemma ChosenWhole(g: Group, selected: set<Id>)
    ensures SelectedWhole(g, selected) <==> g.members * selected == {} || g.members * selected == g.members
  {
    if g.members * selected == g.members {
      assert g.members <= selected by { assert forall m :: m in g.members ==> m in g.members * selected; }
    } else if g.members * selected == {} {
      assert forall m :: m in g.members ==> m !in g.members * selected;
    } else {
      var m :| m in g.members * selected;
      assert g.members <= selected ==> g.members * selected == g.members;
    }
  }

  lemma SoundGroupsDisjoint(c: Canvas, ops: Operations, depends: Depends, w: Workset, selected: set<Id>,
                            groups: seq<Group>, targets: seq<Id>)
    requires StrictlyIncreasing(targets) && |groups| == |targets|
    requires forall k :: 0 <= k < |groups| ==> groups[k].target == targets[k]
    requires forall g :: g in groups ==> GroupSound(c, ops, depends, w, selected, g)
    ensures Disjoint(groups)
  {
    hide Chained, IsSuccessor, TargetOf;
    forall k, l | 0 <= k < l < |groups| ensures groups[k].members !! groups[l].members {
      assert groups[k] in groups && groups[l] in groups && targets[k] != targets[l];
    }
  }

  // ------------------------------------------------------------------ the whole check

  /** The successors, the lineage and the clones of a patch are what they are: there is one decomposition at most. */
  lemma DecompositionUnique(c: Canvas, ops: Operations, depends: Depends, w: Workset, s: map<Id, Id>, l: map<Id, Id>,
                            k: map<Id, Id>, s': map<Id, Id>, l': map<Id, Id>, k': map<Id, Id>)
    requires MembersFit(c, ops, depends, w, s, l, k) && MembersFit(c, ops, depends, w, s', l', k')
    ensures s == s' && l == l' && k == k'
  {
    SuccessorsUnique(c, ops, w, s, s');
    LineageUnique(ops, depends, s, w, l, l');
    ClonesUnique(c, ops, depends, s, l, w, k, k');
  }

  lemma LineageUnique(ops: Operations, depends: Depends, s: map<Id, Id>, w: Workset, l: map<Id, Id>, z: map<Id, Id>)
    requires LineageIs(ops, depends, s, w, l) && LineageIs(ops, depends, s, w, z)
    ensures l == z
  {
    hide LineageMatch, Get;
    forall t | t in l ensures l[t] == z[t] {
      assert LineageOf(ops, depends, s, w, t, l[t]) && LineageOf(ops, depends, s, w, t, z[t]);
    }
  }

  lemma ClonesUnique(c: Canvas, ops: Operations, depends: Depends, s: map<Id, Id>, l: map<Id, Id>, w: Workset,
                     k: map<Id, Id>, z: map<Id, Id>)
    requires ClonesAre(c, ops, depends, s, l, w, k) && ClonesAre(c, ops, depends, s, l, w, z)
    ensures k == z
  {
    hide IsClone, AnchoredConstraints, Predecessor, CloneCandidate;
    forall n | n in k ensures k[n] == z[n] {
      assert CloneOf(c, ops, depends, s, l, w, k[n], n);
      CloneAssigned(c, ops, depends, s, l, w, z, k[n]);
    }
  }

  datatype Validated = Groups(groups: seq<Group>) | ContractInvalid | SelectedInPart

  /** Accepts exactly the patches that meet the contract; the groups are those of the decomposition. Of the rest, a
      patch that would meet it under another selection is refused for its selection. */
  method ValidateRegeneration(c: Canvas, order: seq<Id>, ops: Operations, depends: Depends, w: Workset,
                              declared: Workset, selected: set<Id>)
    returns (r: Validated)
    requires NoDuplicates(order) && forall o :: o in order <==> o in ops
    requires depends.Keys == ops.Keys
    ensures r.Groups? <==> ContractMet(c, ops, depends, w, declared, selected)
    ensures r.ContractInvalid? <==> !PatchFits(c, ops, depends, w, declared)
    ensures r.Groups? ==> exists s, l, k ::
      Decomposes(c, ops, depends, w, selected, s, l, k) && GroupsAre(c, w.targets, s, l, k, r.groups)
    ensures r.Groups? ==> Disjoint(r.groups) && forall g :: g in r.groups ==> GroupSound(c, ops, depends, w, selected, g)
  {
    hide SuccessorsAre, LineageIs, ClonesAre, GroupSound, Disjoint, GroupsAre, SelectedWhole, Decomposes, WorksetSound;
    ContractFits(c, ops, depends, w, declared, selected);
    if !WorksetSound(w) || declared.targets != w.targets || declared.permitted != w.permitted { return ContractInvalid; }
    if exists o :: o in ops && !PatchInvariant.AddOnly(ops[o]) { return ContractInvalid; }
    if !(w.targets + w.permitted <= c.nodes.Keys) { return ContractInvalid; }
    if exists n :: n in w.permitted && (!c.nodes[n].stale || CausesOf(c.causes, n) == []) { return ContractInvalid; }
    hide PatchInvariant.AddOnly;
    var successors := CollectSuccessors(c, order, ops, w);
    if successors.None? { return ContractInvalid; }
    SuccessorsAreNodes(c, ops, w, successors.value);
    OnlyThese(c, ops, depends, w, successors.value);
    var lineage := CollectLineage(ops, depends, successors.value, w);
    if lineage.None? { return ContractInvalid; }
    LineageOnly(ops, depends, w, successors.value, lineage.value);
    var clones := CollectClones(c, order, ops, depends, successors.value, lineage.value, w);
    if clones.None? { return ContractInvalid; }
    assert MembersFit(c, ops, depends, w, successors.value, lineage.value, clones.value);
    var built := BuildGroups(c, ops, depends, successors.value, lineage.value, clones.value, w, selected);
    if built.None? {
      OnlyDecomposition(c, ops, depends, w, selected, successors.value, lineage.value, clones.value);
      return SelectedInPart;
    }
    return Groups(built.value);
  }

  lemma ContractFits(c: Canvas, ops: Operations, depends: Depends, w: Workset, declared: Workset, selected: set<Id>)
    ensures ContractMet(c, ops, depends, w, declared, selected) ==> PatchFits(c, ops, depends, w, declared)
  {
    hide SuccessorsAre, LineageIs, ClonesAre, SelectedWhole, WorksetHolds;
    if ContractMet(c, ops, depends, w, declared, selected) {
      var s, l, k :| Decomposes(c, ops, depends, w, selected, s, l, k);
      assert MembersFit(c, ops, depends, w, s, l, k);
    }
  }

  lemma OnlyThese(c: Canvas, ops: Operations, depends: Depends, w: Workset, s: map<Id, Id>)
    requires SuccessorsAre(c, ops, w, s)
    ensures forall z, l, k :: MembersFit(c, ops, depends, w, z, l, k) ==> z == s
  {
    forall z, l, k | MembersFit(c, ops, depends, w, z, l, k) ensures z == s {
      SuccessorsUnique(c, ops, w, s, z);
    }
  }

  lemma LineageOnly(ops: Operations, depends: Depends, w: Workset, s: map<Id, Id>, l: map<Id, Id>)
    requires LineageIs(ops, depends, s, w, l)
    ensures l.Keys == s.Keys && forall z :: LineageIs(ops, depends, s, w, z) ==> z == l
  {
    forall z | LineageIs(ops, depends, s, w, z) ensures z == l {
      LineageUnique(ops, depends, s, w, l, z);
    }
  }

  lemma OnlyDecomposition(c: Canvas, ops: Operations, depends: Depends, w: Workset, selected: set<Id>,
                          s: map<Id, Id>, l: map<Id, Id>, k: map<Id, Id>)
    requires MembersFit(c, ops, depends, w, s, l, k) && !Decomposes(c, ops, depends, w, selected, s, l, k)
    ensures forall s', l', k' :: !Decomposes(c, ops, depends, w, selected, s', l', k')
  {
    forall s', l', k' ensures !Decomposes(c, ops, depends, w, selected, s', l', k') {
      if Decomposes(c, ops, depends, w, selected, s', l', k') {
        DecompositionUnique(c, ops, depends, w, s, l, k, s', l', k');
      }
    }
  }

  lemma SuccessorsAreNodes(c: Canvas, ops: Operations, w: Workset, s: map<Id, Id>)
    requires SuccessorsAre(c, ops, w, s)
    ensures s.Keys == w.targets && forall t :: t in s ==> s[t] in ops && ops[s[t]].AddNodeCandidate?
  {
  }
}

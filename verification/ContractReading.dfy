/** The regeneration contract read directly off the patch, the canvas and the frozen workset, without naming its members
    beforehand (proofgraph/generation/patch_application.py:640-1094). */
module ContractReading {
  import opened Reachability
  import opened GraphTypes
  import opened DependencyOrder
  import opened CanvasModel
  import opened RegenerationContract

  /** The value is the text of this identity, in whatever spelling. */
  predicate SpelledAs(value: Option<Value>, id: Id) {
    match value
    case Some(Text(IdText(x))) => x == id
    case Some(Text(IdSpelling(x, _))) => x == id
    case _ => false
  }

  predicate MadeBy(metadata: Metadata, run: Id) {
    Get(metadata, GeneratedByRun) == Some(Text(IdText(run)))
  }

  /** The operation adds a parallel successor of the target: a node of its kind that names it, made by this run. */
  predicate Succeeds(c: Canvas, ops: Operations, w: Workset, t: Id, o: Id) {
    && t in w.targets && t in c.nodes && o in ops && ops[o].AddNodeCandidate? && ops[o].kind == c.nodes[t].kind
    && (ops[o].kind == Strategy || ops[o].kind == Claim || ops[o].kind == Opportunity)
    && SpelledAs(Get(ops[o].metadata, RegeneratedFrom), t) && MadeBy(ops[o].metadata, w.run)
    && Get(ops[o].metadata, RegenerationScope) == Some(Text(w.scope)) && Get(ops[o].metadata, LineageMode) == Some(Text(Parallel))
  }

  predicate EvolvesTo(ops: Operations, t: Id, u: Id, e: Id) {
    && e in ops && u in ops && ops[u].AddNodeCandidate? && ops[e].AddEdgeCandidate? && ops[e].edgeKind == EvolvesInto
    && ops[e].source == IdText(t) && ops[e].target == ops[u].local
  }

  /** The operation adds the one edge from the target to its successor, made by this run and behind the successor. */
  ghost predicate Leads(c: Canvas, ops: Operations, depends: Depends, w: Workset, t: Id, e: Id) {
    exists u :: Succeeds(c, ops, w, t, u) && LeadsTo(ops, depends, w, t, u, e)
  }

  ghost predicate LeadsTo(ops: Operations, depends: Depends, w: Workset, t: Id, u: Id, e: Id) {
    && EvolvesTo(ops, t, u, e) && MadeBy(ops[e].metadata, w.run) && e in depends && u in depends[e]
    && forall f :: EvolvesTo(ops, t, u, f) ==> f == e
  }

  predicate AnchoredAt(c: Canvas, n: Id, t: Id) {
    n in c.nodes && c.nodes[n].kind == Constraint && c.nodes[n].branchRoot == Some(t)
  }

  /** Two metadata say the same, except for what the server writes into a clone. */
  ghost predicate SameSemantics(a: Metadata, b: Metadata) {
    forall f: Field :: f != GeneratedByRun && f != ProvenanceNodes && f != ReviewStatus && f != SourcePatch ==>
      Get(a, f) == Get(b, f)
  }

  /** The operation adds a provisional copy of the constraint, made by this run, that names it as its only origin. */
  ghost predicate Copies(c: Canvas, ops: Operations, w: Workset, n: Id, o: Id) {
    && n in c.nodes && o in ops && ops[o].AddNodeCandidate? && ops[o].kind == Constraint
    && ops[o].title == c.nodes[n].title && ops[o].body == c.nodes[n].body && SameSemantics(ops[o].metadata, c.nodes[n].metadata)
    && MadeBy(ops[o].metadata, w.run) && Get(ops[o].metadata, ReviewStatus) == Some(Text(Provisional))
    && match Get(ops[o].metadata, ProvenanceNodes)
       case Some(Items(items)) => |items| == 1 && SpelledAs(Some(items[0]), n)
       case _ => false
  }

  /** The added node is anchored at the successor of the target and behind the edge that leads there. */
  ghost predicate Hangs(c: Canvas, ops: Operations, depends: Depends, w: Workset, t: Id, o: Id)
    requires o in ops && ops[o].AddNodeCandidate?
  {
    exists u, e :: Succeeds(c, ops, w, t, u) && LeadsTo(ops, depends, w, t, u, e)
                   && ops[o].root == Some(ops[u].local) && o in depends && e in depends[o]
  }

  /** It is a copy of a constraint of the target, put where the successor is. */
  ghost predicate Clones(c: Canvas, ops: Operations, depends: Depends, w: Workset, t: Id, n: Id, o: Id) {
    AnchoredAt(c, n, t) && Copies(c, ops, w, n, o) && Hangs(c, ops, depends, w, t, o)
  }

  /** The operation belongs to the target's group. */
  ghost predicate Joins(c: Canvas, ops: Operations, depends: Depends, w: Workset, t: Id, o: Id) {
    Succeeds(c, ops, w, t, o) || Leads(c, ops, depends, w, t, o) || exists n :: Clones(c, ops, depends, w, t, n, o)
  }

  ghost predicate Served(c: Canvas, ops: Operations, depends: Depends, w: Workset, t: Id) {
    && t in c.nodes && (exists u :: Succeeds(c, ops, w, t, u)) && (exists e :: Leads(c, ops, depends, w, t, e))
    && (forall u, v :: Succeeds(c, ops, w, t, u) && Succeeds(c, ops, w, t, v) ==> u == v)
    && (forall n :: AnchoredAt(c, n, t) ==> exists o :: Clones(c, ops, depends, w, t, n, o))
    && (forall n, o, p :: Clones(c, ops, depends, w, t, n, o) && Clones(c, ops, depends, w, t, n, p) ==> o == p)
  }

  /** Every added node has its place: a root is the successor of a target, a constraint the clone of one of a target, and
      any other node names no predecessor. */
  ghost predicate Placed(c: Canvas, ops: Operations, depends: Depends, w: Workset, o: Id)
    requires o in ops && ops[o].AddNodeCandidate?
  {
    && Other("regenerates_node_id") !in ops[o].metadata
    && match ops[o].kind
       case Strategy => exists t :: Succeeds(c, ops, w, t, o)
       case Claim => exists t :: Succeeds(c, ops, w, t, o)
       case Opportunity => exists t :: Succeeds(c, ops, w, t, o)
       case Constraint =>
         RegeneratedFrom !in ops[o].metadata && exists t, n :: t in w.targets && Clones(c, ops, depends, w, t, n, o)
       case _ => RegeneratedFrom !in ops[o].metadata
  }

  /** The patch declares the frozen workset and only adds; what is frozen is there, and its stale members are stale. */
  ghost predicate Holds(c: Canvas, ops: Operations, w: Workset, declared: Workset) {
    && w.targets != {} && w.permitted != {} && (w.scope == NodeScope || w.scope == BranchScope)
    && declared.targets == w.targets && declared.permitted == w.permitted
    && (forall o :: o in ops ==> ops[o].AddNodeCandidate? || ops[o].AddEdgeCandidate?)
    && (forall n :: n in w.targets || n in w.permitted ==> n in c.nodes)
    && (forall n :: n in w.permitted ==> c.nodes[n].stale && n in c.causes && c.causes[n] != [])
  }

  ghost predicate Fits(c: Canvas, ops: Operations, depends: Depends, w: Workset) {
    && (forall t :: t in w.targets ==> Served(c, ops, depends, w, t))
    && (forall o :: o in ops && ops[o].AddNodeCandidate? ==> Placed(c, ops, depends, w, o))
  }

  /** Every group is selected as a whole or not at all. */
  ghost predicate Undivided(c: Canvas, ops: Operations, depends: Depends, w: Workset, selected: set<Id>) {
    forall t :: t in w.targets ==>
      || (forall o :: Joins(c, ops, depends, w, t, o) ==> o in selected)
      || (forall o :: Joins(c, ops, depends, w, t, o) ==> o !in selected)
  }

  // ---- the manifest ----

  /** A frozen target that can be read: a node, with a list of stale members or without one. */
  predicate Legible(target: FrozenTarget) {
    match target
    case FrozenTarget(_, NotListed) => true
    case FrozenTarget(_, Listed(_)) => true
    case _ => false
  }

  /** A target without stale members, listed or not, stands for itself. */
  predicate StandsFor(target: FrozenTarget, n: Id) {
    match target
    case FrozenTarget(node, NotListed) => n == node
    case FrozenTarget(node, Listed(members)) => if members == [] then n == node else n in members
    case _ => false
  }

  /** Which manifests are accepted. */
  lemma ManifestReads(m: Manifest)
    ensures ManifestSound(m) <==>
      && (m.scope == Some(NodeScope) || m.scope == Some(BranchScope)) && m.requested == m.scope
      && m.targets.Some? && m.targets.value != []
      && (forall i :: 0 <= i < |m.targets.value| ==> Legible(m.targets.value[i]))
      && (forall i, j :: 0 <= i < j < |m.targets.value| ==> m.targets.value[i].node != m.targets.value[j].node)
  {
    if m.targets.Some? && forall i :: 0 <= i < |m.targets.value| ==> Legible(m.targets.value[i]) {
      var targets := m.targets.value;
      forall i: nat, n ensures TargetAt(targets, i, n) <==> i < |targets| && targets[i].node == n {
        assert i < |targets| ==> Legible(targets[i]);
      }
      forall i, j | 0 <= i < j < |targets|
        ensures TargetAt(targets, i, targets[i].node)
        ensures TargetAt(targets, j, targets[i].node) <==> targets[j].node == targets[i].node
      {
        assert Legible(targets[i]) && Legible(targets[j]);
      }
    }
    assert forall target :: Legible(target) <==> WellFormed(target);
    hide Legible, WellFormed;
  }

  ghost predicate NamedIn(targets: seq<FrozenTarget>, n: Id) {
    exists i :: 0 <= i < |targets| && targets[i].FrozenTarget? && targets[i].node == n
  }

  ghost predicate StaleIn(targets: seq<FrozenTarget>, n: Id) {
    exists i :: 0 <= i < |targets| && StandsFor(targets[i], n)
  }

  lemma FrozenIn(targets: seq<FrozenTarget>, n: Id)
    requires forall i :: 0 <= i < |targets| ==> WellFormed(targets[i])
    ensures NamedIn(targets, n) <==> exists i: nat :: TargetAt(targets, i, n)
    ensures StaleIn(targets, n) <==> exists i: nat :: MemberAt(targets, i, n)
  {
    if i :| 0 <= i < |targets| && targets[i].node == n {
      assert TargetAt(targets, i, n);
    }
    if i :| 0 <= i < |targets| && StandsFor(targets[i], n) {
      assert MemberAt(targets, i, n);
    }
    if i: nat :| MemberAt(targets, i, n) {
      assert StandsFor(targets[i], n);
    }
  }

  /** And what they freeze. */
  lemma ManifestFreezes(m: Manifest, w: Workset)
    requires ManifestSound(m)
    ensures Freezes(m, w) <==>
      && w.run == m.run && Some(w.scope) == m.scope
      && (forall n :: n in w.targets <==> NamedIn(m.targets.value, n))
      && (forall n :: n in w.permitted <==> StaleIn(m.targets.value, n))
  {
    forall n ensures NamedIn(m.targets.value, n) <==> exists i: nat :: TargetAt(m.targets.value, i, n) {
      FrozenIn(m.targets.value, n);
    }
    forall n ensures StaleIn(m.targets.value, n) <==> exists i: nat :: MemberAt(m.targets.value, i, n) {
      FrozenIn(m.targets.value, n);
    }
    hide NamedIn, StaleIn, TargetAt, MemberAt, WellFormed;
  }

  // ---- the same operations ----

  lemma SucceedsIff(c: Canvas, ops: Operations, w: Workset, t: Id, o: Id)
    ensures Succeeds(c, ops, w, t, o)
            <==> t in w.targets && t in c.nodes && o in ops && IsSuccessor(ops[o], t, c.nodes[t].kind, w)
  {
  }

  lemma SemanticsIff(a: Metadata, b: Metadata)
    ensures SameSemantics(a, b) <==> ConstraintSemantics(a) == ConstraintSemantics(b)
  {
    if SameSemantics(a, b) {
      forall f ensures f in ConstraintSemantics(a) <==> f in ConstraintSemantics(b) {
        assert Get(a, f) == Get(b, f) || f in {GeneratedByRun, ProvenanceNodes, ReviewStatus, SourcePatch};
      }
      forall f | f in ConstraintSemantics(a) ensures ConstraintSemantics(a)[f] == ConstraintSemantics(b)[f] {
        assert Get(a, f) == Get(b, f);
      }
    }
    if ConstraintSemantics(a) == ConstraintSemantics(b) {
      forall f: Field | f != GeneratedByRun && f != ProvenanceNodes && f != ReviewStatus && f != SourcePatch
        ensures Get(a, f) == Get(b, f)
      {
        assert f in a <==> f in ConstraintSemantics(a);
        assert f in b <==> f in ConstraintSemantics(b);
        if f in a {
          assert a[f] == ConstraintSemantics(a)[f] == ConstraintSemantics(b)[f] == b[f];
        }
      }
    }
  }

  lemma CopiesIff(c: Canvas, ops: Operations, w: Workset, n: Id, o: Id, local: Token)
    requires n in c.nodes && o in ops && ops[o].AddNodeCandidate?
    ensures Copies(c, ops, w, n, o) && ops[o].root == Some(local)
            <==> CloneCandidate(ops[o]) && Predecessor(ops[o]) == Some(n) && IsClone(ops[o], c.nodes[n], local, w)
  {
    SemanticsIff(ops[o].metadata, c.nodes[n].metadata);
    hide SameSemantics, ConstraintSemantics;
  }

  lemma EvolvesIff(ops: Operations, t: Id, u: Id, e: Id)
    requires u in ops && ops[u].AddNodeCandidate?
    ensures EvolvesTo(ops, t, u, e) <==> e in ops && LineageMatch(ops[e], t, ops[u].local)
  {
  }

  lemma LeadsToIff(ops: Operations, depends: Depends, w: Workset, t: Id, u: Id, e: Id)
    requires u in ops && ops[u].AddNodeCandidate?
    ensures LeadsTo(ops, depends, w, t, u, e) <==> OnlyMatch(ops, t, ops[u].local, w, e) && e in depends && u in depends[e]
  {
    forall f ensures EvolvesTo(ops, t, u, f) <==> f in ops && LineageMatch(ops[f], t, ops[u].local) {
      EvolvesIff(ops, t, u, f);
    }
    hide EvolvesTo, LineageMatch;
  }

  // ---- from the named members to the reading ----

  lemma SuccessorsRead(c: Canvas, ops: Operations, w: Workset, s: map<Id, Id>, t: Id, o: Id)
    requires SuccessorsAre(c, ops, w, s)
    ensures Succeeds(c, ops, w, t, o) <==> t in s && s[t] == o
  {
    SucceedsIff(c, ops, w, t, o);
    if Succeeds(c, ops, w, t, o) {
      assert o in s.Values;
      var r :| r in s && s[r] == o;
    }
  }

  lemma LineageRead(c: Canvas, ops: Operations, depends: Depends, w: Workset, s: map<Id, Id>, l: map<Id, Id>, t: Id,
                    u: Id, e: Id)
    requires SuccessorsAre(c, ops, w, s) && LineageIs(ops, depends, s, w, l)
    ensures Succeeds(c, ops, w, t, u) && LeadsTo(ops, depends, w, t, u, e) <==> t in s && s[t] == u && t in l && l[t] == e
  {
    SuccessorsRead(c, ops, w, s, t, u);
    if t in s && s[t] == u {
      assert LineageOf(ops, depends, s, w, t, l[t]);
      LeadsToIff(ops, depends, w, t, u, e);
      LeadsToIff(ops, depends, w, t, u, l[t]);
    }
    hide Succeeds, IsSuccessor;
  }

  lemma LeadsRead(c: Canvas, ops: Operations, depends: Depends, w: Workset, s: map<Id, Id>, l: map<Id, Id>, t: Id, e: Id)
    requires SuccessorsAre(c, ops, w, s) && LineageIs(ops, depends, s, w, l)
    ensures Leads(c, ops, depends, w, t, e) <==> t in l && l[t] == e
  {
    hide SuccessorsAre, LineageOf, Succeeds, LeadsTo;
    forall u ensures Succeeds(c, ops, w, t, u) && LeadsTo(ops, depends, w, t, u, e) <==> t in s && s[t] == u && t in l && l[t] == e {
      LineageRead(c, ops, depends, w, s, l, t, u, e);
    }
    if t in l && l[t] == e {
      assert Succeeds(c, ops, w, t, s[t]);
    }
  }

  lemma HangsRead(c: Canvas, ops: Operations, depends: Depends, w: Workset, s: map<Id, Id>, l: map<Id, Id>, t: Id, o: Id)
    requires SuccessorsAre(c, ops, w, s) && LineageIs(ops, depends, s, w, l) && o in ops && ops[o].AddNodeCandidate?
    ensures t in s ==> s[t] in ops && ops[s[t]].AddNodeCandidate?
    ensures Hangs(c, ops, depends, w, t, o)
            <==> t in s && t in l && ops[o].root == Some(ops[s[t]].local) && o in depends && l[t] in depends[o]
  {
    forall u, e ensures Succeeds(c, ops, w, t, u) && LeadsTo(ops, depends, w, t, u, e) <==> t in s && s[t] == u && t in l && l[t] == e {
      LineageRead(c, ops, depends, w, s, l, t, u, e);
    }
    hide LeadsTo, LineageIs;
    if t in s && t in l {
      SuccessorsRead(c, ops, w, s, t, s[t]);
      assert Succeeds(c, ops, w, t, s[t]) && LeadsTo(ops, depends, w, t, s[t], l[t]);
    }
  }

  lemma CloneRead(c: Canvas, ops: Operations, depends: Depends, w: Workset, s: map<Id, Id>, l: map<Id, Id>, t: Id,
                  n: Id, o: Id)
    requires SuccessorsAre(c, ops, w, s) && LineageIs(ops, depends, s, w, l) && t in w.targets
    ensures Clones(c, ops, depends, w, t, n, o)
            <==> CloneOf(c, ops, depends, s, l, w, o, n) && c.nodes[n].branchRoot == Some(t)
  {
    if o in ops && ops[o].AddNodeCandidate? {
      HangsRead(c, ops, depends, w, s, l, t, o);
      if n in c.nodes && t in s {
        CopiesIff(c, ops, w, n, o, ops[s[t]].local);
      }
    }
    hide Succeeds, LeadsTo, Hangs, Copies, IsClone, Predecessor, SuccessorsAre, LineageIs, ConstraintSemantics;
  }

  lemma OneCloneRead(c: Canvas, ops: Operations, depends: Depends, w: Workset, s: map<Id, Id>, l: map<Id, Id>,
                     k: map<Id, Id>,
                     t: Id, n: Id, o: Id)
    requires MembersFit(c, ops, depends, w, s, l, k) && t in w.targets
    ensures Clones(c, ops, depends, w, t, n, o) <==> AnchoredAt(c, n, t) && n in k && k[n] == o
  {
    CloneRead(c, ops, depends, w, s, l, t, n, o);
    hide SuccessorsAre, LineageIs, Clones, IsClone;
    if CloneOf(c, ops, depends, s, l, w, o, n) {
      assert o in k.Values;
      var m :| m in k && k[m] == o;
      assert CloneOf(c, ops, depends, s, l, w, k[m], m);
    }
    if AnchoredAt(c, n, t) && n in k {
      assert CloneOf(c, ops, depends, s, l, w, k[n], n);
    }
  }

  lemma ServedFrom(c: Canvas, ops: Operations, depends: Depends, w: Workset, t: Id, u: Id, e: Id, k: map<Id, Id>)
    requires t in c.nodes && Leads(c, ops, depends, w, t, e) && forall v :: Succeeds(c, ops, w, t, v) <==> v == u
    requires forall n, o :: Clones(c, ops, depends, w, t, n, o) <==> AnchoredAt(c, n, t) && n in k && k[n] == o
    requires forall n :: AnchoredAt(c, n, t) ==> n in k
    ensures Served(c, ops, depends, w, t)
  {
    hide Succeeds, Leads, Clones, AnchoredAt;
    assert Succeeds(c, ops, w, t, u);
    forall n | AnchoredAt(c, n, t) ensures exists o :: Clones(c, ops, depends, w, t, n, o) {
      assert Clones(c, ops, depends, w, t, n, k[n]);
    }
  }

  lemma TargetServed(c: Canvas, ops: Operations, depends: Depends, w: Workset, s: map<Id, Id>, l: map<Id, Id>,
                     k: map<Id, Id>, t: Id)
    requires MembersFit(c, ops, depends, w, s, l, k) && t in w.targets
    ensures Served(c, ops, depends, w, t)
  {
    hide *;
    TargetsAreNodes(c, ops, depends, w, s, l, k);
    MembersAre(c, ops, depends, w, s, l, k);
    forall u ensures Succeeds(c, ops, w, t, u) <==> u == s[t] {
      SuccessorsRead(c, ops, w, s, t, u);
    }
    LeadsRead(c, ops, depends, w, s, l, t, l[t]);
    forall n, o ensures Clones(c, ops, depends, w, t, n, o) <==> AnchoredAt(c, n, t) && n in k && k[n] == o {
      OneCloneRead(c, ops, depends, w, s, l, k, t, n, o);
    }
    AnchoredAre(c, ops, depends, w, s, l, k, t);
    ServedFrom(c, ops, depends, w, t, s[t], l[t], k);
  }

  lemma MembersAre(c: Canvas, ops: Operations, depends: Depends, w: Workset, s: map<Id, Id>, l: map<Id, Id>, k: map<Id, Id>)
    requires MembersFit(c, ops, depends, w, s, l, k)
    ensures SuccessorsAre(c, ops, w, s) && LineageIs(ops, depends, s, w, l) && ClonesAre(c, ops, depends, s, l, w, k)
  {
    hide SuccessorsAre, LineageIs, ClonesAre;
  }

  lemma TargetsAreNodes(c: Canvas, ops: Operations, depends: Depends, w: Workset, s: map<Id, Id>, l: map<Id, Id>,
                        k: map<Id, Id>)
    requires MembersFit(c, ops, depends, w, s, l, k)
    ensures s.Keys == w.targets && l.Keys == w.targets && w.targets <= c.nodes.Keys
  {
  }

  lemma RootPlaced(c: Canvas, ops: Operations, w: Workset, s: map<Id, Id>, o: Id)
    requires SuccessorsAre(c, ops, w, s) && o in ops && ops[o].AddNodeCandidate?
    ensures Other("regenerates_node_id") !in ops[o].metadata
    ensures if IsRootKind(ops[o].kind) then exists t :: Succeeds(c, ops, w, t, o) else RegeneratedFrom !in ops[o].metadata
  {
    if IsRootKind(ops[o].kind) {
      assert o in s.Values;
      var t :| t in s && s[t] == o;
      SuccessorsRead(c, ops, w, s, t, o);
    }
    hide Succeeds, IsSuccessor;
  }

  lemma ConstraintPlaced(c: Canvas, ops: Operations, depends: Depends, w: Workset, s: map<Id, Id>, l: map<Id, Id>,
                         k: map<Id, Id>, o: Id)
    requires MembersFit(c, ops, depends, w, s, l, k) && o in ops && ops[o].AddNodeCandidate? && ops[o].kind == Constraint
    ensures exists t, n :: t in w.targets && Clones(c, ops, depends, w, t, n, o)
  {
    assert CloneCandidate(ops[o]) && o in k.Values;
    var n :| n in k && k[n] == o;
    assert CloneOf(c, ops, depends, s, l, w, k[n], n);
    var t := c.nodes[n].branchRoot.value;
    OneCloneRead(c, ops, depends, w, s, l, k, t, n, o);
    hide *;
  }

  lemma AdditionPlaced(c: Canvas, ops: Operations, depends: Depends, w: Workset, s: map<Id, Id>, l: map<Id, Id>,
                       k: map<Id, Id>, o: Id)
    requires MembersFit(c, ops, depends, w, s, l, k) && o in ops && ops[o].AddNodeCandidate?
    ensures Placed(c, ops, depends, w, o)
  {
    hide Clones, Succeeds, SuccessorsAre, LineageIs, ClonesAre;
    RootPlaced(c, ops, w, s, o);
    if ops[o].kind == Constraint {
      ConstraintPlaced(c, ops, depends, w, s, l, k, o);
    }
  }

  // ---- and back ----

  ghost function ChosenSuccessors(c: Canvas, ops: Operations, depends: Depends, w: Workset): (s: map<Id, Id>)
    requires Fits(c, ops, depends, w)
    ensures s.Keys == w.targets && forall t :: t in s ==> Succeeds(c, ops, w, t, s[t])
  {
    assert forall t :: t in w.targets ==> Served(c, ops, depends, w, t);
    map t | t in w.targets :: var u :| Succeeds(c, ops, w, t, u); u
  }

  ghost function ChosenEdges(c: Canvas, ops: Operations, depends: Depends, w: Workset): (l: map<Id, Id>)
    requires Fits(c, ops, depends, w)
    ensures l.Keys == w.targets && forall t :: t in l ==> Leads(c, ops, depends, w, t, l[t])
  {
    assert forall t :: t in w.targets ==> Served(c, ops, depends, w, t);
    map t | t in w.targets :: var e :| Leads(c, ops, depends, w, t, e); e
  }

  ghost function ChosenClones(c: Canvas, ops: Operations, depends: Depends, w: Workset): (k: map<Id, Id>)
    requires Fits(c, ops, depends, w)
    ensures k.Keys == AnchoredConstraints(c, w.targets)
    ensures forall n :: n in k ==> Clones(c, ops, depends, w, c.nodes[n].branchRoot.value, n, k[n])
  {
    assert forall n :: n in AnchoredConstraints(c, w.targets) ==>
      Served(c, ops, depends, w, c.nodes[n].branchRoot.value) && AnchoredAt(c, n, c.nodes[n].branchRoot.value);
    map n | n in AnchoredConstraints(c, w.targets) :: var o :| Clones(c, ops, depends, w, c.nodes[n].branchRoot.value, n, o); o
  }

  lemma SuccessorsNamed(c: Canvas, ops: Operations, depends: Depends, w: Workset)
    requires Fits(c, ops, depends, w)
    ensures SuccessorsAre(c, ops, w, ChosenSuccessors(c, ops, depends, w))
  {
    var s := ChosenSuccessors(c, ops, depends, w);
    assert w.targets <= c.nodes.Keys by {
      assert forall t :: t in w.targets ==> Served(c, ops, depends, w, t);
    }
    forall t | t in s ensures s[t] in ops && IsSuccessor(ops[s[t]], t, c.nodes[t].kind, w) {
      SucceedsIff(c, ops, w, t, s[t]);
    }
    forall o | o in ops && ops[o].AddNodeCandidate?
      ensures OBSOLETE !in ops[o].metadata
      ensures if IsRootKind(ops[o].kind) then o in s.Values else Get(ops[o].metadata, RegeneratedFrom).None?
    {
      assert Placed(c, ops, depends, w, o);
      if IsRootKind(ops[o].kind) {
        var t :| Succeeds(c, ops, w, t, o);
        assert Served(c, ops, depends, w, t) && Succeeds(c, ops, w, t, s[t]);
      }
    }
    hide IsSuccessor, Succeeds, Placed, Served;
  }

  lemma LineageNamed(c: Canvas, ops: Operations, depends: Depends, w: Workset)
    requires Fits(c, ops, depends, w)
    ensures LineageIs(ops, depends, ChosenSuccessors(c, ops, depends, w), w, ChosenEdges(c, ops, depends, w))
  {
    var s, l := ChosenSuccessors(c, ops, depends, w), ChosenEdges(c, ops, depends, w);
    forall t | t in l ensures LineageOf(ops, depends, s, w, t, l[t]) {
      assert Served(c, ops, depends, w, t) && Leads(c, ops, depends, w, t, l[t]) && Succeeds(c, ops, w, t, s[t]);
      var u :| Succeeds(c, ops, w, t, u) && LeadsTo(ops, depends, w, t, u, l[t]);
      LeadsToIff(ops, depends, w, t, s[t], l[t]);
    }
    hide LineageOf;
  }

  lemma ClonesNamed(c: Canvas, ops: Operations, depends: Depends, w: Workset)
    requires Fits(c, ops, depends, w)
    ensures ClonesAre(c, ops, depends, ChosenSuccessors(c, ops, depends, w), ChosenEdges(c, ops, depends, w), w,
                      ChosenClones(c, ops, depends, w))
  {
    SuccessorsNamed(c, ops, depends, w);
    LineageNamed(c, ops, depends, w);
    var s, l, k := ChosenSuccessors(c, ops, depends, w), ChosenEdges(c, ops, depends, w), ChosenClones(c, ops, depends, w);
    forall n | n in k ensures CloneOf(c, ops, depends, s, l, w, k[n], n) {
      CloneRead(c, ops, depends, w, s, l, c.nodes[n].branchRoot.value, n, k[n]);
    }
    forall o | o in ops && CloneCandidate(ops[o]) ensures o in k.Values {
      assert Placed(c, ops, depends, w, o);
      var t, n :| t in w.targets && Clones(c, ops, depends, w, t, n, o);
      assert AnchoredAt(c, n, t) && n in k && Served(c, ops, depends, w, t);
      assert Clones(c, ops, depends, w, t, n, k[n]);
    }
    hide CloneOf, SuccessorsAre, LineageIs, Clones, Placed, Served;
  }

  // ---- the contract ----

  lemma HoldsIff(c: Canvas, ops: Operations, w: Workset, declared: Workset)
    ensures Holds(c, ops, w, declared) <==> WorksetHolds(c, ops, w, declared)
  {
    assert forall o :: o in ops ==> (PatchInvariant.AddOnly(ops[o]) <==> ops[o].AddNodeCandidate? || ops[o].AddEdgeCandidate?);
  }

  lemma MembersRead(c: Canvas, ops: Operations, depends: Depends, w: Workset, s: map<Id, Id>, l: map<Id, Id>, k: map<Id,
                    Id>)
    requires MembersFit(c, ops, depends, w, s, l, k)
    ensures Fits(c, ops, depends, w)
  {
    hide MembersFit, Served, Placed;
    forall t | t in w.targets ensures Served(c, ops, depends, w, t) {
      TargetServed(c, ops, depends, w, s, l, k, t);
    }
    forall o | o in ops && ops[o].AddNodeCandidate? ensures Placed(c, ops, depends, w, o) {
      AdditionPlaced(c, ops, depends, w, s, l, k, o);
    }
  }

  /** What a patch must satisfy whatever of it is selected, without naming its members. */
  lemma FitsIff(c: Canvas, ops: Operations, depends: Depends, w: Workset, declared: Workset)
    ensures PatchFits(c, ops, depends, w, declared) <==> Holds(c, ops, w, declared) && Fits(c, ops, depends, w)
  {
    HoldsIff(c, ops, w, declared);
    hide Holds, WorksetHolds, Fits, SuccessorsAre, LineageIs, ClonesAre;
    if PatchFits(c, ops, depends, w, declared) {
      var s, l, k :| MembersFit(c, ops, depends, w, s, l, k);
      MembersRead(c, ops, depends, w, s, l, k);
    }
    if Holds(c, ops, w, declared) && Fits(c, ops, depends, w) {
      SuccessorsNamed(c, ops, depends, w);
      LineageNamed(c, ops, depends, w);
      ClonesNamed(c, ops, depends, w);
      assert MembersFit(c, ops, depends, w, ChosenSuccessors(c, ops, depends, w), ChosenEdges(c, ops, depends, w),
                        ChosenClones(c, ops, depends, w));
    }
  }

  lemma AnchoredAre(c: Canvas, ops: Operations, depends: Depends, w: Workset, s: map<Id, Id>, l: map<Id, Id>, k: map<Id,
                    Id>, t: Id)
    requires MembersFit(c, ops, depends, w, s, l, k)
    ensures forall n :: n in k ==> (AnchoredAt(c, n, t) <==> n in c.nodes && c.nodes[n].branchRoot == Some(t))
    ensures t in w.targets ==> forall n :: AnchoredAt(c, n, t) ==> n in k
  {
    hide SuccessorsAre, LineageIs, CloneOf;
  }

  lemma JoinsFrom(c: Canvas, ops: Operations, depends: Depends, w: Workset, s: map<Id, Id>, l: map<Id, Id>, k: map<Id,
                  Id>, t: Id, o: Id)
    requires t in s && t in l
    requires (Succeeds(c, ops, w, t, o) <==> s[t] == o) && (Leads(c, ops, depends, w, t, o) <==> l[t] == o)
    requires forall n :: Clones(c, ops, depends, w, t, n, o) <==> AnchoredAt(c, n, t) && n in k && k[n] == o
    requires forall n :: n in k ==> (AnchoredAt(c, n, t) <==> n in c.nodes && c.nodes[n].branchRoot == Some(t))
    ensures o in GroupFor(c, s, l, k, t).members <==> Joins(c, ops, depends, w, t, o)
  {
    hide Succeeds, Leads, Clones, AnchoredAt;
  }

  lemma GroupRead(c: Canvas, ops: Operations, depends: Depends, w: Workset, s: map<Id, Id>, l: map<Id, Id>, k: map<Id,
                  Id>, t: Id, o: Id)
    requires MembersFit(c, ops, depends, w, s, l, k) && t in w.targets
    ensures t in s && t in l && (o in GroupFor(c, s, l, k, t).members <==> Joins(c, ops, depends, w, t, o))
  {
    hide *;
    TargetsAreNodes(c, ops, depends, w, s, l, k);
    MembersAre(c, ops, depends, w, s, l, k);
    SuccessorsRead(c, ops, w, s, t, o);
    LeadsRead(c, ops, depends, w, s, l, t, o);
    forall n ensures Clones(c, ops, depends, w, t, n, o) <==> AnchoredAt(c, n, t) && n in k && k[n] == o {
      OneCloneRead(c, ops, depends, w, s, l, k, t, n, o);
    }
    AnchoredAre(c, ops, depends, w, s, l, k, t);
    JoinsFrom(c, ops, depends, w, s, l, k, t, o);
  }

  lemma UndividedIff(c: Canvas, ops: Operations, depends: Depends, w: Workset, selected: set<Id>, s: map<Id, Id>,
                     l: map<Id, Id>, k: map<Id, Id>)
    requires MembersFit(c, ops, depends, w, s, l, k)
    ensures Undivided(c, ops, depends, w, selected)
            <==> forall t :: t in w.targets ==> t in s && t in l && SelectedWhole(GroupFor(c, s, l, k, t), selected)
  {
    hide MembersFit, Joins, GroupFor;
    forall t | t in w.targets
      ensures t in s && t in l
      ensures SelectedWhole(GroupFor(c, s, l, k, t), selected)
              <==> ((forall o :: Joins(c, ops, depends, w, t, o) ==> o in selected)
                    || (forall o :: Joins(c, ops, depends, w, t, o) ==> o !in selected))
    {
      GroupRead(c, ops, depends, w, s, l, k, t, t);
      forall o ensures o in GroupFor(c, s, l, k, t).members <==> Joins(c, ops, depends, w, t, o) {
        GroupRead(c, ops, depends, w, s, l, k, t, o);
      }
    }
    hide SelectedWhole;
  }

  lemma NamedIsMet(c: Canvas, ops: Operations, depends: Depends, w: Workset, declared: Workset, selected: set<Id>,
                   s: map<Id, Id>, l: map<Id, Id>, k: map<Id, Id>)
    requires WorksetHolds(c, ops, w, declared) && MembersFit(c, ops, depends, w, s, l, k)
    requires forall t :: t in w.targets ==> t in s && t in l && SelectedWhole(GroupFor(c, s, l, k, t), selected)
    ensures ContractMet(c, ops, depends, w, declared, selected)
  {
    hide WorksetHolds, SuccessorsAre, LineageIs, ClonesAre, SelectedWhole, GroupFor;
    TargetsAreNodes(c, ops, depends, w, s, l, k);
    assert Decomposes(c, ops, depends, w, selected, s, l, k);
  }

  /** The contract of a patch and a selection of it, without naming its members. */
  lemma ContractIff(c: Canvas, ops: Operations, depends: Depends, w: Workset, declared: Workset, selected: set<Id>)
    ensures ContractMet(c, ops, depends, w, declared, selected)
            <==> Holds(c, ops, w, declared) && Fits(c, ops, depends, w) && Undivided(c, ops, depends, w, selected)
  {
    HoldsIff(c, ops, w, declared);
    FitsIff(c, ops, depends, w, declared);
    hide Holds, WorksetHolds, Fits, SuccessorsAre, LineageIs, ClonesAre, Undivided, GroupFor, SelectedWhole;
    if ContractMet(c, ops, depends, w, declared, selected) {
      var s, l, k :| Decomposes(c, ops, depends, w, selected, s, l, k);
      assert MembersFit(c, ops, depends, w, s, l, k);
      MembersRead(c, ops, depends, w, s, l, k);
      TargetsAreNodes(c, ops, depends, w, s, l, k);
      UndividedIff(c, ops, depends, w, selected, s, l, k);
    }
    if Holds(c, ops, w, declared) && Fits(c, ops, depends, w) && Undivided(c, ops, depends, w, selected) {
      var s, l, k :| MembersFit(c, ops, depends, w, s, l, k);
      UndividedIff(c, ops, depends, w, selected, s, l, k);
      NamedIsMet(c, ops, depends, w, declared, selected, s, l, k);
    }
  }
}

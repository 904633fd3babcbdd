/** Which conflicts other people's work can bring about between the making of a regeneration patch and its review, and
    exactly when a group can be split by them (proofgraph/generation/patch_application.py:419-445, 663-830, 1173-1486). */
module PatchConflicts {
  import opened Reachability
  import opened GraphTypes
  import opened DependencyOrder
  import opened CanvasModel
  import opened CanvasInvariant
  import opened CanvasTeardown
  import opened PatchCandidates
  import opened PatchInvariant
  import opened PatchPasses
  import opened RegenerationContract
  import opened PatchReview
  import opened SourceIngestion

  // ---- what an addition refers to ----

  /** The text names a node of the canvas, not one of the patch. */
  predicate Outside(token: Token, ids: IdMap, n: Id) {
    token !in ids && SpellsId(token) && token.id == n
  }

  predicate MentionedIn(values: seq<Value>, ids: IdMap, n: Id) {
    exists i :: 0 <= i < |values| && values[i].Text? && Outside(values[i].token, ids, n)
  }

  /** The node of the canvas is an end, an anchor or a predecessor of what is added. */
  predicate Mentions(op: Candidate, ids: IdMap, n: Id) {
    match op
    case AddNodeCandidate(_, _, _, _, metadata, root, _) =>
      || (ProvenanceNodes in metadata && metadata[ProvenanceNodes].Items? && MentionedIn(metadata[ProvenanceNodes].items, ids, n))
      || (root.Some? && Outside(root.value, ids, n))
    case AddEdgeCandidate(_, source, target, _, _) => Outside(source, ids, n) || Outside(target, ids, n)
    case _ => false
  }

  ghost predicate MentionsGone(op: Candidate, ids: IdMap, d: Canvas) {
    exists n :: Mentions(op, ids, n) && n !in d.nodes
  }

  /** The identities a patch derives are neither nodes nor edges of the canvas. */
  predicate DerivedUnused(c: Canvas, ids: IdMap) {
    forall t :: t in ids ==> ids[t] !in c.nodes && ids[t] !in c.edges
  }

  predicate SameKinds(c: Canvas, d: Canvas) {
    forall n :: n in c.nodes && n in d.nodes ==> d.nodes[n].kind == c.nodes[n].kind
  }

  predicate LocalKnown(op: Candidate, ids: IdMap) {
    AddOnly(op) ==> op.local in ids
  }

  lemma KnownWhileThere(c: Canvas, d: Canvas, token: Token, ids: IdMap)
    requires KnownNode(c, token, ids) == None
    ensures KnownNode(d, token, ids).Some? <==> exists n :: Outside(token, ids, n) && n !in d.nodes
    ensures forall n :: Outside(token, ids, n) ==> n in c.nodes
  {
    if token !in ids {
      assert Outside(token, ids, token.id);
    }
  }

  lemma {:induction false} AllKnownWhileThere(c: Canvas, d: Canvas, values: seq<Value>, ids: IdMap)
    requires KnownNodes(c, values, ids) == None
    ensures KnownNodes(d, values, ids).Some? <==> exists n :: MentionedIn(values, ids, n) && n !in d.nodes
    ensures forall n :: MentionedIn(values, ids, n) ==> n in c.nodes
    decreases values
  {
    if values != [] {
      var head, tail := values[0].token, values[1..];
      KnownWhileThere(c, d, head, ids);
      AllKnownWhileThere(c, d, tail, ids);
      forall n ensures MentionedIn(values, ids, n) <==> Outside(head, ids, n) || MentionedIn(tail, ids, n) {
        if MentionedIn(tail, ids, n) {
          var i :| 0 <= i < |tail| && tail[i].Text? && Outside(tail[i].token, ids, n);
          assert values[i + 1] == tail[i];
        }
      }
      hide Outside, KnownNode, MentionedIn;
    }
  }

  lemma ProvenanceWhileThere(c: Canvas, d: Canvas, metadata: Metadata, ids: IdMap)
    requires KnownProvenance(c, metadata, ids) == None
    ensures KnownProvenance(d, metadata, ids).Some? <==>
      ProvenanceNodes in metadata && metadata[ProvenanceNodes].Items?
      && exists n :: MentionedIn(metadata[ProvenanceNodes].items, ids, n) && n !in d.nodes
    ensures ProvenanceNodes in metadata && metadata[ProvenanceNodes].Items? ==>
      forall n :: MentionedIn(metadata[ProvenanceNodes].items, ids, n) ==> n in c.nodes
  {
    if ProvenanceNodes in metadata {
      AllKnownWhileThere(c, d, metadata[ProvenanceNodes].items, ids);
    }
    hide KnownNodes, MentionedIn;
  }

  lemma RootWhileThere(c: Canvas, d: Canvas, kind: NodeKind, metadata: Metadata, root: Option<Token>, ids: IdMap,
                       selected: set<Candidate>)
    requires RootVerdict(c, kind, metadata, root, ids, selected) == None && SameKinds(c, d)
    ensures RootVerdict(d, kind, metadata, root, ids, selected).Some? <==>
      root.Some? && exists n :: Outside(root.value, ids, n) && n !in d.nodes
    ensures root.Some? ==> forall n :: Outside(root.value, ids, n) ==> n in c.nodes
  {
    hide CreatesRoot;
    if root.Some? && root.value !in ids {
      assert Outside(root.value, ids, root.value.id);
    }
  }

  /** An addition that fits a canvas fits a later one exactly when the nodes it mentions are still there. */
  lemma RefusedIffGone(c: Canvas, d: Canvas, op: Candidate, ids: IdMap, selected: set<Candidate>)
    requires AddOnly(op) && LocalKnown(op, ids) && Preflight(c, op, ids, selected) == None
    requires SameKinds(c, d) && DerivedUnused(d, ids)
    ensures Preflight(d, op, ids, selected).Some? <==> MentionsGone(op, ids, d)
    ensures forall n :: Mentions(op, ids, n) ==> n in c.nodes
  {
    match op
    case AddNodeCandidate(local, kind, _, _, metadata, root, _) =>
      hide KnownProvenance, RootVerdict, MentionedIn, Outside, CreatesRoot;
      ProvenanceWhileThere(c, d, metadata, ids);
      RootWhileThere(c, d, kind, metadata, root, ids, selected);
      forall n ensures Mentions(op, ids, n) <==>
        (ProvenanceNodes in metadata && metadata[ProvenanceNodes].Items? && MentionedIn(metadata[ProvenanceNodes].items, ids, n))
        || (root.Some? && Outside(root.value, ids, n)) {}
    case AddEdgeCandidate(local, source, target, _, _) =>
      KnownWhileThere(c, d, source, ids);
      KnownWhileThere(c, d, target, ids);
      hide KnownNode, Outside;
  }

  // ---- the conflicts of a later canvas ----

  /** The selected operations that mention the node. */
  function Mentioning(job: Job, selected: set<Id>, n: Id): set<Id> {
    set o | o in selected && o in job.ops && Mentions(job.ops[o], job.ids, n)
  }

  /** An additions-only patch that fits the canvas as it is. */
  ghost predicate FitsNow(c: Canvas, job: Job, selected: set<Id>) {
    && AllAddOnly(job.ops) && DerivedUnused(c, job.ids) && PreflightConflicts(c, job.ops, selected, job.ids) == {}
    && forall o :: o in selected && o in job.ops ==> LocalKnown(job.ops[o], job.ids)
  }

  lemma FitsOne(c: Canvas, job: Job, selected: set<Id>, o: Id)
    requires FitsNow(c, job, selected) && o in selected && o in job.ops
    ensures AddOnly(job.ops[o]) && LocalKnown(job.ops[o], job.ids)
    ensures Preflight(c, job.ops[o], job.ids, SelectedCandidates(job.ops, selected)) == None
  {
    hide Preflight, DerivedUnused, LocalKnown, SelectedCandidates;
    assert o !in PreflightConflicts(c, job.ops, selected, job.ids);
  }

  /** What conflicts there is what mentions a node that has gone. */
  lemma ConflictsAreMentions(c: Canvas, d: Canvas, job: Job, selected: set<Id>)
    requires FitsNow(c, job, selected) && SameKinds(c, d) && DerivedUnused(d, job.ids)
    ensures forall o :: o in PreflightConflicts(d, job.ops, selected, job.ids) <==>
      exists n :: n in c.nodes && n !in d.nodes && o in Mentioning(job, selected, n)
  {
    hide Preflight, FitsNow, SameKinds, DerivedUnused, LocalKnown, SelectedCandidates;
    forall o ensures o in PreflightConflicts(d, job.ops, selected, job.ids) <==>
      exists n :: n in c.nodes && n !in d.nodes && o in Mentioning(job, selected, n)
    {
      if o in selected && o in job.ops {
        FitsOne(c, job, selected, o);
        RefusedIffGone(c, d, job.ops[o], job.ids, SelectedCandidates(job.ops, selected));
        hide Mentions;
        assert forall n :: o in Mentioning(job, selected, n) <==> Mentions(job.ops[o], job.ids, n);
      }
    }
  }

  // ---- where the patch can still be reviewed ----

  /** The nodes that may go without the contract of the patch being broken: no target, no stale member, no constraint
      that has to be cloned, and no source of an ingestion. */
  function Dispensable(c: Canvas, w: Workset): set<Id> {
    c.nodes.Keys - w.targets - w.permitted - AnchoredConstraints(c, w.targets) - c.ingested
  }

  /** The three writers make d of the canvas, and the patch still meets its contract there. */
  ghost predicate StillReviewable(sys: System, d: Canvas, job: Job, w: Workset, declared: Workset, selected: set<Id>) {
    && Later(sys, d) && SameKinds(sys.canvas, d) && DerivedUnused(d, job.ids)
    && ContractMet(d, job.ops, job.depends, w, declared, selected)
  }

  /** A constraint that had to be cloned before still has to be, so it is still there. */
  lemma ClonedIsThere(c: Canvas, d: Canvas, ops: Operations, depends: Depends, w: Workset,
                      before: Workset, after: Workset, selected: set<Id>, n: Id)
    requires ContractMet(c, ops, depends, w, before, selected) && ContractMet(d, ops, depends, w, after, selected)
    requires n in AnchoredConstraints(c, w.targets)
    ensures n in d.nodes
  {
    hide SuccessorsAre, LineageIs, SelectedWhole, IsClone, WorksetHolds, GroupFor;
    var s, l, k :| Decomposes(c, ops, depends, w, selected, s, l, k);
    var x, y, z :| Decomposes(d, ops, depends, w, selected, x, y, z);
    assert CloneOf(c, ops, depends, s, l, w, k[n], n);
    var m :| m in z && z[m] == k[n];
    assert CloneOf(d, ops, depends, x, y, w, z[m], m);
  }

  lemma OnlyDispensableGo(sys: System, d: Canvas, job: Job, w: Workset, declared: Workset, selected: set<Id>, n: Id)
    requires SystemSound(sys) && ContractMet(sys.canvas, job.ops, job.depends, w, declared, selected)
    requires StillReviewable(sys, d, job, w, declared, selected) && n in sys.canvas.nodes && n !in d.nodes
    ensures n in Dispensable(sys.canvas, w)
  {
    hide SystemSound, Later, SameKinds, DerivedUnused, Decomposes, WorksetSound;
    assert w.targets + w.permitted <= d.nodes.Keys;
    if n in sys.canvas.ingested {
      IngestedIsThere(sys, d, n);
    }
    if n in AnchoredConstraints(sys.canvas, w.targets) {
      ClonedIsThere(sys.canvas, d, job.ops, job.depends, w, declared, declared, selected, n);
    }
  }

  // ---- what the contract looks at ----

  /** Targets, stale members and the constraints anchored at targets are the same on both canvases. */
  ghost predicate SameForContract(c: Canvas, d: Canvas, w: Workset) {
    && w.targets <= c.nodes.Keys && w.targets + w.permitted <= d.nodes.Keys
    && (forall t :: t in w.targets ==> d.nodes[t].kind == c.nodes[t].kind)
    && (forall n :: n in w.permitted ==> d.nodes[n].stale && CausesOf(d.causes, n) != [])
    && AnchoredConstraints(d, w.targets) == AnchoredConstraints(c, w.targets)
    && forall n :: n in AnchoredConstraints(c, w.targets) ==> SameContent(c.nodes[n], d.nodes[n])
  }

  lemma SameGroups(c: Canvas, d: Canvas, w: Workset, s: map<Id, Id>, l: map<Id, Id>, k: map<Id, Id>, t: Id)
    requires SameForContract(c, d, w) && k.Keys == AnchoredConstraints(c, w.targets) && t in s && t in l
    ensures GroupFor(d, s, l, k, t) == GroupFor(c, s, l, k, t)
  {
    forall n | n in k ensures n in c.nodes && n in d.nodes && d.nodes[n].branchRoot == c.nodes[n].branchRoot {
      assert n in AnchoredConstraints(c, w.targets) && n in AnchoredConstraints(d, w.targets);
    }
    hide SameForContract, AnchoredConstraints;
  }

  lemma CloneStillIs(c: Canvas, d: Canvas, ops: Operations, depends: Depends, s: map<Id, Id>, l: map<Id, Id>,
                     w: Workset, o: Id, n: Id)
    requires SameForContract(c, d, w) && CloneOf(c, ops, depends, s, l, w, o, n)
    ensures CloneOf(d, ops, depends, s, l, w, o, n)
  {
    assert n in AnchoredConstraints(d, w.targets) && SameContent(c.nodes[n], d.nodes[n]);
    hide Predecessor, ConstraintSemantics, CausesOf;
  }

  lemma ClonesStillAre(c: Canvas, d: Canvas, ops: Operations, depends: Depends,
                       s: map<Id, Id>, l: map<Id, Id>, w: Workset, k: map<Id, Id>)
    requires SameForContract(c, d, w) && ClonesAre(c, ops, depends, s, l, w, k)
    ensures ClonesAre(d, ops, depends, s, l, w, k)
  {
    hide AnchoredConstraints, CloneOf, CausesOf, SameContent, CloneCandidate;
    forall n | n in k ensures CloneOf(d, ops, depends, s, l, w, k[n], n) {
      CloneStillIs(c, d, ops, depends, s, l, w, k[n], n);
    }
  }

  lemma SuccessorsStillAre(c: Canvas, d: Canvas, ops: Operations, w: Workset, s: map<Id, Id>)
    requires SameForContract(c, d, w) && SuccessorsAre(c, ops, w, s)
    ensures SuccessorsAre(d, ops, w, s)
  {
    hide AnchoredConstraints, IsSuccessor;
  }

  lemma WorksetStillHolds(c: Canvas, d: Canvas, ops: Operations, w: Workset, declared: Workset)
    requires SameForContract(c, d, w) && WorksetHolds(c, ops, w, declared)
    ensures WorksetHolds(d, ops, w, declared)
  {
    hide AnchoredConstraints, WorksetSound;
  }

  lemma ContractStillMet(c: Canvas, d: Canvas, ops: Operations, depends: Depends, w: Workset,
                         declared: Workset, selected: set<Id>)
    requires SameForContract(c, d, w) && ContractMet(c, ops, depends, w, declared, selected)
    ensures ContractMet(d, ops, depends, w, declared, selected)
  {
    hide SameForContract, SuccessorsAre, LineageIs, ClonesAre, WorksetHolds, GroupFor, SelectedWhole, AnchoredConstraints;
    var s, l, k :| Decomposes(c, ops, depends, w, selected, s, l, k);
    WorksetStillHolds(c, d, ops, w, declared);
    SuccessorsStillAre(c, d, ops, w, s);
    ClonesStillAre(c, d, ops, depends, s, l, w, k);
    DecomposedKeys(c, ops, depends, w, s, l, k);
    forall t | t in w.targets ensures SelectedWhole(GroupFor(d, s, l, k, t), selected) {
      SameGroups(c, d, w, s, l, k, t);
    }
    assert Decomposes(d, ops, depends, w, selected, s, l, k);
  }

  lemma DecomposedKeys(c: Canvas, ops: Operations, depends: Depends, w: Workset,
                       s: map<Id, Id>, l: map<Id, Id>, k: map<Id, Id>)
    requires SuccessorsAre(c, ops, w, s) && LineageIs(ops, depends, s, w, l) && ClonesAre(c, ops, depends, s, l, w, k)
    ensures s.Keys == w.targets == l.Keys && k.Keys == AnchoredConstraints(c, w.targets)
  {
  }

  // ---- a dispensable node does go ----

  lemma ContractSeesNothing(c: Canvas, d: Canvas, n: Id, ops: Operations, w: Workset, declared: Workset)
    requires WithoutNode(c, d, n) && n in Dispensable(c, w) && WorksetHolds(c, ops, w, declared)
    ensures SameForContract(c, d, w)
  {
    hide EdgesAttached, RootsAnchored, LogGapFree, WorksetSound, AddOnly;
    forall x | x in w.permitted ensures d.nodes[x].stale && CausesOf(d.causes, x) != [] {
      assert StaleMatches(d.nodes[x], CausesOf(d.causes, x));
    }
    forall x ensures x in AnchoredConstraints(d, w.targets) <==> x in AnchoredConstraints(c, w.targets) {}
  }

  lemma ContractHasWorkset(c: Canvas, ops: Operations, depends: Depends, w: Workset, declared: Workset,
                           selected: set<Id>)
    requires ContractMet(c, ops, depends, w, declared, selected)
    ensures WorksetHolds(c, ops, w, declared)
  {
  }

  /** Each dispensable node can go alone, by direct operations, and then the conflicts are what mentions it. */
  lemma OneCanGo(sys: System, job: Job, w: Workset, declared: Workset, selected: set<Id>, n: Id) returns (d: Canvas)
    requires SystemSound(sys) && FitsNow(sys.canvas, job, selected) && ContractMet(sys.canvas, job.ops, job.depends, w, declared, selected)
    requires n in Dispensable(sys.canvas, w)
    ensures StillReviewable(sys, d, job, w, declared, selected)
    ensures PreflightConflicts(d, job.ops, selected, job.ids) == Mentioning(job, selected, n)
  {
    assert n in sys.canvas.nodes && n !in sys.canvas.ingested && DerivedUnused(sys.canvas, job.ids);
    assert Valid(sys.canvas);
    hide *;
    d := AnyNodeCanGo(sys, n);
    DirectIsLater(sys, d);
    OnlyOneGone(sys.canvas, d, n, job.ids);
    ContractHasWorkset(sys.canvas, job.ops, job.depends, w, declared, selected);
    ContractSeesNothing(sys.canvas, d, n, job.ops, w, declared);
    ContractStillMet(sys.canvas, d, job.ops, job.depends, w, declared, selected);
    Reviewable(sys, d, job, w, declared, selected);
    ConflictsAreMentions(sys.canvas, d, job, selected);
    MentioningIsAll(sys.canvas, d, job, selected, n);
  }

  lemma Reviewable(sys: System, d: Canvas, job: Job, w: Workset, declared: Workset, selected: set<Id>)
    requires Later(sys, d) && SameKinds(sys.canvas, d) && DerivedUnused(d, job.ids)
    requires ContractMet(d, job.ops, job.depends, w, declared, selected)
    ensures StillReviewable(sys, d, job, w, declared, selected)
  {
    hide Later, SameKinds, DerivedUnused, ContractMet;
  }

  lemma OnlyOneGone(c: Canvas, d: Canvas, n: Id, ids: IdMap)
    requires WithoutNode(c, d, n) && n in c.nodes && DerivedUnused(c, ids)
    ensures SameKinds(c, d) && DerivedUnused(d, ids) && forall x :: x in c.nodes && x !in d.nodes <==> x == n
  {
    hide Valid;
  }

  lemma MentioningIsAll(c: Canvas, d: Canvas, job: Job, selected: set<Id>, n: Id)
    requires forall x :: x in c.nodes && x !in d.nodes <==> x == n
    requires forall o :: o in PreflightConflicts(d, job.ops, selected, job.ids) <==>
      exists x :: x in c.nodes && x !in d.nodes && o in Mentioning(job, selected, x)
    ensures PreflightConflicts(d, job.ops, selected, job.ids) == Mentioning(job, selected, n)
  {
    hide PreflightConflicts, Mentioning;
  }

  // ---- exactly when others can split a group ----

  ghost predicate StaysAtomic(job: Job, groups: seq<Group>, g: Group, d: Canvas, selected: set<Id>) {
    Atomic(g, WillApply(job, groups, PreflightConflicts(d, job.ops, selected, job.ids)))
  }

  lemma AtomicIffWithstands(c: Canvas, job: Job, w: Workset, groups: seq<Group>, selected: set<Id>, bad: set<Id>, k: nat)
    requires JobSound(job) && (forall o :: o in job.ordered <==> o in selected)
    requires GroupsSound(c, job, w, groups, selected) && k < |groups| && groups[k].members <= selected
    ensures Atomic(groups[k], WillApply(job, groups, bad)) <==> Withstands(job.depends, job.ordered, groups, groups[k], bad)
  {
    var g := groups[k];
    assert g in groups && forall m :: m in g.members ==> m in job.ordered;
    hide Chained, Rooted, WillApply, Atomic, Whole, FinallySkipped, Withstands;
    SoundGroupFacts(c, job, w, groups, selected);
    ChainedIsRooted(job.depends, g);
    WholeIffWithstands(job.depends, job.ordered, groups, bad, k);
    AtomicIffWhole(job, groups, g, bad);
  }

  /** What others delete together splits no group that it does not split when one of the nodes is deleted alone. */
  lemma WithstandsLater(sys: System, d: Canvas, job: Job, w: Workset, declared: Workset, groups: seq<Group>,
                        selected: set<Id>, g: Group)
    requires SystemSound(sys) && FitsNow(sys.canvas, job, selected) && ContractMet(sys.canvas, job.ops, job.depends, w, declared, selected)
    requires StillReviewable(sys, d, job, w, declared, selected)
    requires forall n :: n in Dispensable(sys.canvas, w) ==>
               Withstands(job.depends, job.ordered, groups, g, Mentioning(job, selected, n))
    ensures Withstands(job.depends, job.ordered, groups, g, PreflightConflicts(d, job.ops, selected, job.ids))
  {
    var bad := PreflightConflicts(d, job.ops, selected, job.ids);
    var parts := iset n | n in sys.canvas.nodes && n !in d.nodes :: Mentioning(job, selected, n);
    assert SameKinds(sys.canvas, d) && DerivedUnused(d, job.ids);
    hide *;
    ConflictsAreMentions(sys.canvas, d, job, selected);
    forall part | part in parts ensures part <= bad && Withstands(job.depends, job.ordered, groups, g, part) {
      var n :| n in sys.canvas.nodes && n !in d.nodes && part == Mentioning(job, selected, n);
      OnlyDispensableGo(sys, d, job, w, declared, selected, n);
    }
    forall b | b in bad ensures exists part :: part in parts && b in part {
      var n :| n in sys.canvas.nodes && n !in d.nodes && b in Mentioning(job, selected, n);
      assert Mentioning(job, selected, n) in parts;
    }
    WithstandsInParts(job.depends, job.ordered, groups, g, bad, parts);
  }

  /** A patch that fits the canvas it was made for: whatever the three writers do until it is reviewed, as long as it can
      still be reviewed, a selected group is accepted wholly or not at all - exactly when it withstands what mentions
      any one dispensable node. */
  lemma AtomicOnLaterCanvasesIff(sys: System, job: Job, w: Workset, declared: Workset, groups: seq<Group>, selected: set<Id>,
                                 k: nat)
    requires SystemSound(sys) && FitsNow(sys.canvas, job, selected) && ContractMet(sys.canvas, job.ops, job.depends, w, declared, selected)
    requires JobSound(job) && (forall o :: o in job.ordered <==> o in selected)
    requires GroupsSound(sys.canvas, job, w, groups, selected) && k < |groups| && groups[k].members <= selected
    ensures (forall d :: StillReviewable(sys, d, job, w, declared, selected) ==> StaysAtomic(job, groups, groups[k], d, selected))
            <==> (forall n :: n in Dispensable(sys.canvas, w) ==>
                    Withstands(job.depends, job.ordered, groups, groups[k], Mentioning(job, selected, n)))
  {
    hide SystemSound, FitsNow, ContractMet, JobSound, GroupsSound, StillReviewable, Dispensable, Withstands, Mentioning, Atomic,
         WillApply, PreflightConflicts;
    if forall n :: n in Dispensable(sys.canvas, w) ==>
         Withstands(job.depends, job.ordered, groups, groups[k], Mentioning(job, selected, n)) {
      forall d | StillReviewable(sys, d, job, w, declared, selected) ensures StaysAtomic(job, groups, groups[k], d, selected) {
        WithstandsLater(sys, d, job, w, declared, groups, selected, groups[k]);
        AtomicIffWithstands(sys.canvas, job, w, groups, selected, PreflightConflicts(d, job.ops, selected, job.ids), k);
      }
    }
    if forall d :: StillReviewable(sys, d, job, w, declared, selected) ==> StaysAtomic(job, groups, groups[k], d, selected) {
      forall n | n in Dispensable(sys.canvas, w)
        ensures Withstands(job.depends, job.ordered, groups, groups[k], Mentioning(job, selected, n))
      {
        var d := OneCanGo(sys, job, w, declared, selected, n);
        assert StaysAtomic(job, groups, groups[k], d, selected);
        AtomicIffWithstands(sys.canvas, job, w, groups, selected, PreflightConflicts(d, job.ops, selected, job.ids), k);
      }
    }
  }
}

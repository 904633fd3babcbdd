/** The two passes over a patch and the single group propagation between them: which operations
    end up skipped, and when a regeneration group stays whole. */
module PatchPasses {
  import opened Reachability
  import opened DependencyOrder

  /** A successor, its lineage edge and its cloned constraints; the root is the successor. */
  datatype Group = Group(target: Id, root: Id, members: set<Id>)

  ghost predicate DependsOnSome(depends: Depends, o: Id, bad: set<Id>) {
    exists b :: b in bad && Reaches(Prerequisites(depends), o, b)
  }

  /** Operations that are, or transitively depend on, one of the bad ones. */
  ghost function Downstream(depends: Depends, ordered: seq<Id>, bad: set<Id>): (r: set<Id>)
    ensures forall o :: o in r <==> o in ordered && DependsOnSome(depends, o, bad)
  {
    set o | o in ordered && DependsOnSome(depends, o, bad)
  }

  lemma DependsUnfold(depends: Depends, o: Id, bad: set<Id>)
    requires o in depends
    ensures DependsOnSome(depends, o, bad) <==> o in bad || exists d :: d in depends[o] && DependsOnSome(depends, d, bad)
  {
    var rel := Prerequisites(depends);
    if o in bad {
      ReachesSelf(rel, o);
    }
    if d :| d in depends[o] && DependsOnSome(depends, d, bad) {
      var b :| b in bad && Reaches(rel, d, b);
      ReachesHeadStep(rel, o, d, b);
    }
    if DependsOnSome(depends, o, bad) && o !in bad {
      var b :| b in bad && Reaches(rel, o, b);
      FirstStep(rel, o, b);
      var d :| (o, d) in rel && Reaches(rel, d, b);
      assert DependsOnSome(depends, d, bad);
    }
  }

  lemma FirstStep(rel: Relation, x: Id, y: Id)
    requires Reaches(rel, x, y) && x != y
    ensures exists d :: (x, d) in rel && Reaches(rel, d, y)
  {
    var below := iset u {:trigger ViaChild(rel, x, u)} | u == x || ViaChild(rel, x, u);
    forall u, v | u in below && (u, v) in rel ensures v in below {
      if u == x {
        ReachesSelf(rel, v);
      } else {
        var d :| (x, d) in rel && Reaches(rel, d, u);
        ReachesStep(rel, d, u, v);
      }
      assert ViaChild(rel, x, v);
    }
    ClosedReaches(rel, x, y, below);
  }

  ghost predicate ViaChild(rel: Relation, x: Id, y: Id) {
    exists d :: (x, d) in rel && Reaches(rel, d, y)
  }

  ghost predicate WellOrdered(depends: Depends, ordered: seq<Id>) {
    && NoDuplicates(ordered) && DependenciesFirst(depends, ordered)
    && forall o :: o in ordered ==> o in depends
  }

  /** One pass in dependency order: an operation is skipped when a prerequisite is, or when it is
      bad itself; operations already skipped stay so. */
  method SkipPass(depends: Depends, ordered: seq<Id>, already: set<Id>, bad: set<Id>) returns (skipped: set<Id>)
    requires WellOrdered(depends, ordered) && already <= depends.Keys
    ensures skipped == already + Downstream(depends, ordered, already + bad)
  {
    hide DependsOnSome;
    skipped := already;
    for i := 0 to |ordered|
      invariant forall o :: o in skipped <==> o in already || (o in ordered[..i] && DependsOnSome(depends, o, already + bad))
    {
      assert ordered[..i + 1] == ordered[..i] + [ordered[i]];
      var o := ordered[i];
      DependsUnfold(depends, o, already + bad);
      assert forall d :: d in depends[o] ==> d in ordered[..i];
      AlreadyDepends(depends, already, bad);
      if o in skipped {
        continue;
      }
      if depends[o] * skipped != {} {
        var d :| d in depends[o] && d in skipped;
        assert DependsOnSome(depends, d, already + bad);
        skipped := skipped + {o};
      } else if o in bad {
        skipped := skipped + {o};
      } else {
        assert forall d :: d in depends[o] ==> d !in depends[o] * skipped;
      }
    }
    assert ordered[..|ordered|] == ordered;
  }

  lemma AlreadyDepends(depends: Depends, already: set<Id>, bad: set<Id>)
    requires already <= depends.Keys
    ensures forall d :: d in already ==> DependsOnSome(depends, d, already + bad)
  {
    forall d | d in already ensures DependsOnSome(depends, d, already + bad) {
      DependsUnfold(depends, d, already + bad);
    }
  }

  // ------------------------------------------------------------------ group propagation

  predicate Disjoint(groups: seq<Group>) {
    forall i, j :: 0 <= i < j < |groups| ==> groups[i].members !! groups[j].members
  }

  /** Members of the groups that a skipped operation belongs to. */
  function Touched(groups: seq<Group>, skipped: set<Id>): (r: set<Id>)
    ensures forall m :: m in r <==>
      exists i :: 0 <= i < |groups| && m in groups[i].members && groups[i].members * skipped != {}
  {
    set i, m | 0 <= i < |groups| && m in groups[i].members && groups[i].members * skipped != {} :: m
  }

  /** One sweep over the groups; because groups are disjoint, no second sweep would add anything. */
  method PropagateGroupSkips(groups: seq<Group>, before: set<Id>) returns (skipped: set<Id>)
    requires Disjoint(groups)
    ensures skipped == before + Touched(groups, before)
  {
    skipped := before;
    for k := 0 to |groups|
      invariant forall m :: m in skipped <==> m in before || m in Touched(groups[..k], before)
    {
      forall m ensures m in Touched(groups[..k + 1], before) <==>
        m in Touched(groups[..k], before) || (m in groups[k].members && groups[k].members * before != {})
      {
        TouchedOneMore(groups, k, before, m);
      }
      OnlyOwnTouch(groups, k, before);
      if groups[k].members * skipped == {} {
        assert groups[k].members * before <= groups[k].members * skipped;
        continue;
      }
      var m :| m in groups[k].members * skipped;
      assert m in groups[k].members * before;
      skipped := skipped + groups[k].members;
    }
    assert groups[..|groups|] == groups;
  }

  lemma TouchedOneMore(groups: seq<Group>, k: nat, before: set<Id>, m: Id)
    requires k < |groups|
    ensures m in Touched(groups[..k + 1], before) <==>
      m in Touched(groups[..k], before) || (m in groups[k].members && groups[k].members * before != {})
  {
    var more, less := groups[..k + 1], groups[..k];
    if m in Touched(less, before) {
      var i :| 0 <= i < |less| && m in less[i].members && less[i].members * before != {};
      assert more[i] == less[i];
    }
    if m in groups[k].members && groups[k].members * before != {} {
      assert more[k] == groups[k];
    }
    if m in Touched(more, before) {
      var i :| 0 <= i < |more| && m in more[i].members && more[i].members * before != {};
      if i < k {
        assert less[i] == more[i];
      }
    }
  }

  lemma OnlyOwnTouch(groups: seq<Group>, k: nat, before: set<Id>)
    requires k < |groups| && Disjoint(groups)
    ensures forall m :: m in groups[k].members ==> m !in Touched(groups[..k], before)
  {
  }

  // ------------------------------------------------------------------ atomicity

  /** Everything skipped in the end: preflight conflicts, their dependents, the groups they touch,
      and the dependents of those. */
  ghost function Blocked(depends: Depends, ordered: seq<Id>, groups: seq<Group>, bad: set<Id>): set<Id> {
    var first := Downstream(depends, ordered, bad);
    first + Touched(groups, first)
  }

  ghost function FinallySkipped(depends: Depends, ordered: seq<Id>, groups: seq<Group>, bad: set<Id>): set<Id> {
    var blocked := Blocked(depends, ordered, groups, bad);
    blocked + Downstream(depends, ordered, blocked)
  }

  ghost predicate Whole(g: Group, skipped: set<Id>) {
    g.members <= skipped || g.members !! skipped
  }

  /** Every member depends, directly or not, on the root. */
  ghost predicate Rooted(depends: Depends, g: Group) {
    && g.root in g.members
    && forall m {:trigger Reaches(Prerequisites(depends), m, g.root)} ::
         m in g.members ==> Reaches(Prerequisites(depends), m, g.root)
  }

  /** Whatever a non-root member needs from outside the group, the root needs as well. */
  ghost predicate NeedsThroughRoot(depends: Depends, g: Group) {
    forall m, d :: m in g.members && m != g.root && m in depends && d in depends[m] && d !in g.members ==>
      Reaches(Prerequisites(depends), g.root, d)
  }

  ghost predicate DependsOnlyInside(depends: Depends, g: Group) {
    forall m :: m in g.members && m != g.root && m in depends ==> depends[m] <= g.members
  }

  lemma GroupBlockedOrUntouched(depends: Depends, ordered: seq<Id>, groups: seq<Group>, bad: set<Id>, k: nat)
    requires k < |groups| && Disjoint(groups)
    ensures Whole(groups[k], Blocked(depends, ordered, groups, bad))
  {
    var first, g := Downstream(depends, ordered, bad), groups[k];
    if g.members * first != {} {
      assert g.members <= Touched(groups, first);
    } else {
      forall m | m in g.members ensures m !in Blocked(depends, ordered, groups, bad) {
        assert m !in g.members * first;
      }
    }
  }

  /** For the conflicts of one run: after the sweep only the root can keep a group together. */
  lemma WholeIffRootBlockedToo(depends: Depends, ordered: seq<Id>, groups: seq<Group>, bad: set<Id>, k: nat)
    requires k < |groups| && Disjoint(groups) && WellOrdered(depends, ordered)
    requires Rooted(depends, groups[k]) && forall m :: m in groups[k].members ==> m in ordered
    ensures Whole(groups[k], FinallySkipped(depends, ordered, groups, bad)) <==>
      ((exists m :: m in groups[k].members && DependsOnSome(depends, m, Blocked(depends, ordered, groups, bad)))
       ==> DependsOnSome(depends, groups[k].root, Blocked(depends, ordered, groups, bad)))
  {
    hide Blocked;
    var blocked, g := Blocked(depends, ordered, groups, bad), groups[k];
    var skipped := FinallySkipped(depends, ordered, groups, bad);
    BlockedAreSkipped(depends, ordered, blocked, g.members);
    assert forall m :: m in g.members ==> (m in skipped <==> DependsOnSome(depends, m, blocked));
    if DependsOnSome(depends, g.root, blocked) {
      RootDragsMembers(depends, g, blocked);
    }
  }

  lemma BlockedAreSkipped(depends: Depends, ordered: seq<Id>, blocked: set<Id>, members: set<Id>)
    requires forall m :: m in members ==> m in ordered && m in depends
    ensures forall m :: m in members ==>
      (m in blocked + Downstream(depends, ordered, blocked) <==> DependsOnSome(depends, m, blocked))
  {
    forall m | m in members && m in blocked ensures DependsOnSome(depends, m, blocked) {
      ReachesSelf(Prerequisites(depends), m);
    }
  }

  lemma RootDragsMembers(depends: Depends, g: Group, blocked: set<Id>)
    requires Rooted(depends, g) && DependsOnSome(depends, g.root, blocked)
    ensures forall m :: m in g.members ==> DependsOnSome(depends, m, blocked)
  {
    var b :| b in blocked && Reaches(Prerequisites(depends), g.root, b);
    forall m | m in g.members ensures DependsOnSome(depends, m, blocked) {
      assert Reaches(Prerequisites(depends), m, g.root);
      ReachesTransitive(Prerequisites(depends), m, g.root, b);
    }
  }

  /** A walk from a member either stays in the group or leaves it where the root could. */
  lemma ReachedThroughRoot(depends: Depends, g: Group, m: Id, b: Id)
    requires m in g.members && g.root in g.members && NeedsThroughRoot(depends, g)
    requires Reaches(Prerequisites(depends), m, b)
    ensures b in g.members || Reaches(Prerequisites(depends), g.root, b)
  {
    var rel := Prerequisites(depends);
    var closed := iset u | u in g.members || Reaches(rel, g.root, u);
    forall u, v | u in closed && (u, v) in rel ensures v in closed {
      if Reaches(rel, g.root, u) {
        ReachesStep(rel, g.root, u, v);
      } else if u == g.root {
        ReachesSelf(rel, g.root);
        ReachesStep(rel, g.root, g.root, v);
      }
    }
    ClosedReaches(rel, m, b, closed);
  }

  // ---- the exact condition ----

  /** What the sweep adds for these conflicts: the groups they reach through the dependencies. */
  ghost function Swept(depends: Depends, ordered: seq<Id>, groups: seq<Group>, bad: set<Id>): set<Id> {
    Touched(groups, Downstream(depends, ordered, bad))
  }

  /** No member is, or depends on, one of them. */
  ghost predicate Spares(depends: Depends, g: Group, bad: set<Id>) {
    forall w :: w in g.members ==> !DependsOnSome(depends, w, bad)
  }

  ghost predicate SomeDepends(depends: Depends, g: Group, bad: set<Id>) {
    exists m :: m in g.members && DependsOnSome(depends, m, bad)
  }

  /** Read off the dependencies and the groups alone: when no member depends on these operations, but one depends on a
      group that the sweep would take because of them, then so does the root. */
  ghost predicate Withstands(depends: Depends, ordered: seq<Id>, groups: seq<Group>, g: Group, bad: set<Id>) {
    Spares(depends, g, bad) && SomeDepends(depends, g, Swept(depends, ordered, groups, bad)) ==>
      DependsOnSome(depends, g.root, Swept(depends, ordered, groups, bad))
  }

  ghost predicate KeepsTogether(depends: Depends, ordered: seq<Id>, groups: seq<Group>, g: Group) {
    forall b :: Withstands(depends, ordered, groups, g, {b})
  }

  lemma DependsOnLarger(depends: Depends, o: Id, small: set<Id>, large: set<Id>)
    requires small <= large && DependsOnSome(depends, o, small)
    ensures DependsOnSome(depends, o, large)
  {
    var b :| b in small && Reaches(Prerequisites(depends), o, b);
  }

  lemma DependsThrough(depends: Depends, m: Id, x: Id, bad: set<Id>)
    requires Reaches(Prerequisites(depends), m, x) && DependsOnSome(depends, x, bad)
    ensures DependsOnSome(depends, m, bad)
  {
    var b :| b in bad && Reaches(Prerequisites(depends), x, b);
    ReachesTransitive(Prerequisites(depends), m, x, b);
  }

  lemma SweptGrows(depends: Depends, ordered: seq<Id>, groups: seq<Group>, small: set<Id>, large: set<Id>)
    requires small <= large
    ensures Swept(depends, ordered, groups, small) <= Swept(depends, ordered, groups, large)
    ensures Swept(depends, ordered, groups, large) <= Blocked(depends, ordered, groups, large)
  {
    var one, first := Downstream(depends, ordered, small), Downstream(depends, ordered, large);
    forall o | o in one ensures o in first {
      DependsOnLarger(depends, o, small, large);
    }
    forall m | m in Touched(groups, one) ensures m in Touched(groups, first) {
      var i :| 0 <= i < |groups| && m in groups[i].members && groups[i].members * one != {};
      assert groups[i].members * one <= groups[i].members * first;
    }
  }

  /** Outside the first pass, whatever blocks a member was taken by the sweep because of one conflict. */
  lemma BlockedBySweep(depends: Depends, ordered: seq<Id>, groups: seq<Group>, bad: set<Id>, m: Id) returns (b: Id)
    requires !DependsOnSome(depends, m, bad) && DependsOnSome(depends, m, Blocked(depends, ordered, groups, bad))
    ensures b in bad && DependsOnSome(depends, m, Swept(depends, ordered, groups, {b}))
  {
    var first := Downstream(depends, ordered, bad);
    var x :| x in Blocked(depends, ordered, groups, bad) && Reaches(Prerequisites(depends), m, x);
    assert x !in first by {
      if x in first {
        DependsThrough(depends, m, x, bad);
      }
    }
    var i :| 0 <= i < |groups| && x in groups[i].members && groups[i].members * first != {};
    var y :| y in groups[i].members * first;
    b :| b in bad && Reaches(Prerequisites(depends), y, b);
    assert DependsOnSome(depends, y, {b});
    assert y in groups[i].members * Downstream(depends, ordered, {b});
    assert x in Swept(depends, ordered, groups, {b});
  }

  lemma SparedOrBlocked(depends: Depends, ordered: seq<Id>, groups: seq<Group>, bad: set<Id>, m: Id)
    requires !DependsOnSome(depends, m, bad)
    ensures DependsOnSome(depends, m, Blocked(depends, ordered, groups, bad))
            <==> DependsOnSome(depends, m, Swept(depends, ordered, groups, bad))
  {
    SweptGrows(depends, ordered, groups, bad, bad);
    hide Blocked, Swept, DependsOnSome;
    if DependsOnSome(depends, m, Blocked(depends, ordered, groups, bad)) {
      var b := BlockedBySweep(depends, ordered, groups, bad, m);
      SweptGrows(depends, ordered, groups, {b}, bad);
      DependsOnLarger(depends, m, Swept(depends, ordered, groups, {b}), Swept(depends, ordered, groups, bad));
    } else if DependsOnSome(depends, m, Swept(depends, ordered, groups, bad)) {
      DependsOnLarger(depends, m, Swept(depends, ordered, groups, bad), Blocked(depends, ordered, groups, bad));
    }
  }

  /** For the conflicts of one run: the group stays whole exactly when it withstands them. */
  lemma WholeIffWithstands(depends: Depends, ordered: seq<Id>, groups: seq<Group>, bad: set<Id>, k: nat)
    requires k < |groups| && Disjoint(groups) && WellOrdered(depends, ordered)
    requires Rooted(depends, groups[k]) && forall m :: m in groups[k].members ==> m in ordered
    ensures Whole(groups[k], FinallySkipped(depends, ordered, groups, bad))
            <==> Withstands(depends, ordered, groups, groups[k], bad)
  {
    var g := groups[k];
    if w :| w in g.members && DependsOnSome(depends, w, bad) {
      assert w in Downstream(depends, ordered, bad);
      GroupBlockedOrUntouched(depends, ordered, groups, bad, k);
    } else {
      assert g.root in g.members;
      hide Blocked, Whole, FinallySkipped, Swept, DependsOnSome, WellOrdered, Rooted, Disjoint;
      WholeIffRootBlockedToo(depends, ordered, groups, bad, k);
      forall m | m in g.members
        ensures DependsOnSome(depends, m, Blocked(depends, ordered, groups, bad))
                <==> DependsOnSome(depends, m, Swept(depends, ordered, groups, bad))
      {
        SparedOrBlocked(depends, ordered, groups, bad, m);
      }
    }
  }

  /** Conflicts that come in parts are withstood together when each part is withstood alone: the sweep takes no group
      that it would not take for one part. */
  lemma WithstandsInParts(depends: Depends, ordered: seq<Id>, groups: seq<Group>, g: Group, bad: set<Id>, parts: iset<set<Id>>)
    requires forall part :: part in parts ==> part <= bad && Withstands(depends, ordered, groups, g, part)
    requires forall b :: b in bad ==> exists part :: part in parts && b in part
    ensures Withstands(depends, ordered, groups, g, bad)
  {
    hide Swept, DependsOnSome;
    if Spares(depends, g, bad) && SomeDepends(depends, g, Swept(depends, ordered, groups, bad)) {
      var m :| m in g.members && DependsOnSome(depends, m, Swept(depends, ordered, groups, bad));
      SparedOrBlocked(depends, ordered, groups, bad, m);
      var b := BlockedBySweep(depends, ordered, groups, bad, m);
      var part :| part in parts && b in part;
      SweptGrows(depends, ordered, groups, {b}, part);
      DependsOnLarger(depends, m, Swept(depends, ordered, groups, {b}), Swept(depends, ordered, groups, part));
      SparesFewer(depends, g, part, bad);
      SweptGrows(depends, ordered, groups, part, bad);
      DependsOnLarger(depends, g.root, Swept(depends, ordered, groups, part), Swept(depends, ordered, groups, bad));
    }
  }

  lemma SparesFewer(depends: Depends, g: Group, small: set<Id>, large: set<Id>)
    requires small <= large && Spares(depends, g, large)
    ensures Spares(depends, g, small)
  {
    forall w | w in g.members ensures !DependsOnSome(depends, w, small) {
      if DependsOnSome(depends, w, small) {
        DependsOnLarger(depends, w, small, large);
      }
    }
  }

  /** Each regeneration group is wholly kept or wholly skipped, for every set of conflicts. */
  lemma GroupsStayWhole(depends: Depends, ordered: seq<Id>, groups: seq<Group>, bad: set<Id>, k: nat)
    requires k < |groups| && Disjoint(groups) && WellOrdered(depends, ordered)
    requires Rooted(depends, groups[k]) && forall m :: m in groups[k].members ==> m in ordered
    requires KeepsTogether(depends, ordered, groups, groups[k])
    ensures Whole(groups[k], FinallySkipped(depends, ordered, groups, bad))
  {
    hide Whole, FinallySkipped, Withstands, Rooted, WellOrdered, Disjoint;
    var parts := iset b | b in bad :: {b};
    assert forall b :: b in bad ==> {b} in parts && b in {b};
    WithstandsInParts(depends, ordered, groups, groups[k], bad, parts);
    WholeIffWithstands(depends, ordered, groups, bad, k);
  }

  /** Exactly when a group is kept or skipped as one whatever conflicts arise. */
  lemma WholeForAllConflictsIff(depends: Depends, ordered: seq<Id>, groups: seq<Group>, k: nat)
    requires k < |groups| && Disjoint(groups) && WellOrdered(depends, ordered)
    requires Rooted(depends, groups[k]) && forall m :: m in groups[k].members ==> m in ordered
    ensures (forall bad :: Whole(groups[k], FinallySkipped(depends, ordered, groups, bad)))
            <==> KeepsTogether(depends, ordered, groups, groups[k])
  {
    hide Whole, FinallySkipped, Withstands, Rooted, WellOrdered, Disjoint;
    if KeepsTogether(depends, ordered, groups, groups[k]) {
      forall bad ensures Whole(groups[k], FinallySkipped(depends, ordered, groups, bad)) {
        GroupsStayWhole(depends, ordered, groups, bad, k);
      }
    }
    if forall bad :: Whole(groups[k], FinallySkipped(depends, ordered, groups, bad)) {
      forall b ensures Withstands(depends, ordered, groups, groups[k], {b}) {
        WholeIffWithstands(depends, ordered, groups, {b}, k);
      }
    }
  }

  /** In particular when whatever a non-root member needs from outside, the root needs as well. */
  lemma ThroughRootKeepsTogether(depends: Depends, ordered: seq<Id>, groups: seq<Group>, k: nat)
    requires k < |groups| && Disjoint(groups) && NeedsThroughRoot(depends, groups[k]) && Rooted(depends, groups[k])
    ensures KeepsTogether(depends, ordered, groups, groups[k])
  {
    var g := groups[k];
    forall b ensures Withstands(depends, ordered, groups, g, {b}) {
      if Spares(depends, g, {b}) && SomeDepends(depends, g, Swept(depends, ordered, groups, {b})) {
        var m :| m in g.members && DependsOnSome(depends, m, Swept(depends, ordered, groups, {b}));
        var x :| x in Swept(depends, ordered, groups, {b}) && Reaches(Prerequisites(depends), m, x);
        ReachedThroughRoot(depends, g, m, x);
        SweepTakesOthers(depends, ordered, groups, k, {b});
      }
    }
  }

  lemma SweepTakesOthers(depends: Depends, ordered: seq<Id>, groups: seq<Group>, k: nat, bad: set<Id>)
    requires k < |groups| && Disjoint(groups) && Spares(depends, groups[k], bad)
    ensures Swept(depends, ordered, groups, bad) !! groups[k].members
  {
    var first := Downstream(depends, ordered, bad);
    forall x | x in Swept(depends, ordered, groups, bad) ensures x !in groups[k].members {
      var i :| 0 <= i < |groups| && x in groups[i].members && groups[i].members * first != {};
      var y :| y in groups[i].members * first;
      assert i != k;
    }
  }

  /** Members that depend only on their own group keep together. */
  lemma InsideKeepsTogether(depends: Depends, ordered: seq<Id>, groups: seq<Group>, k: nat)
    requires k < |groups| && Disjoint(groups) && DependsOnlyInside(depends, groups[k]) && Rooted(depends, groups[k])
    ensures KeepsTogether(depends, ordered, groups, groups[k])
  {
    InsideNeedsThroughRoot(depends, groups[k]);
    ThroughRootKeepsTogether(depends, ordered, groups, k);
  }

  lemma InsideNeedsThroughRoot(depends: Depends, g: Group)
    requires DependsOnlyInside(depends, g)
    ensures NeedsThroughRoot(depends, g)
  {
  }

  /** Successor 1 with lineage edge 2 and clone 3, successor 4 with lineage edge 5, and an unrelated operation 6. */
  function SplitDepends(): Depends {
    map[Uuid(1) := {}, Uuid(2) := {Uuid(1)}, Uuid(3) := {Uuid(2), Uuid(4)}, Uuid(4) := {}, Uuid(5) := {Uuid(4), Uuid(6)},
        Uuid(6) := {}]
  }

  function SplitOrder(): seq<Id> {
    [Uuid(1), Uuid(4), Uuid(6), Uuid(2), Uuid(5), Uuid(3)]
  }

  function SplitGroup(): Group {
    Group(Uuid(21), Uuid(1), {Uuid(1), Uuid(2), Uuid(3)})
  }

  function OtherGroup(): Group {
    Group(Uuid(22), Uuid(4), {Uuid(4), Uuid(5)})
  }

  /** Without the hypothesis a group can split: clone 3 of successor 1 also depends on successor 4, whose
      lineage edge 5 depends on the conflicting operation 6. The sweep skips 4 only after the first pass is
      over; the second pass then skips 3 alone, and 1 and 2 are applied without it. */
  lemma GroupsCanSplit()
    ensures var skipped := FinallySkipped(SplitDepends(), SplitOrder(), [SplitGroup(), OtherGroup()], {Uuid(6)});
            Uuid(1) !in skipped && Uuid(2) !in skipped && Uuid(3) in skipped && !Whole(SplitGroup(), skipped)
    ensures !KeepsTogether(SplitDepends(), SplitOrder(), [SplitGroup(), OtherGroup()], SplitGroup())
  {
    hide *;
    SplitSkipped();
    SplitRooted();
    SplitOrdered();
    SplitMembers();
    SplitGroupsApart(SplitDepends(), SplitOrder(), [SplitGroup(), OtherGroup()], {Uuid(6)}, 0);
  }

  lemma SplitMembers()
    ensures SplitGroup().members == {Uuid(1), Uuid(2), Uuid(3)} && SplitGroup().root == Uuid(1)
    ensures forall m :: m in SplitGroup().members ==> m in SplitOrder()
    ensures Disjoint([SplitGroup(), OtherGroup()])
    ensures !Whole(SplitGroup(), {Uuid(3), Uuid(4), Uuid(5), Uuid(6)})
  {
    assert SplitOrder()[0] == Uuid(1) && SplitOrder()[3] == Uuid(2) && SplitOrder()[5] == Uuid(3);
    assert Uuid(1) in SplitGroup().members && Uuid(3) in SplitGroup().members;
  }

  /** One set of conflicts that splits a group shows that it does not keep together. */
  lemma SplitGroupsApart(depends: Depends, ordered: seq<Id>, groups: seq<Group>, bad: set<Id>, k: nat)
    requires k < |groups| && Disjoint(groups) && WellOrdered(depends, ordered)
    requires Rooted(depends, groups[k]) && forall m :: m in groups[k].members ==> m in ordered
    requires !Whole(groups[k], FinallySkipped(depends, ordered, groups, bad))
    ensures !KeepsTogether(depends, ordered, groups, groups[k])
  {
    hide *;
    if KeepsTogether(depends, ordered, groups, groups[k]) {
      GroupsStayWhole(depends, ordered, groups, bad, k);
    }
  }

  lemma SplitSkipped()
    ensures FinallySkipped(SplitDepends(), SplitOrder(), [SplitGroup(), OtherGroup()], {Uuid(6)})
            == {Uuid(3), Uuid(4), Uuid(5), Uuid(6)}
  {
    SplitBlocked();
    SplitUnfold({Uuid(4), Uuid(5), Uuid(6)});
    hide Blocked, DependsOnSome;
    assert SplitOrder()[5] == Uuid(3);
  }

  lemma SplitOrdered()
    ensures WellOrdered(SplitDepends(), SplitOrder())
  {
    assert SplitOrder()[..3] == [Uuid(1), Uuid(4), Uuid(6)] && SplitOrder()[..4] == [Uuid(1), Uuid(4), Uuid(6), Uuid(2)];
    assert SplitOrder()[..5] == [Uuid(1), Uuid(4), Uuid(6), Uuid(2), Uuid(5)];
  }

  lemma SplitBlocked()
    ensures Blocked(SplitDepends(), SplitOrder(), [SplitGroup(), OtherGroup()], {Uuid(6)}) == {Uuid(4), Uuid(5), Uuid(6)}
  {
    hide DependsOnSome;
    var groups, first := [SplitGroup(), OtherGroup()], Downstream(SplitDepends(), SplitOrder(), {Uuid(6)});
    SplitUnfold({Uuid(6)});
    assert SplitOrder()[2] == Uuid(6) && SplitOrder()[4] == Uuid(5);
    assert first == {Uuid(5), Uuid(6)};
    assert groups[0].members * first == {} && Uuid(5) in groups[1].members * first;
    hide Downstream;
  }

  lemma SplitUnfold(bad: set<Id>)
    ensures DependsOnSome(SplitDepends(), Uuid(1), bad) <==> Uuid(1) in bad
    ensures DependsOnSome(SplitDepends(), Uuid(2), bad) <==> Uuid(2) in bad || Uuid(1) in bad
    ensures DependsOnSome(SplitDepends(), Uuid(4), bad) <==> Uuid(4) in bad
    ensures DependsOnSome(SplitDepends(), Uuid(6), bad) <==> Uuid(6) in bad
    ensures DependsOnSome(SplitDepends(), Uuid(5), bad) <==> Uuid(5) in bad || Uuid(4) in bad || Uuid(6) in bad
    ensures DependsOnSome(SplitDepends(), Uuid(3), bad) <==>
      Uuid(3) in bad || DependsOnSome(SplitDepends(), Uuid(2), bad) || DependsOnSome(SplitDepends(), Uuid(4), bad)
  {
    hide DependsOnSome;
    DependsUnfold(SplitDepends(), Uuid(1), bad);
    DependsUnfold(SplitDepends(), Uuid(2), bad);
    DependsUnfold(SplitDepends(), Uuid(3), bad);
    DependsUnfold(SplitDepends(), Uuid(4), bad);
    DependsUnfold(SplitDepends(), Uuid(5), bad);
    DependsUnfold(SplitDepends(), Uuid(6), bad);
  }

  lemma SplitRooted()
    ensures Rooted(SplitDepends(), SplitGroup()) && Rooted(SplitDepends(), OtherGroup())
  {
    var rel := Prerequisites(SplitDepends());
    ReachesSelf(rel, Uuid(1));
    ReachesSelf(rel, Uuid(4));
    ReachesHeadStep(rel, Uuid(2), Uuid(1), Uuid(1));
    ReachesHeadStep(rel, Uuid(3), Uuid(2), Uuid(1));
    ReachesHeadStep(rel, Uuid(5), Uuid(4), Uuid(4));
  }
}

/** What goes into a run's context before packing: the regeneration units, the branch constraints that hold for
    all of them, and the candidate tiers (proofgraph/generation/context.py:28-69, 220-260, 440-624). */
module ContextSelection {
  import opened Reachability
  import opened GraphTypes
  import opened DependencyOrder
  import opened CanvasModel
  import opened Traversal
  import SearchAgreement
  import ContextPacking

  // ------------------------------------------------------------------ eligibility

  /** Python truth of a metadata value. */
  predicate Truthy(value: Option<Value>) {
    match value
    case None => false
    case Some(Text(token)) => token != Word("")
    case Some(Flag(b)) => b
    case Some(Number(n)) => n != 0
    case Some(Items(items)) => items != []
    case Some(IdSet(ids)) => ids != {}
    case Some(TokenSet(tokens)) => tokens != {}
  }

  predicate IsGenerated(metadata: Metadata) {
    || Truthy(Get(metadata, Other("generated"))) || Truthy(Get(metadata, GeneratedByRun))
    || Truthy(Get(metadata, Other("generation_run_id"))) || Truthy(Get(metadata, SourcePatch))
  }

  predicate IsApplied(node: Node) {
    if Get(node.metadata, Other("provisional")) == Some(Flag(true)) || HasReview(node.metadata, Provisional)
       || HasReview(node.metadata, Rejected) then false
    else !IsGenerated(node.metadata) || HasReview(node.metadata, Accepted)
  }

  predicate EligibleContext(node: Node) {
    IsApplied(node) && !node.stale
  }

  // ------------------------------------------------------------------ opportunity families

  predicate FamilyKind(kind: NodeKind) {
    kind in {Opportunity, Assumption, Risk, ValidationExperiment}
  }

  /** The edge ties the node to an opportunity it belongs to. */
  predicate Owns(nodes: map<Id, Node>, edge: Edge, n: Id)
    requires n in nodes
  {
    && edge.target == n && edge.source in nodes && nodes[edge.source].kind == Opportunity
    && ((nodes[n].kind in {Assumption, Risk} && edge.kind == DerivedFrom)
        || (nodes[n].kind == ValidationExperiment && edge.kind == RequiresValidation))
  }

  /** An opportunity owns itself; a member is owned by the source of its first owning edge. */
  function FamilyOwner(nodes: map<Id, Node>, edges: map<Id, Edge>, order: seq<Id>, n: Id): (r: Option<Id>)
    requires n in nodes
    ensures r.Some? ==> r.value in nodes && nodes[r.value].kind == Opportunity && FamilyKind(nodes[n].kind)
    ensures nodes[n].kind == Opportunity ==> r == Some(n)
  {
    if nodes[n].kind == Opportunity then Some(n)
    else if order == [] then None
    else if order[0] in edges && Owns(nodes, edges[order[0]], n) then Some(edges[order[0]].source)
    else FamilyOwner(nodes, edges, order[1..], n)
  }

  /** order[i] is an owning edge of n. */
  predicate OwningAt(nodes: map<Id, Node>, edges: map<Id, Edge>, order: seq<Id>, n: Id, i: nat)
    requires n in nodes && i < |order|
  {
    order[i] in edges && Owns(nodes, edges[order[i]], n)
  }

  /** The owner stands at the first position that holds an owning edge. */
  ghost predicate OwnedByFirst(nodes: map<Id, Node>, edges: map<Id, Edge>, order: seq<Id>, n: Id, owner: Id)
    requires n in nodes
  {
    exists i: nat :: i < |order| && OwningAt(nodes, edges, order, n, i) && edges[order[i]].source == owner
      && forall j: nat :: j < i ==> !OwningAt(nodes, edges, order, n, j)
  }

  /** Any other node than an opportunity has the source of its first owning edge as its owner, and none exactly
      when no edge owns it. */
  lemma {:induction false} OwnerIsFirst(nodes: map<Id, Node>, edges: map<Id, Edge>, order: seq<Id>, n: Id)
    requires n in nodes && nodes[n].kind != Opportunity
    ensures var r := FamilyOwner(nodes, edges, order, n);
            && (r.Some? ==> OwnedByFirst(nodes, edges, order, n, r.value))
            && (r.None? <==> forall i: nat :: i < |order| ==> !OwningAt(nodes, edges, order, n, i))
    decreases |order|
  {
    if order != [] {
      var rest := order[1..];
      assert forall i: nat :: i < |rest| ==>
        (OwningAt(nodes, edges, rest, n, i) <==> OwningAt(nodes, edges, order, n, i + 1));
      if OwningAt(nodes, edges, order, n, 0) {
        assert FamilyOwner(nodes, edges, order, n) == Some(edges[order[0]].source);
      } else {
        OwnerIsFirst(nodes, edges, rest, n);
        var r := FamilyOwner(nodes, edges, rest, n);
        if r.Some? {
          var i: nat :| i < |rest| && OwningAt(nodes, edges, rest, n, i) && edges[rest[i]].source == r.value
            && forall j: nat :: j < i ==> !OwningAt(nodes, edges, rest, n, j);
          LaterPosition(nodes, edges, order, n, i);
        } else {
          forall i: nat | i < |order| ensures !OwningAt(nodes, edges, order, n, i) {
            if i > 0 { assert !OwningAt(nodes, edges, rest, n, i - 1); }
          }
        }
      }
    }
  }

  lemma LaterPosition(nodes: map<Id, Node>, edges: map<Id, Edge>, order: seq<Id>, n: Id, i: nat)
    requires n in nodes && i < |order| - 1 && !OwningAt(nodes, edges, order, n, 0)
    requires OwningAt(nodes, edges, order[1..], n, i) && forall j: nat :: j < i ==> !OwningAt(nodes, edges, order[1..], n, j)
    ensures OwnedByFirst(nodes, edges, order, n, edges[order[1..][i]].source)
  {
    assert OwningAt(nodes, edges, order, n, i + 1);
    forall j: nat | j < i + 1 ensures !OwningAt(nodes, edges, order, n, j) {
      if j > 0 { assert !OwningAt(nodes, edges, order[1..], n, j - 1); }
    }
  }

  method OpportunityFamilyOwner(nodes: map<Id, Node>, edges: map<Id, Edge>, order: seq<Id>, n: Id) returns (r: Option<Id>)
    requires n in nodes && forall e :: e in order ==> e in edges
    ensures r == FamilyOwner(nodes, edges, order, n)
    ensures nodes[n].kind == Opportunity ==> r == Some(n)
    ensures nodes[n].kind != Opportunity ==>
      && (r.Some? ==> OwnedByFirst(nodes, edges, order, n, r.value))
      && (r.None? <==> forall i: nat :: i < |order| ==> !OwningAt(nodes, edges, order, n, i))
  {
    if nodes[n].kind != Opportunity { OwnerIsFirst(nodes, edges, order, n); }
    hide OwnedByFirst, OwningAt;
    if nodes[n].kind == Opportunity { return Some(n); }
    for i := 0 to |order|
      invariant FamilyOwner(nodes, edges, order[i..], n) == FamilyOwner(nodes, edges, order, n)
    {
      assert order[i..][1..] == order[i + 1..] && order[i..][0] == order[i];
      var edge := edges[order[i]];
      if edge.target == n && ((nodes[n].kind in {Assumption, Risk} && edge.kind == DerivedFrom)
                              || (nodes[n].kind == ValidationExperiment && edge.kind == RequiresValidation)) {
        if edge.source in nodes && nodes[edge.source].kind == Opportunity { return Some(edge.source); }
      }
    }
    assert order[|order|..] == [];
    return None;
  }

  /** The node that stands for n in the workset: its family's opportunity, or n itself. */
  function UnitOf(nodes: map<Id, Node>, edges: map<Id, Edge>, order: seq<Id>, n: Id): Id
    requires n in nodes
  {
    var owner := FamilyOwner(nodes, edges, order, n);
    if owner.Some? then owner.value else n
  }

  /** An opportunity with its whole family; any other unit is one node. */
  function MembersOf(nodes: map<Id, Node>, edges: map<Id, Edge>, order: seq<Id>, unit: Id): set<Id>
    requires unit in nodes
  {
    if nodes[unit].kind == Opportunity
    then set m | m in nodes && FamilyOwner(nodes, edges, order, m) == Some(unit)
    else {unit}
  }

  lemma MemberIffUnit(nodes: map<Id, Node>, edges: map<Id, Edge>, order: seq<Id>, unit: Id, m: Id)
    requires m in nodes && unit in nodes && UnitOf(nodes, edges, order, unit) == unit
    ensures m in MembersOf(nodes, edges, order, unit) <==> UnitOf(nodes, edges, order, m) == unit
  {
  }

  lemma UnitIsItsOwnUnit(nodes: map<Id, Node>, edges: map<Id, Edge>, order: seq<Id>, n: Id)
    requires n in nodes
    ensures var unit := UnitOf(nodes, edges, order, n); unit in nodes && UnitOf(nodes, edges, order, unit) == unit
  {
  }

  // ------------------------------------------------------------------ regeneration units

  /** One production unit of a regeneration: its members, the stale ones, and its nearest target. */
  datatype Unit = Unit(members: set<Id>, stale: set<Id>, distance: nat)

  ghost predicate Nearest(nodes: map<Id, Node>, edges: map<Id, Edge>, order: seq<Id>, targets: set<Id>,
                          distances: map<Id, nat>, unit: Id, d: nat)
    requires targets <= nodes.Keys && targets <= distances.Keys
  {
    && (forall t :: t in targets && UnitOf(nodes, edges, order, t) == unit ==> d <= distances[t])
    && (exists t :: t in targets && UnitOf(nodes, edges, order, t) == unit && distances[t] == d)
  }

  ghost predicate UnitsOf(nodes: map<Id, Node>, edges: map<Id, Edge>, order: seq<Id>, targets: set<Id>,
                          distances: map<Id, nat>, units: map<Id, Unit>)
    requires targets <= nodes.Keys && targets <= distances.Keys
  {
    && (forall t :: t in targets ==> UnitOf(nodes, edges, order, t) in units)
    && (forall u :: u in units ==>
          && u in nodes && UnitOf(nodes, edges, order, u) == u
          && units[u].members == MembersOf(nodes, edges, order, u)
          && Nearest(nodes, edges, order, targets, distances, u, units[u].distance))
  }

  /** The stale members of a unit are noted beside its members. */
  ghost predicate StaleNoted(nodes: map<Id, Node>, units: map<Id, Unit>) {
    forall u :: u in units ==> units[u].stale == set m | m in units[u].members && m in nodes && nodes[m].stale
  }

  /** setdefault and the running minimum. */
  function Gathered(units: map<Id, Unit>, unit: Id, members: set<Id>, d: nat): map<Id, Unit> {
    if unit !in units then units[unit := Unit(members, {}, d)]
    else if d < units[unit].distance then units[unit := units[unit].(distance := d)]
    else units
  }

  /** The loop over the sorted targets; stale members are read off at the end. */
  method ProductionUnits(nodes: map<Id, Node>, edges: map<Id, Edge>, order: seq<Id>, targets: seq<Id>,
                         distances: map<Id, nat>)
    returns (units: map<Id, Unit>)
    requires (forall t :: t in targets ==> t in nodes && t in distances) && forall e :: e in order ==> e in edges
    ensures ContextPacking.Members(targets) <= nodes.Keys && ContextPacking.Members(targets) <= distances.Keys
    ensures UnitsOf(nodes, edges, order, ContextPacking.Members(targets), distances, units)
    ensures StaleNoted(nodes, units)
  {
    hide FamilyOwner, MembersOf, UnitsOf;
    units := map[];
    ghost var done: set<Id> := {};
    NoTargetsYet(nodes, edges, order, distances);
    for i := 0 to |targets|
      invariant done == ContextPacking.Members(targets[..i]) && done <= nodes.Keys && done <= distances.Keys
      invariant UnitsOf(nodes, edges, order, done, distances, units)
    {
      var t := targets[i];
      assert t in targets && targets[..i + 1] == targets[..i] + [t];
      var owner := OpportunityFamilyOwner(nodes, edges, order, t);
      var unit := if owner.Some? then owner.value else t;
      UnitIsItsOwnUnit(nodes, edges, order, t);
      OneMoreTarget(nodes, edges, order, done, distances, units, t);
      units := Gathered(units, unit, MembersOf(nodes, edges, order, unit), distances[t]);
      done := done + {t};
    }
    assert targets[..|targets|] == targets;
    StaleFilledIn(nodes, edges, order, done, distances, units);
    units := map u | u in units :: units[u].(stale := set m | m in units[u].members && m in nodes && nodes[m].stale);
  }

  lemma NoTargetsYet(nodes: map<Id, Node>, edges: map<Id, Edge>, order: seq<Id>, distances: map<Id, nat>)
    ensures UnitsOf(nodes, edges, order, {}, distances, map[])
  {
  }

  lemma StaleFilledIn(nodes: map<Id, Node>, edges: map<Id, Edge>, order: seq<Id>, done: set<Id>, distances: map<Id, nat>,
                      units: map<Id, Unit>)
    requires done <= nodes.Keys && done <= distances.Keys && UnitsOf(nodes, edges, order, done, distances, units)
    ensures UnitsOf(nodes, edges, order, done, distances,
      map u | u in units :: units[u].(stale := set m | m in units[u].members && m in nodes && nodes[m].stale))
  {
    hide UnitOf, MembersOf, Nearest;
  }

  lemma NearestStill(nodes: map<Id, Node>, edges: map<Id, Edge>, order: seq<Id>, done: set<Id>, distances: map<Id, nat>,
                     u: Id, d: nat, t: Id)
    requires done + {t} <= nodes.Keys && done + {t} <= distances.Keys
    requires Nearest(nodes, edges, order, done, distances, u, d)
    requires UnitOf(nodes, edges, order, t) == u ==> d <= distances[t]
    ensures Nearest(nodes, edges, order, done + {t}, distances, u, d)
  {
    hide UnitOf;
    var x :| x in done && UnitOf(nodes, edges, order, x) == u && distances[x] == d;
    assert x in done + {t};
  }

  lemma NearestNow(nodes: map<Id, Node>, edges: map<Id, Edge>, order: seq<Id>, done: set<Id>, distances: map<Id, nat>,
                   u: Id, t: Id)
    requires done + {t} <= nodes.Keys && done + {t} <= distances.Keys && UnitOf(nodes, edges, order, t) == u
    requires forall x :: x in done && UnitOf(nodes, edges, order, x) == u ==> distances[t] <= distances[x]
    ensures Nearest(nodes, edges, order, done + {t}, distances, u, distances[t])
  {
    hide UnitOf;
    assert t in done + {t};
  }

  lemma OneMoreTarget(nodes: map<Id, Node>, edges: map<Id, Edge>, order: seq<Id>, done: set<Id>, distances: map<Id, nat>,
                      units: map<Id, Unit>, t: Id)
    requires done + {t} <= nodes.Keys && done + {t} <= distances.Keys && UnitsOf(nodes, edges, order, done, distances, units)
    ensures var unit := UnitOf(nodes, edges, order, t);
            && unit in nodes
            && UnitsOf(nodes, edges, order, done + {t}, distances,
                       Gathered(units, unit, MembersOf(nodes, edges, order, unit), distances[t]))
  {
    hide UnitOf, MembersOf, Nearest;
    UnitIsItsOwnUnit(nodes, edges, order, t);
    var unit := UnitOf(nodes, edges, order, t);
    assert unit !in units ==> forall x :: x in done ==> UnitOf(nodes, edges, order, x) != unit;
    var later := Gathered(units, unit, MembersOf(nodes, edges, order, unit), distances[t]);
    forall u | u in later ensures Nearest(nodes, edges, order, done + {t}, distances, u, later[u].distance) {
      if u in units && later[u] == units[u] {
        NearestStill(nodes, edges, order, done, distances, u, units[u].distance, t);
      } else if u in units {
        NearestBeaten(nodes, edges, order, done, distances, u, units[u].distance, t);
      } else {
        NearestNow(nodes, edges, order, done, distances, u, t);
      }
    }
  }

  lemma NearestBeaten(nodes: map<Id, Node>, edges: map<Id, Edge>, order: seq<Id>, done: set<Id>, distances: map<Id, nat>,
                      u: Id, d: nat, t: Id)
    requires done + {t} <= nodes.Keys && done + {t} <= distances.Keys && UnitOf(nodes, edges, order, t) == u
    requires Nearest(nodes, edges, order, done, distances, u, d) && distances[t] <= d
    ensures Nearest(nodes, edges, order, done + {t}, distances, u, distances[t])
  {
    hide UnitOf;
    NearestNow(nodes, edges, order, done, distances, u, t);
  }

  /** The units partition the workset: every target belongs to exactly one unit, units share no member, and a
      stale target is among the stale members of its unit. */
  lemma UnitsPartitionTargets(nodes: map<Id, Node>, edges: map<Id, Edge>, order: seq<Id>, targets: set<Id>,
                              distances: map<Id, nat>, units: map<Id, Unit>, t: Id)
    requires targets <= nodes.Keys && targets <= distances.Keys
    requires UnitsOf(nodes, edges, order, targets, distances, units) && StaleNoted(nodes, units) && t in targets
    ensures var unit := UnitOf(nodes, edges, order, t);
            && unit in units && t in units[unit].members && (t in units[unit].stale <==> nodes[t].stale)
            && (forall u :: u in units && t in units[u].members ==> u == unit)
    ensures forall u, v :: u in units && v in units && u != v ==> units[u].members !! units[v].members
  {
    hide FamilyOwner, Nearest;
    forall u, m | u in units && m in nodes
      ensures m in units[u].members <==> UnitOf(nodes, edges, order, m) == u
    {
      MemberIffUnit(nodes, edges, order, u, m);
    }
    forall u | u in units ensures units[u].members <= nodes.Keys {
      assert units[u].members == MembersOf(nodes, edges, order, u);
    }
  }

  // ------------------------------------------------------------------ branch constraints

  /** A pinned, eligible branch constraint with an anchor. */
  predicate BranchConstraint(node: Node) {
    && node.kind == Constraint && Get(node.metadata, ContextScope) == Some(Text(BranchScope))
    && Get(node.metadata, Pinned) == Some(Flag(true)) && node.branchRoot.Some? && EligibleContext(node)
  }

  /** Its anchor reaches every generated node the run is about. */
  ghost predicate Governs(rel: Relation, node: Node, generated: set<Id>) {
    BranchConstraint(node) && forall g :: g in generated ==> Reaches(rel, node.branchRoot.value, g)
  }

  /** One traversal per candidate constraint; without generated nodes no branch constraint is taken. */
  method BranchConstraints(nodes: map<Id, Node>, edges: map<Id, Edge>, order: seq<Id>, generated: set<Id>)
    returns (found: set<Id>)
    requires forall n :: n in order <==> n in nodes
    ensures generated == {} ==> found == {}
    ensures generated != {} ==>
      forall n :: n in found <==> n in nodes && Governs(Dependencies(edges), nodes[n], generated)
  {
    found := {};
    if generated == {} { return; }
    var forward, reverse := SearchAgreement.BuildArcs(edges);
    hide Governs, Dependencies, BranchConstraint, Arcs;
    for i := 0 to |order|
      invariant forall n :: n in found <==>
        n in order[..i] && n in nodes && Governs(Dependencies(edges), nodes[n], generated)
    {
      var n := order[i];
      assert n in order && order[..i + 1] == order[..i] + [n];
      var governs := IsGovernor(nodes[n], edges, forward, generated);
      if governs { found := found + {n}; }
    }
    assert order[..|order|] == order;
  }

  method IsGovernor(node: Node, edges: map<Id, Edge>, forward: Adjacency, generated: set<Id>) returns (governs: bool)
    requires Arcs(forward) == Dependencies(edges)
    ensures governs <==> Governs(Dependencies(edges), node, generated)
  {
    if !BranchConstraint(node) { return false; }
    var ranks := Traverse({node.branchRoot.value}, forward);
    TraversedFromOne(forward, node.branchRoot.value, ranks);
    return forall g :: g in generated ==> g in ranks;
  }

  lemma TraversedFromOne(forward: Adjacency, root: Id, ranks: map<Id, Rank>)
    requires ExactRanks(forward, {root}, ranks)
    ensures forall g :: g in ranks <==> Reaches(Arcs(forward), root, g)
  {
    hide BestRank, Arcs;
    forall g ensures g in ranks <==> Reaches(Arcs(forward), root, g) {
      SearchAgreement.SingleRoot(Arcs(forward), root, g);
      assert g in ranks <==> ReachedFrom(Arcs(forward), {root}, g);
    }
  }

  // ------------------------------------------------------------------ candidate tiers

  function Eligibles(nodes: map<Id, Node>, reached: set<Id>, mandatory: set<Id>): set<Id> {
    set n | n in reached && n in nodes && n !in mandatory && EligibleContext(nodes[n])
  }

  datatype Tiers = Tiers(provenance: set<Id>, evidence: set<Id>, descendants: set<Id>, related: set<Id>)

  /** Evidence is taken out of both directions first; related nodes hang from an eligible ancestor. */
  function TiersOf(nodes: map<Id, Node>, rel: Relation, ancestors: set<Id>, descendants: set<Id>,
                   mandatory: set<Id>): Tiers {
    var up, down := Eligibles(nodes, ancestors, mandatory), Eligibles(nodes, descendants, mandatory);
    var evidence := set n | n in up + down && n in nodes && nodes[n].kind in {Source, Claim};
    var below := down - evidence - (up - evidence);
    var related := set p | p in rel && p.0 in up && p.1 in nodes && p.1 !in mandatory && p.1 !in evidence
                           && p.1 !in up - evidence && p.1 !in below
                           && nodes[p.1].kind in {Opportunity, Risk, Assumption} && EligibleContext(nodes[p.1]) :: p.1;
    Tiers(up - evidence, evidence, below, related)
  }

  /** The sequences list the tiers, each node once; evidence is split by its classification. */
  ghost predicate Ranked(t: Tiers, c: ContextPacking.Candidates) {
    && NoDuplicates(c.provenance) && ContextPacking.Members(c.provenance) == t.provenance
    && NoDuplicates(c.contradicting) && NoDuplicates(c.supporting)
    && ContextPacking.Members(c.contradicting) !! ContextPacking.Members(c.supporting)
    && ContextPacking.Members(c.contradicting) + ContextPacking.Members(c.supporting) == t.evidence
    && NoDuplicates(c.descendants) && ContextPacking.Members(c.descendants) == t.descendants
    && NoDuplicates(c.related) && ContextPacking.Members(c.related) == t.related
  }

  lemma TiersAreDisjoint(nodes: map<Id, Node>, rel: Relation, ancestors: set<Id>, descendants: set<Id>, mandatory: set<Id>)
    ensures var t := TiersOf(nodes, rel, ancestors, descendants, mandatory);
            && t.provenance !! t.evidence !! t.descendants !! t.related !! mandatory
            && t.provenance + t.evidence + t.descendants + t.related <= nodes.Keys
    ensures var t := TiersOf(nodes, rel, ancestors, descendants, mandatory);
            Eligibles(nodes, ancestors, mandatory) + Eligibles(nodes, descendants, mandatory)
            == t.provenance + t.evidence + t.descendants
  {
    hide EligibleContext;
  }

  /** Any ranking of the tiers is a packing problem in which no node is offered twice and no mandatory node is
      offered at all. */
  lemma RankedTiersAreWellPosed(nodes: map<Id, Node>, rel: Relation, ancestors: set<Id>, descendants: set<Id>,
                                mandatory: seq<Id>, c: ContextPacking.Candidates)
    requires NoDuplicates(mandatory) && ContextPacking.Members(mandatory) <= nodes.Keys
    requires Ranked(TiersOf(nodes, rel, ancestors, descendants, ContextPacking.Members(mandatory)), c)
    ensures ContextPacking.WellPosed(nodes.Keys, mandatory, c)
  {
    var t := TiersOf(nodes, rel, ancestors, descendants, ContextPacking.Members(mandatory));
    TiersAreDisjoint(nodes, rel, ancestors, descendants, ContextPacking.Members(mandatory));
    hide TiersOf, Eligibles, NoDuplicates, ContextPacking.Members;
    ContextPacking.PicksAreDistinct(c, ContextPacking.Plan(c.provenance, c.contradicting, c.supporting, c.descendants, c.related));
    ContextPacking.MembersOfAll(c);
  }

  // ------------------------------------------------------------------ read off one node

  /** The field holds something that Python takes for true. */
  predicate Marks(metadata: Metadata, f: Field) {
    f in metadata && metadata[f] != Text(Word("")) && metadata[f] != Flag(false) && metadata[f] != Number(0)
    && metadata[f] != Items([]) && metadata[f] != IdSet({}) && metadata[f] != TokenSet({})
  }

  /** A node of a context is fresh, neither provisional nor rejected, and accepted if anything but a person made it. */
  predicate Admitted(node: Node) {
    var review := Get(node.metadata, ReviewStatus);
    && !node.stale && Get(node.metadata, Other("provisional")) != Some(Flag(true))
    && review != Some(Text(Provisional)) && review != Some(Text(Rejected))
    && (review == Some(Text(Accepted))
        || !(Marks(node.metadata, Other("generated")) || Marks(node.metadata, GeneratedByRun)
             || Marks(node.metadata, Other("generation_run_id")) || Marks(node.metadata, SourcePatch)))
  }

  lemma AdmittedIff(node: Node)
    ensures EligibleContext(node) <==> Admitted(node)
  {
  }

  predicate Usable(nodes: map<Id, Node>, mandatory: set<Id>, n: Id) {
    n in nodes && n !in mandatory && Admitted(nodes[n])
  }

  predicate IsEvidence(kind: NodeKind) {
    kind == Source || kind == Claim
  }

  /** It depends directly on a usable ancestor and is of a kind that belongs beside an ancestor. */
  ghost predicate BesideAncestor(nodes: map<Id, Node>, rel: Relation, ancestors: set<Id>, mandatory: set<Id>, n: Id) {
    && n in nodes && (nodes[n].kind == Opportunity || nodes[n].kind == Risk || nodes[n].kind == Assumption)
    && exists a :: a in ancestors && Usable(nodes, mandatory, a) && (a, n) in rel
  }

  /** Which tier a node is in: sources and claims of both directions are evidence; other ancestors come before other
      descendants, and what stands beside an ancestor comes last. */
  lemma TierOf(nodes: map<Id, Node>, rel: Relation, ancestors: set<Id>, descendants: set<Id>, mandatory: set<Id>, n: Id)
    ensures var t := TiersOf(nodes, rel, ancestors, descendants, mandatory);
            var usable, up, down := Usable(nodes, mandatory, n), n in ancestors, n in descendants;
            && (n in t.evidence <==> usable && (up || down) && IsEvidence(nodes[n].kind))
            && (n in t.provenance <==> usable && up && !IsEvidence(nodes[n].kind))
            && (n in t.descendants <==> usable && down && !up && !IsEvidence(nodes[n].kind))
            && (n in t.related <==> usable && !up && !down && BesideAncestor(nodes, rel, ancestors, mandatory, n))
  {
    forall m | m in nodes ensures EligibleContext(nodes[m]) <==> Admitted(nodes[m]) {
      AdmittedIff(nodes[m]);
    }
    hide EligibleContext, Admitted;
    var up := Eligibles(nodes, ancestors, mandatory);
    assert forall m :: m in up <==> m in ancestors && Usable(nodes, mandatory, m);
    if Usable(nodes, mandatory, n) && BesideAncestor(nodes, rel, ancestors, mandatory, n) {
      var a :| a in ancestors && Usable(nodes, mandatory, a) && (a, n) in rel;
      assert (a, n).0 in up && (a, n).1 == n;
    }
  }

  /** The edge makes the node part of an opportunity's family. */
  predicate TiesTo(nodes: map<Id, Node>, edge: Edge, n: Id) {
    && n in nodes && edge.target == n && edge.source in nodes && nodes[edge.source].kind == Opportunity
    && match nodes[n].kind
       case Assumption => edge.kind == DerivedFrom
       case Risk => edge.kind == DerivedFrom
       case ValidationExperiment => edge.kind == RequiresValidation
       case _ => false
  }

  /** The unit of a node is the source of the first edge in order that ties it to an opportunity, or the node itself. */
  lemma UnitIsFirstTie(nodes: map<Id, Node>, edges: map<Id, Edge>, order: seq<Id>, n: Id)
    requires n in nodes && forall e :: e in order ==> e in edges
    ensures var unit := UnitOf(nodes, edges, order, n);
            || (unit == n && forall i :: 0 <= i < |order| ==> !TiesTo(nodes, edges[order[i]], n))
            || exists i :: 0 <= i < |order| && TiesTo(nodes, edges[order[i]], n) && edges[order[i]].source == unit
                 && forall j :: 0 <= j < i ==> !TiesTo(nodes, edges[order[j]], n)
  {
    if nodes[n].kind != Opportunity {
      OwnerIsFirst(nodes, edges, order, n);
    }
    assert forall i: nat :: i < |order| ==> (OwningAt(nodes, edges, order, n, i) <==> TiesTo(nodes, edges[order[i]], n));
    hide FamilyOwner;
  }

  /** Which branch constraints a run takes: pinned ones that are admitted and whose anchor every generated node depends on. */
  lemma GovernsIff(rel: Relation, node: Node, generated: set<Id>)
    ensures Governs(rel, node, generated) <==>
      && node.kind == Constraint && Get(node.metadata, ContextScope) == Some(Text(BranchScope))
      && Get(node.metadata, Pinned) == Some(Flag(true)) && Admitted(node)
      && match node.branchRoot
         case Some(root) => forall g :: g in generated ==> Reaches(rel, root, g)
         case None => false
  {
    AdmittedIff(node);
    hide EligibleContext, Admitted;
  }
}

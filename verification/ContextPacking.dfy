/** Packing the optional nodes of a run's context under integer caps, and trimming them until the serialized
    request fits (proofgraph/generation/context.py:585-819). */
module ContextPacking {
  import opened Reachability
  import opened GraphTypes
  import opened DependencyOrder

  type Counts = map<Id, nat>

  datatype Tier = SelectedTier | ConstraintTier | AncestorTier | EvidenceTier | DescendantTier | RelatedTier

  /** What is frozen so far: the included nodes, the tier lists of the manifest, and what no budget was left for. */
  datatype Context = Context(included: set<Id>, tiers: map<Tier, seq<Id>>, overBudget: set<Id>)

  function Members(q: seq<Id>): set<Id> {
    set x | x in q
  }

  function Weigh(counts: Counts, id: Id): nat {
    if id in counts then counts[id] else 0
  }

  function Sum(counts: Counts, q: seq<Id>): nat
    decreases |q|
  {
    if q == [] then 0 else Sum(counts, q[..|q| - 1]) + Weigh(counts, q[|q| - 1])
  }

  /** First fit in rank order: a candidate is taken exactly when it fits what the cap has left. */
  function Greedy(counts: Counts, candidates: seq<Id>, cap: nat): seq<Id>
    decreases |candidates|
  {
    if candidates == [] then []
    else
      var before := Greedy(counts, candidates[..|candidates| - 1], cap);
      var last := candidates[|candidates| - 1];
      if Weigh(counts, last) + Sum(counts, before) <= cap then before + [last] else before
  }

  lemma {:induction false} SumAppend(counts: Counts, a: seq<Id>, b: seq<Id>)
    ensures Sum(counts, a + b) == Sum(counts, a) + Sum(counts, b)
    decreases |b|
  {
    if b == [] {
      assert a + b == a;
    } else {
      SumAppend(counts, a, b[..|b| - 1]);
      assert (a + b)[..|a + b| - 1] == a + b[..|b| - 1];
    }
  }

  lemma {:induction false} GreedyFits(counts: Counts, candidates: seq<Id>, cap: nat)
    ensures Sum(counts, Greedy(counts, candidates, cap)) <= cap
    decreases |candidates|
  {
    if candidates != [] {
      var before := Greedy(counts, candidates[..|candidates| - 1], cap);
      GreedyFits(counts, candidates[..|candidates| - 1], cap);
      SumAppend(counts, before, [candidates[|candidates| - 1]]);
      assert [candidates[|candidates| - 1]][..0] == [];
    }
  }

  lemma {:induction false} GreedyPicks(counts: Counts, candidates: seq<Id>, cap: nat)
    ensures forall x :: x in Greedy(counts, candidates, cap) ==> x in candidates
    ensures NoDuplicates(candidates) ==> NoDuplicates(Greedy(counts, candidates, cap))
    decreases |candidates|
  {
    if candidates != [] {
      var shorter := candidates[..|candidates| - 1];
      GreedyPicks(counts, shorter, cap);
      assert forall x :: x in shorter ==> x in candidates;
      if NoDuplicates(candidates) {
        assert candidates[|candidates| - 1] !in shorter;
      }
    }
  }

  /** Whether the last candidate is taken; the earlier choices stay as they are. */
  lemma GreedyLast(counts: Counts, candidates: seq<Id>, cap: nat, x: Id)
    requires x !in candidates
    ensures var longer := Greedy(counts, candidates + [x], cap); var before := Greedy(counts, candidates, cap);
            && (x in longer <==> Weigh(counts, x) + Sum(counts, before) <= cap)
            && (forall y :: y != x ==> (y in longer <==> y in before))
  {
    assert (candidates + [x])[..|candidates|] == candidates;
    GreedyPicks(counts, candidates, cap);
  }

  /** A candidate is passed over only because it does not fit what the better ranked ones left. */
  lemma {:induction false} GreedyPassesOverOnlyMisfits(counts: Counts, candidates: seq<Id>, cap: nat, i: nat)
    requires i < |candidates| && NoDuplicates(candidates)
    ensures candidates[i] in Greedy(counts, candidates, cap) <==>
            Weigh(counts, candidates[i]) + Sum(counts, Greedy(counts, candidates[..i], cap)) <= cap
    decreases |candidates|
  {
    var shorter, last := candidates[..|candidates| - 1], candidates[|candidates| - 1];
    assert candidates == shorter + [last] && last !in shorter;
    hide Greedy, Sum, Weigh;
    GreedyLast(counts, shorter, cap, last);
    if i < |shorter| {
      GreedyPassesOverOnlyMisfits(counts, shorter, cap, i);
      assert shorter[..i] == candidates[..i] && candidates[i] == shorter[i];
    } else {
      assert shorter == candidates[..i];
    }
  }

  // ------------------------------------------------------------------ the plan

  /** Candidates per tier in rank order. */
  datatype Candidates = Candidates(provenance: seq<Id>, contradicting: seq<Id>, supporting: seq<Id>,
                                   descendants: seq<Id>, related: seq<Id>)

  datatype Plan = Plan(provenance: seq<Id>, contradicting: seq<Id>, supporting: seq<Id>,
                       descendants: seq<Id>, related: seq<Id>)

  function Min(a: int, b: int): int {
    if a <= b then a else b
  }

  function Share(budget: nat, percent: nat): nat {
    budget * percent / 100
  }

  function Joined(p: Plan): seq<Id> {
    p.provenance + p.contradicting + p.supporting + p.descendants + p.related
  }

  function AllOf(c: Candidates): seq<Id> {
    c.provenance + c.contradicting + c.supporting + c.descendants + c.related
  }

  /** The caps of the tiers: 20, 20, 10 and 5 percent of the budget, a quarter of the evidence cap for
      contradictions, and never more than what is left. */
  ghost predicate WithinCaps(counts: Counts, budget: nat, mandatory: nat, p: Plan) {
    && Sum(counts, p.provenance) <= Share(budget, 20)
    && Sum(counts, p.contradicting) + Sum(counts, p.supporting) <= Share(budget, 20)
    && Sum(counts, p.contradicting) <= Share(Share(budget, 20), 25)
    && Sum(counts, p.descendants) <= Share(budget, 10)
    && Sum(counts, p.related) <= Share(budget, 5)
    && mandatory + Sum(counts, Joined(p)) <= budget
  }

  /** What one tier packs: distinct candidates of the tier, within its cap. */
  function Picked(counts: Counts, candidates: seq<Id>, cap: nat): (r: seq<Id>)
    ensures r == Greedy(counts, candidates, cap)
    ensures Sum(counts, r) <= cap && Members(r) <= Members(candidates)
    ensures NoDuplicates(candidates) ==> NoDuplicates(r)
  {
    GreedyFits(counts, candidates, cap);
    GreedyPicks(counts, candidates, cap);
    Greedy(counts, candidates, cap)
  }

  function PlanFor(counts: Counts, budget: nat, mandatory: nat, c: Candidates): Plan
    requires mandatory <= budget
  {
    var left := budget - mandatory;
    var provenance := Picked(counts, c.provenance, Min(Share(budget, 20), left));
    var left1 := left - Sum(counts, provenance);
    var evidenceCap := Min(Share(budget, 20), left1);
    ShareGrows(evidenceCap, Share(budget, 20), 25);
    var contradicting := Picked(counts, c.contradicting, Share(evidenceCap, 25));
    var supporting := Picked(counts, c.supporting, evidenceCap - Sum(counts, contradicting));
    var left2 := left1 - Sum(counts, contradicting) - Sum(counts, supporting);
    var descendants := Picked(counts, c.descendants, Min(Share(budget, 10), left2));
    var left3 := left2 - Sum(counts, descendants);
    Plan(provenance, contradicting, supporting, descendants, Picked(counts, c.related, Min(Share(budget, 5), left3)))
  }

  /** Before trimming, the packed counts stay within the semantic budget and within every tier's cap. */
  lemma PlanStaysWithinCaps(counts: Counts, budget: nat, mandatory: nat, c: Candidates)
    requires mandatory <= budget
    ensures WithinCaps(counts, budget, mandatory, PlanFor(counts, budget, mandatory, c))
  {
    hide Greedy, Sum, Share, Joined;
    var p := PlanFor(counts, budget, mandatory, c);
    ShareGrows(Min(Share(budget, 20), budget - mandatory - Sum(counts, p.provenance)), Share(budget, 20), 25);
    JoinedSum(counts, p);
  }

  lemma ShareGrows(a: nat, b: nat, percent: nat)
    requires a <= b && percent <= 100
    ensures Share(a, percent) <= Share(b, percent) && Share(a, percent) <= a
  {
    assert a * percent <= b * percent && a * percent <= a * 100;
  }

  lemma JoinedSum(counts: Counts, p: Plan)
    ensures Sum(counts, Joined(p)) == Sum(counts, p.provenance) + Sum(counts, p.contradicting)
      + Sum(counts, p.supporting) + Sum(counts, p.descendants) + Sum(counts, p.related)
  {
    SumAppend(counts, p.provenance, p.contradicting);
    SumAppend(counts, p.provenance + p.contradicting, p.supporting);
    SumAppend(counts, p.provenance + p.contradicting + p.supporting, p.descendants);
    SumAppend(counts, p.provenance + p.contradicting + p.supporting + p.descendants, p.related);
  }

  // ------------------------------------------------------------------ trimming

  /** list.remove: the first occurrence goes. */
  function Without(q: seq<Id>, x: Id): (r: seq<Id>)
    ensures forall y :: y != x ==> (y in r <==> y in q)
    ensures NoDuplicates(q) ==> x !in r
  {
    if q == [] then []
    else if q[0] == x then
      assert NoDuplicates(q) ==> x !in q[1..];
      q[1..]
    else
      assert NoDuplicates(q) ==> NoDuplicates(q[1..]);
      [q[0]] + Without(q[1..], x)
  }

  function Drop(c: Context, x: Id): Context {
    Context(c.included - {x}, map t | t in c.tiers :: Without(c.tiers[t], x), c.overBudget + {x})
  }

  /** The context with the first k optional nodes left, the later ones dropped last first. */
  function Trimmed(base: Context, optional: seq<Id>, k: nat): Context
    requires k <= |optional|
    decreases |optional| - k
  {
    if k == |optional| then base else Drop(Trimmed(base, optional, k + 1), optional[k])
  }

  /** Both ends included: the induced subgraph. */
  function Induced(edges: map<Id, Edge>, included: set<Id>): set<Id> {
    set e | e in edges && edges[e].source in included && edges[e].target in included
  }

  datatype Limits = Limits(hard: nat, response: nat, reserve: nat) {
    predicate Sane() { response + reserve < hard }
    function Budget(): nat requires Sane() { hard - response - reserve }
  }

  /** The token count of the assembled snapshot and manifest. */
  type Counter = (Context, set<Id>) -> nat

  predicate Fits(limits: Limits, count: Counter, edges: map<Id, Edge>, c: Context) {
    count(c, Induced(edges, c.included)) + limits.response + limits.reserve <= limits.hard
  }

  /** k optional nodes fit, and no longer prefix of the packing order does. */
  ghost predicate LargestFit(limits: Limits, count: Counter, edges: map<Id, Edge>, base: Context, optional: seq<Id>, k: nat) {
    && k <= |optional| && Fits(limits, count, edges, Trimmed(base, optional, k))
    && forall j :: k < j <= |optional| ==> !Fits(limits, count, edges, Trimmed(base, optional, j))
  }

  ghost predicate NothingFits(limits: Limits, count: Counter, edges: map<Id, Edge>, base: Context, optional: seq<Id>) {
    forall j :: 0 <= j <= |optional| ==> !Fits(limits, count, edges, Trimmed(base, optional, j))
  }

  lemma {:induction false} TrimmedNodes(base: Context, optional: seq<Id>, k: nat)
    requires k <= |optional|
    ensures Trimmed(base, optional, k).included == base.included - Members(optional[k..])
    ensures Trimmed(base, optional, k).overBudget == base.overBudget + Members(optional[k..])
    decreases |optional| - k
  {
    if k < |optional| {
      TrimmedNodes(base, optional, k + 1);
      assert optional[k..] == [optional[k]] + optional[k + 1..];
    }
  }

  /** The context before trimming. */
  function BaseOf(mandatory: seq<Id>, seeds: map<Tier, seq<Id>>, c: Candidates, p: Plan): Context {
    Context(Members(mandatory) + Members(Joined(p)),
            Appended(Appended(Appended(Appended(Appended(seeds, AncestorTier, p.provenance), EvidenceTier, p.contradicting),
                                       EvidenceTier, p.supporting), DescendantTier, p.descendants), RelatedTier, p.related),
            Members(AllOf(c)) - Members(Joined(p)))
  }

  function Appended(tiers: map<Tier, seq<Id>>, tier: Tier, q: seq<Id>): map<Tier, seq<Id>> {
    tiers[tier := (if tier in tiers then tiers[tier] else []) + q]
  }

  /** Candidates are distinct canvas nodes, and none of them is mandatory. */
  ghost predicate WellPosed(nodes: set<Id>, mandatory: seq<Id>, c: Candidates) {
    && NoDuplicates(AllOf(c)) && Members(AllOf(c)) <= nodes && Members(mandatory) <= nodes
    && Members(mandatory) !! Members(AllOf(c)) && NoDuplicates(mandatory)
  }

  lemma PlanPicks(counts: Counts, budget: nat, mandatory: nat, c: Candidates)
    requires mandatory <= budget && NoDuplicates(AllOf(c))
    ensures var p := PlanFor(counts, budget, mandatory, c);
            NoDuplicates(Joined(p)) && Members(Joined(p)) <= Members(AllOf(c))
  {
    hide Greedy, Sum, Share, NoDuplicates, Members;
    PartsAreDistinct(c);
    PicksAreDistinct(c, PlanFor(counts, budget, mandatory, c));
  }

  lemma PartsAreDistinct(c: Candidates)
    requires NoDuplicates(AllOf(c))
    ensures NoDuplicates(c.provenance) && NoDuplicates(c.contradicting) && NoDuplicates(c.supporting)
            && NoDuplicates(c.descendants) && NoDuplicates(c.related)
    ensures Members(c.provenance) !! Members(c.contradicting) !! Members(c.supporting) !! Members(c.descendants)
            !! Members(c.related)
  {
    var a, b := c.provenance, c.contradicting;
    SplitDistinct(a + b + c.supporting + c.descendants, c.related);
    SplitDistinct(a + b + c.supporting, c.descendants);
    SplitDistinct(a + b, c.supporting);
    SplitDistinct(a, b);
  }

  lemma SplitDistinct(a: seq<Id>, b: seq<Id>)
    requires NoDuplicates(a + b)
    ensures NoDuplicates(a) && NoDuplicates(b) && Members(a) !! Members(b)
  {
    assert forall i :: 0 <= i < |a| ==> (a + b)[i] == a[i];
    assert forall i :: 0 <= i < |b| ==> (a + b)[|a| + i] == b[i];
  }

  lemma JoinDistinct(a: seq<Id>, b: seq<Id>)
    requires NoDuplicates(a) && NoDuplicates(b) && Members(a) !! Members(b)
    ensures NoDuplicates(a + b)
  {
    forall i, j | 0 <= i < j < |a + b| ensures (a + b)[i] != (a + b)[j] {
      if i < |a| <= j {
        assert (a + b)[i] in Members(a) && (a + b)[j] in Members(b);
      }
    }
  }

  lemma PicksAreDistinct(c: Candidates, p: Plan)
    requires Members(c.provenance) !! Members(c.contradicting) !! Members(c.supporting) !! Members(c.descendants)
             !! Members(c.related)
    requires Members(p.provenance) <= Members(c.provenance) && Members(p.contradicting) <= Members(c.contradicting)
    requires Members(p.supporting) <= Members(c.supporting) && Members(p.descendants) <= Members(c.descendants)
    requires Members(p.related) <= Members(c.related)
    requires NoDuplicates(p.provenance) && NoDuplicates(p.contradicting) && NoDuplicates(p.supporting)
             && NoDuplicates(p.descendants) && NoDuplicates(p.related)
    ensures NoDuplicates(Joined(p)) && Members(Joined(p)) <= Members(AllOf(c))
  {
    var a, b := p.provenance, p.contradicting;
    JoinDistinct(a, b);
    JoinDistinct(a + b, p.supporting);
    JoinDistinct(a + b + p.supporting, p.descendants);
    JoinDistinct(a + b + p.supporting + p.descendants, p.related);
    hide NoDuplicates;
    forall x | x in Joined(p) ensures x in AllOf(c) {
      assert x in Members(p.provenance) || x in Members(p.contradicting) || x in Members(p.supporting)
             || x in Members(p.descendants) || x in Members(p.related);
    }
  }

  /** Every context the trimming can stop at: all mandatory nodes and the first k optional ones are included,
      the other candidates are over budget, the rest is out of scope, and the three partition the canvas. */
  lemma FrozenPartition(nodes: set<Id>, counts: Counts, limits: Limits, mandatory: seq<Id>, seeds: map<Tier, seq<Id>>,
                        c: Candidates, k: nat)
    requires WellPosed(nodes, mandatory, c) && limits.Sane() && Sum(counts, mandatory) <= limits.Budget()
    requires k <= |Joined(PlanFor(counts, limits.Budget(), Sum(counts, mandatory), c))|
    ensures var p := PlanFor(counts, limits.Budget(), Sum(counts, mandatory), c);
            var frozen := Trimmed(BaseOf(mandatory, seeds, c, p), Joined(p), k);
            && frozen.included == Members(mandatory) + Members(Joined(p)[..k])
            && frozen.overBudget == Members(AllOf(c)) - Members(Joined(p)[..k])
            && Members(mandatory) <= frozen.included <= nodes
            && frozen.included !! frozen.overBudget && frozen.overBudget <= nodes
  {
    hide PlanFor, Sum, Appended, AllOf, Joined;
    var p := PlanFor(counts, limits.Budget(), Sum(counts, mandatory), c);
    PlanPicks(counts, limits.Budget(), Sum(counts, mandatory), c);
    var optional := Joined(p);
    TrimmedNodes(BaseOf(mandatory, seeds, c, p), optional, k);
    assert optional == optional[..k] + optional[k..];
    SplitDistinct(optional[..k], optional[k..]);
    assert Members(optional) == Members(optional[..k]) + Members(optional[k..]);
  }

  /** The candidates that did not fit when their turn came. */
  ghost function PassedOver(counts: Counts, candidates: seq<Id>, cap: nat): set<Id>
    decreases |candidates|
  {
    if candidates == [] then {}
    else
      var shorter, last := candidates[..|candidates| - 1], candidates[|candidates| - 1];
      PassedOver(counts, shorter, cap)
      + if Weigh(counts, last) + Sum(counts, Greedy(counts, shorter, cap)) <= cap then {} else {last}
  }

  /** The effect of packing these candidates on everything the loop touches. */
  ghost predicate PackedSoFar(counts: Counts, candidates: seq<Id>, cap: nat, before: Context, order: seq<Id>, start: seq<Id>,
                              now: Context, nowOrder: seq<Id>, listed: seq<Id>, used: nat)
  {
    var picked := Greedy(counts, candidates, cap);
    && used == Sum(counts, picked) && nowOrder == order + picked && listed == start + picked
    && now == Context(before.included + Members(picked), before.tiers,
                      before.overBudget + PassedOver(counts, candidates, cap))
  }

  lemma NothingPacked(counts: Counts, candidates: seq<Id>, cap: nat, before: Context, order: seq<Id>, start: seq<Id>)
    ensures PackedSoFar(counts, candidates[..0], cap, before, order, start, before, order, start, 0)
  {
    assert candidates[..0] == [];
    assert order + [] == order && start + [] == start;
    assert before.included + Members([]) == before.included && before.overBudget + {} == before.overBudget;
  }

  lemma PackedTier(counts: Counts, candidates: seq<Id>, cap: nat, before: Context, order: seq<Id>, start: seq<Id>,
                   now: Context, nowOrder: seq<Id>, listed: seq<Id>, used: nat, tier: Tier)
    requires PackedSoFar(counts, candidates, cap, before, order, start, now, nowOrder, listed, used)
    requires start == if tier in before.tiers then before.tiers[tier] else []
    ensures var picked := Picked(counts, candidates, cap);
            && used == Sum(counts, picked) && nowOrder == order + picked
            && now.(tiers := now.tiers[tier := listed])
               == Context(before.included + Members(picked), Appended(before.tiers, tier, picked),
                          before.overBudget + PassedOver(counts, candidates, cap))
  {
  }

  lemma GreedyStep(counts: Counts, candidates: seq<Id>, cap: nat, i: nat)
    requires i < |candidates|
    ensures var id, picked := candidates[i], Greedy(counts, candidates[..i], cap);
            var fits := Weigh(counts, id) + Sum(counts, picked) <= cap;
            && Greedy(counts, candidates[..i + 1], cap) == (if fits then picked + [id] else picked)
            && Sum(counts, picked + [id]) == Sum(counts, picked) + Weigh(counts, id)
            && Members(picked + [id]) == Members(picked) + {id}
            && PassedOver(counts, candidates[..i + 1], cap)
               == PassedOver(counts, candidates[..i], cap) + (if fits then {} else {id})
  {
    var picked := Greedy(counts, candidates[..i], cap);
    assert candidates[..i + 1][..i] == candidates[..i];
    assert (picked + [candidates[i]])[..|picked|] == picked;
  }

  lemma PackTaken(counts: Counts, q: seq<Id>, longer: seq<Id>, id: Id, cap: nat, before: Context, order: seq<Id>,
                  start: seq<Id>, now: Context, nowOrder: seq<Id>, listed: seq<Id>, used: nat)
    requires PackedSoFar(counts, q, cap, before, order, start, now, nowOrder, listed, used)
    requires Greedy(counts, longer, cap) == Greedy(counts, q, cap) + [id]
    requires PassedOver(counts, longer, cap) == PassedOver(counts, q, cap)
    requires Sum(counts, Greedy(counts, longer, cap)) == used + Weigh(counts, id)
    requires Members(Greedy(counts, longer, cap)) == Members(Greedy(counts, q, cap)) + {id}
    ensures PackedSoFar(counts, longer, cap, before, order, start,
                        now.(included := now.included + {id}), nowOrder + [id], listed + [id], used + Weigh(counts, id))
  {
    hide Greedy, Sum, Weigh, PassedOver, Members;
    var picked := Greedy(counts, q, cap);
    assert nowOrder + [id] == order + (picked + [id]) && listed + [id] == start + (picked + [id]);
    assert now.included + {id} == before.included + (Members(picked) + {id});
  }

  lemma PackPassed(counts: Counts, q: seq<Id>, longer: seq<Id>, id: Id, cap: nat, before: Context, order: seq<Id>,
                   start: seq<Id>, now: Context, nowOrder: seq<Id>, listed: seq<Id>, used: nat)
    requires PackedSoFar(counts, q, cap, before, order, start, now, nowOrder, listed, used)
    requires Greedy(counts, longer, cap) == Greedy(counts, q, cap)
    requires PassedOver(counts, longer, cap) == PassedOver(counts, q, cap) + {id}
    ensures PackedSoFar(counts, longer, cap, before, order, start,
                        now.(overBudget := now.overBudget + {id}), nowOrder, listed, used)
  {
    hide Greedy, Sum, Weigh, PassedOver, Members;
    assert now.overBudget + {id} == before.overBudget + (PassedOver(counts, q, cap) + {id});
  }

  lemma PackOne(counts: Counts, candidates: seq<Id>, cap: nat, i: nat, before: Context, order: seq<Id>, start: seq<Id>,
                now: Context, nowOrder: seq<Id>, listed: seq<Id>, used: nat)
    requires i < |candidates|
    requires PackedSoFar(counts, candidates[..i], cap, before, order, start, now, nowOrder, listed, used)
    ensures var id := candidates[i];
            if Weigh(counts, id) + used <= cap
            then PackedSoFar(counts, candidates[..i + 1], cap, before, order, start,
                             now.(included := now.included + {id}), nowOrder + [id], listed + [id], used + Weigh(counts, id))
            else PackedSoFar(counts, candidates[..i + 1], cap, before, order, start,
                             now.(overBudget := now.overBudget + {id}), nowOrder, listed, used)
  {
    GreedyStep(counts, candidates, cap, i);
    assert used == Sum(counts, Greedy(counts, candidates[..i], cap));
    assert PassedOver(counts, candidates[..i], cap) + {} == PassedOver(counts, candidates[..i], cap);
    hide *;
    var id, q, longer := candidates[i], candidates[..i], candidates[..i + 1];
    if Weigh(counts, id) + used <= cap {
      PackTaken(counts, q, longer, id, cap, before, order, start, now, nowOrder, listed, used);
    } else {
      PackPassed(counts, q, longer, id, cap, before, order, start, now, nowOrder, listed, used);
    }
  }

  lemma OneMorePassed(q: seq<Id>, last: Id, picked: seq<Id>)
    requires Members(q) !! Members([last]) && forall x :: x in picked ==> x in q
    ensures Members(q + [last]) - Members(picked + [last]) == Members(q) - Members(picked)
    ensures Members(q + [last]) - Members(picked) == Members(q) - Members(picked) + {last}
  {
    assert last in Members([last]);
    assert Members(q + [last]) == Members(q) + {last};
  }

  lemma {:induction false} PassedOverIsTheRest(counts: Counts, candidates: seq<Id>, cap: nat)
    requires NoDuplicates(candidates)
    ensures PassedOver(counts, candidates, cap) == Members(candidates) - Members(Greedy(counts, candidates, cap))
    decreases |candidates|
  {
    if candidates != [] {
      var shorter, last := candidates[..|candidates| - 1], candidates[|candidates| - 1];
      assert candidates == shorter + [last];
      SplitDistinct(shorter, [last]);
      PassedOverIsTheRest(counts, shorter, cap);
      GreedyPicks(counts, shorter, cap);
      GreedyStep(counts, candidates, cap, |shorter|);
      assert candidates[..|shorter| + 1] == candidates;
      hide *;
      OneMorePassed(shorter, last, Greedy(counts, shorter, cap));
    }
  }

  /** What the five calls pass over is what the plan leaves out. */
  lemma PartsPassedOver(counts: Counts, budget: nat, mandatory: nat, c: Candidates)
    requires mandatory <= budget && NoDuplicates(AllOf(c))
    ensures var p := PlanFor(counts, budget, mandatory, c);
            var left := budget - mandatory; var left1 := left - Sum(counts, p.provenance);
            var evidenceCap := Min(Share(budget, 20), left1);
            var left2 := left1 - (Sum(counts, p.contradicting) + Sum(counts, p.supporting));
            var left3 := left2 - Sum(counts, p.descendants);
            && 0 <= left1 && 0 <= left2 && 0 <= left3 && Sum(counts, p.contradicting) <= evidenceCap
            && PassedOver(counts, c.provenance, Min(Share(budget, 20), left))
               + PassedOver(counts, c.contradicting, Share(evidenceCap, 25))
               + PassedOver(counts, c.supporting, evidenceCap - Sum(counts, p.contradicting))
               + PassedOver(counts, c.descendants, Min(Share(budget, 10), left2))
               + PassedOver(counts, c.related, Min(Share(budget, 5), left3))
               == Members(AllOf(c)) - Members(Joined(p))
  {
    hide Greedy, Sum, Share, NoDuplicates, PassedOver, Members;
    var p := PlanFor(counts, budget, mandatory, c);
    var left := budget - mandatory;
    var left1 := left - Sum(counts, p.provenance);
    var evidenceCap := Min(Share(budget, 20), left1);
    ShareGrows(evidenceCap, Share(budget, 20), 25);
    var left2 := left1 - (Sum(counts, p.contradicting) + Sum(counts, p.supporting));
    var left3 := left2 - Sum(counts, p.descendants);
    PartsAreDistinct(c);
    PassedOverIsTheRest(counts, c.provenance, Min(Share(budget, 20), left));
    PassedOverIsTheRest(counts, c.contradicting, Share(evidenceCap, 25));
    PassedOverIsTheRest(counts, c.supporting, evidenceCap - Sum(counts, p.contradicting));
    PassedOverIsTheRest(counts, c.descendants, Min(Share(budget, 10), left2));
    PassedOverIsTheRest(counts, c.related, Min(Share(budget, 5), left3));
    RestOfParts(c, p);
  }

  lemma MembersOfAll(c: Candidates)
    ensures Members(AllOf(c)) == Members(c.provenance) + Members(c.contradicting) + Members(c.supporting)
                                 + Members(c.descendants) + Members(c.related)
    ensures AllOf(c) == Joined(Plan(c.provenance, c.contradicting, c.supporting, c.descendants, c.related))
  {
  }

  /** Five packed tiers in turn are the base of the plan. */
  lemma PackedIsBase(mandatory: seq<Id>, seeds: map<Tier, seq<Id>>, c: Candidates, p: Plan, context: Context, order: seq<Id>)
    requires context.included == Members(mandatory) + Members(p.provenance) + Members(p.contradicting)
                                 + Members(p.supporting) + Members(p.descendants) + Members(p.related)
    requires context.tiers == Appended(Appended(Appended(Appended(Appended(seeds, AncestorTier, p.provenance), EvidenceTier,
               p.contradicting), EvidenceTier, p.supporting), DescendantTier, p.descendants), RelatedTier, p.related)
    requires context.overBudget == Members(AllOf(c)) - Members(Joined(p))
    requires order == [] + p.provenance + p.contradicting + p.supporting + p.descendants + p.related
    ensures order == Joined(p) && context == BaseOf(mandatory, seeds, c, p)
  {
    hide Appended;
    assert [] + p.provenance == p.provenance;
    assert Members(Joined(p)) == Members(p.provenance) + Members(p.contradicting) + Members(p.supporting)
                                 + Members(p.descendants) + Members(p.related);
  }

  lemma RestOfParts(c: Candidates, p: Plan)
    requires Members(c.provenance) !! Members(c.contradicting) !! Members(c.supporting) !! Members(c.descendants)
             !! Members(c.related)
    requires Members(p.provenance) <= Members(c.provenance) && Members(p.contradicting) <= Members(c.contradicting)
    requires Members(p.supporting) <= Members(c.supporting) && Members(p.descendants) <= Members(c.descendants)
    requires Members(p.related) <= Members(c.related)
    ensures (Members(c.provenance) - Members(p.provenance)) + (Members(c.contradicting) - Members(p.contradicting))
            + (Members(c.supporting) - Members(p.supporting)) + (Members(c.descendants) - Members(p.descendants))
            + (Members(c.related) - Members(p.related)) == Members(AllOf(c)) - Members(Joined(p))
  {
    assert Members(AllOf(c)) == Members(c.provenance) + Members(c.contradicting) + Members(c.supporting)
                                + Members(c.descendants) + Members(c.related);
    assert Members(Joined(p)) == Members(p.provenance) + Members(p.contradicting) + Members(p.supporting)
                                 + Members(p.descendants) + Members(p.related);
    hide Members;
  }

  // ------------------------------------------------------------------ the builder

  datatype Built = BuiltContext(context: Context, edges: set<Id>, outOfScope: set<Id>) | TooLarge

  /** Exactly the edges between included nodes, and the whole request under the hard limit. */
  ghost predicate FitsHard(limits: Limits, count: Counter, edges: map<Id, Edge>, r: Built)
    requires r.BuiltContext?
  {
    r.edges == Induced(edges, r.context.included) && count(r.context, r.edges) + limits.response + limits.reserve <= limits.hard
  }

  /** Every canvas node is included, over budget or out of scope, and only one of these. */
  ghost predicate Partitioned(nodes: set<Id>, r: Built)
    requires r.BuiltContext?
  {
    r.context.included + r.context.overBudget + r.outOfScope == nodes
    && r.context.included !! r.context.overBudget !! r.outOfScope
  }

  lemma BuiltIsFrozen(nodes: set<Id>, counts: Counts, limits: Limits, count: Counter, edges: map<Id, Edge>,
                      mandatory: seq<Id>, seeds: map<Tier, seq<Id>>, c: Candidates, k: nat, r: Built)
    requires limits.Sane() && WellPosed(nodes, mandatory, c) && Sum(counts, mandatory) <= limits.Budget() && r.BuiltContext?
    requires var p := PlanFor(counts, limits.Budget(), Sum(counts, mandatory), c);
             var base := BaseOf(mandatory, seeds, c, p);
             LargestFit(limits, count, edges, base, Joined(p), k) && r.context == Trimmed(base, Joined(p), k)
    requires r.edges == Induced(edges, r.context.included)
    requires r.outOfScope == nodes - r.context.included - r.context.overBudget
    ensures FitsHard(limits, count, edges, r)
    ensures Members(mandatory) <= r.context.included && Partitioned(nodes, r)
  {
    hide PlanFor, BaseOf, Joined, Members, Trimmed, Induced, WellPosed, AllOf, Partitioned, Sum;
    FrozenPartition(nodes, counts, limits, mandatory, seeds, c, k);
    RestPartitions(nodes, r);
  }

  lemma RestPartitions(nodes: set<Id>, r: Built)
    requires r.BuiltContext? && r.context.included <= nodes && r.context.overBudget <= nodes
    requires r.context.included !! r.context.overBudget && r.outOfScope == nodes - r.context.included - r.context.overBudget
    ensures Partitioned(nodes, r)
  {
  }

  // ------------------------------------------------------------------ what a built context looks like

  /** No edge of the context dangles, and an edge of the canvas is missing only because one of its ends is: it was over
      budget or out of scope. */
  ghost predicate EdgesBetween(nodes: set<Id>, edges: map<Id, Edge>, r: Built)
    requires r.BuiltContext?
  {
    && (forall e :: e in r.edges ==>
          e in edges && edges[e].source in r.context.included && edges[e].target in r.context.included)
    && forall e :: e in edges && e !in r.edges ==>
         && (edges[e].source !in r.context.included || edges[e].target !in r.context.included)
         && (edges[e].source in nodes && edges[e].target in nodes ==>
               edges[e].source in r.context.overBudget + r.outOfScope || edges[e].target in r.context.overBudget + r.outOfScope)
  }

  /** The edges with both ends among these nodes. */
  predicate BothEnds(edges: map<Id, Edge>, included: set<Id>, chosen: set<Id>) {
    && (forall e :: e in chosen ==> e in edges && edges[e].source in included && edges[e].target in included)
    && forall e :: e in edges && edges[e].source in included && edges[e].target in included ==> e in chosen
  }

  /** Too many tokens for the hard limit, with the room for the answer and the fixed reserve. */
  ghost predicate Exceeds(limits: Limits, count: Counter, edges: map<Id, Edge>, c: Context) {
    forall chosen :: BothEnds(edges, c.included, chosen) ==> limits.hard < count(c, chosen) + limits.response + limits.reserve
  }

  /** What is left of the plan when the nodes packed last have been dropped: the start of each tier, and nothing of a
      tier after one that has lost a node. */
  predicate Kept(q: Plan, p: Plan) {
    && q.provenance <= p.provenance && q.contradicting <= p.contradicting && q.supporting <= p.supporting
    && q.descendants <= p.descendants && q.related <= p.related
    && (q.provenance != p.provenance ==> q.contradicting == [])
    && (q.provenance != p.provenance || q.contradicting != p.contradicting ==> q.supporting == [])
    && (q.provenance != p.provenance || q.contradicting != p.contradicting || q.supporting != p.supporting ==> q.descendants == [])
    && (q.provenance != p.provenance || q.contradicting != p.contradicting || q.supporting != p.supporting || q.descendants != p.descendants
        ==> q.related == [])
  }

  function Seeded(seeds: map<Tier, seq<Id>>, tier: Tier): seq<Id> {
    if tier in seeds then seeds[tier] else []
  }

  function PartOf(q: Plan, tier: Tier): seq<Id> {
    match tier
    case SelectedTier => []
    case ConstraintTier => []
    case AncestorTier => q.provenance
    case EvidenceTier => q.contradicting + q.supporting
    case DescendantTier => q.descendants
    case RelatedTier => q.related
  }

  /** Every tier of the manifest lists its seeds and then what of the plan is left for it. */
  ghost predicate Lists(seeds: map<Tier, seq<Id>>, q: Plan, tiers: map<Tier, seq<Id>>) {
    forall tier :: Seeded(tiers, tier) == Seeded(seeds, tier) + PartOf(q, tier)
  }

  ghost predicate SeedsApart(seeds: map<Tier, seq<Id>>, p: Plan) {
    forall t, x :: t in seeds && x in seeds[t] ==> x !in Joined(p)
  }

  lemma InducedHasBothEnds(edges: map<Id, Edge>, included: set<Id>, chosen: set<Id>)
    ensures BothEnds(edges, included, chosen) <==> chosen == Induced(edges, included)
  {
  }

  lemma ExceedsIff(limits: Limits, count: Counter, edges: map<Id, Edge>, c: Context)
    ensures Exceeds(limits, count, edges, c) <==> !Fits(limits, count, edges, c)
  {
    InducedHasBothEnds(edges, c.included, Induced(edges, c.included));
    forall chosen ensures BothEnds(edges, c.included, chosen) <==> chosen == Induced(edges, c.included) {
      InducedHasBothEnds(edges, c.included, chosen);
    }
    hide Induced, BothEnds;
  }

  /** However many of the nodes packed last are dropped. */
  ghost predicate AllExceed(limits: Limits, count: Counter, edges: map<Id, Edge>, base: Context, optional: seq<Id>) {
    forall k :: 0 <= k <= |optional| ==> Exceeds(limits, count, edges, Trimmed(base, optional, k))
  }

  lemma NothingFitsIff(limits: Limits, count: Counter, edges: map<Id, Edge>, base: Context, optional: seq<Id>)
    ensures NothingFits(limits, count, edges, base, optional) <==> AllExceed(limits, count, edges, base, optional)
  {
    hide Fits, Exceeds;
    if NothingFits(limits, count, edges, base, optional) {
      forall k | 0 <= k <= |optional| ensures Exceeds(limits, count, edges, Trimmed(base, optional, k)) {
        ExceedsIff(limits, count, edges, Trimmed(base, optional, k));
      }
    }
    if AllExceed(limits, count, edges, base, optional) {
      forall k | 0 <= k <= |optional| ensures !Fits(limits, count, edges, Trimmed(base, optional, k)) {
        ExceedsIff(limits, count, edges, Trimmed(base, optional, k));
      }
    }
  }

  lemma BudgetIsRest(limits: Limits, mandatory: nat)
    requires limits.Sane()
    ensures limits.Budget() < mandatory <==> limits.hard < mandatory + limits.response + limits.reserve
  {
  }

  lemma EdgesAreBetween(nodes: set<Id>, edges: map<Id, Edge>, r: Built)
    requires r.BuiltContext? && r.edges == Induced(edges, r.context.included) && Partitioned(nodes, r)
    ensures EdgesBetween(nodes, edges, r)
  {
  }

  /** The plan with its last k nodes dropped. */
  function Cut(p: Plan): Plan {
    if p.related != [] then p.(related := p.related[..|p.related| - 1])
    else if p.descendants != [] then p.(descendants := p.descendants[..|p.descendants| - 1])
    else if p.supporting != [] then p.(supporting := p.supporting[..|p.supporting| - 1])
    else if p.contradicting != [] then p.(contradicting := p.contradicting[..|p.contradicting| - 1])
    else if p.provenance != [] then p.(provenance := p.provenance[..|p.provenance| - 1])
    else p
  }

  lemma CutDropsLast(p: Plan, q: Plan)
    requires Kept(q, p) && Joined(q) != []
    ensures Kept(Cut(q), p) && Joined(Cut(q)) == Joined(q)[..|Joined(q)| - 1]
  {
  }

  lemma WithoutAbsent(q: seq<Id>, x: Id)
    requires x !in q
    ensures Without(q, x) == q
  {
  }

  lemma {:induction false} WithoutLast(q: seq<Id>, x: Id)
    requires x !in q
    ensures Without(q + [x], x) == q
    decreases q
  {
    if q == [] {
      assert q + [x] == [x];
    } else {
      assert (q + [x])[1..] == q[1..] + [x];
      WithoutLast(q[1..], x);
    }
  }

  /** The node packed last ends the part of its own tier and occurs in no other. */
  lemma CutPart(q: Plan, x: Id, tier: Tier)
    requires Joined(q) != [] && x == Joined(q)[|Joined(q)| - 1] && NoDuplicates(Joined(q))
    ensures var part, shorter := PartOf(q, tier), PartOf(Cut(q), tier);
            || (part != [] && x == part[|part| - 1] && shorter == part[..|part| - 1] && x !in shorter)
            || (x !in part && shorter == part)
  {
    var rest := Joined(Cut(q));
    CutDropsLast(q, q);
    assert x !in rest;
    InJoined(Cut(q), x);
    hide NoDuplicates, Joined;
  }

  lemma InJoined(q: Plan, x: Id)
    requires x !in Joined(q)
    ensures x !in q.provenance && x !in q.contradicting && x !in q.supporting && x !in q.descendants && x !in q.related
  {
  }

  lemma TierDrop(seeds: map<Tier, seq<Id>>, q: Plan, tiers: map<Tier, seq<Id>>, x: Id, tier: Tier)
    requires Joined(q) != [] && x == Joined(q)[|Joined(q)| - 1] && NoDuplicates(Joined(q)) && x !in Seeded(seeds, tier)
    requires Seeded(tiers, tier) == Seeded(seeds, tier) + PartOf(q, tier)
    ensures Without(Seeded(tiers, tier), x) == Seeded(seeds, tier) + PartOf(Cut(q), tier)
  {
    CutPart(q, x, tier);
    var part := PartOf(q, tier);
    hide Joined, NoDuplicates, Cut, PartOf, Without;
    if x in part {
      assert Seeded(tiers, tier) == (Seeded(seeds, tier) + part[..|part| - 1]) + [x];
      WithoutLast(Seeded(seeds, tier) + part[..|part| - 1], x);
    } else {
      WithoutAbsent(Seeded(tiers, tier), x);
    }
  }

  lemma SeededDrop(c: Context, x: Id, tier: Tier)
    ensures Seeded(Drop(c, x).tiers, tier) == Without(Seeded(c.tiers, tier), x)
  {
    if tier !in c.tiers {
      assert Without([], x) == [];
    }
  }

  lemma ListsDrop(seeds: map<Tier, seq<Id>>, q: Plan, c: Context, x: Id)
    requires Lists(seeds, q, c.tiers) && Joined(q) != [] && x == Joined(q)[|Joined(q)| - 1] && NoDuplicates(Joined(q))
    requires forall tier :: x !in Seeded(seeds, tier)
    ensures Lists(seeds, Cut(q), Drop(c, x).tiers)
  {
    hide Joined, NoDuplicates, Cut, PartOf, Without, Drop, Seeded;
    forall tier ensures Seeded(Drop(c, x).tiers, tier) == Seeded(seeds, tier) + PartOf(Cut(q), tier) {
      SeededDrop(c, x, tier);
      TierDrop(seeds, q, c.tiers, x, tier);
    }
  }

  lemma SeededAppended(tiers: map<Tier, seq<Id>>, tier: Tier, q: seq<Id>, other: Tier)
    ensures Seeded(Appended(tiers, tier, q), other) == Seeded(tiers, other) + if other == tier then q else []
  {
  }

  lemma BaseList(mandatory: seq<Id>, seeds: map<Tier, seq<Id>>, c: Candidates, p: Plan, tier: Tier)
    ensures Seeded(BaseOf(mandatory, seeds, c, p).tiers, tier) == Seeded(seeds, tier) + PartOf(p, tier)
  {
    hide Appended, Seeded, Members, Joined, AllOf;
    var a := Appended(seeds, AncestorTier, p.provenance);
    var b := Appended(a, EvidenceTier, p.contradicting);
    var d := Appended(b, EvidenceTier, p.supporting);
    var e := Appended(d, DescendantTier, p.descendants);
    SeededAppended(seeds, AncestorTier, p.provenance, tier);
    SeededAppended(a, EvidenceTier, p.contradicting, tier);
    SeededAppended(b, EvidenceTier, p.supporting, tier);
    SeededAppended(d, DescendantTier, p.descendants, tier);
    SeededAppended(e, RelatedTier, p.related, tier);
  }

  lemma BaseLists(mandatory: seq<Id>, seeds: map<Tier, seq<Id>>, c: Candidates, p: Plan)
    ensures Lists(seeds, p, BaseOf(mandatory, seeds, c, p).tiers)
  {
    hide BaseOf, Seeded, PartOf;
    forall tier ensures Seeded(BaseOf(mandatory, seeds, c, p).tiers, tier) == Seeded(seeds, tier) + PartOf(p, tier) {
      BaseList(mandatory, seeds, c, p, tier);
    }
  }

  lemma CutOnce(seeds: map<Tier, seq<Id>>, p: Plan, longer: Plan, c: Context, k: nat)
    requires k < |Joined(p)| && NoDuplicates(Joined(p)) && Kept(longer, p) && Joined(longer) == Joined(p)[..k + 1]
    requires SeedsApart(seeds, p) ==> Lists(seeds, longer, c.tiers)
    ensures Kept(Cut(longer), p) && Joined(Cut(longer)) == Joined(p)[..k]
    ensures SeedsApart(seeds, p) ==> Lists(seeds, Cut(longer), Drop(c, Joined(p)[k]).tiers)
  {
    hide Joined, Lists, Cut, Drop, Kept, NoDuplicates;
    assert Joined(p)[..k + 1][..k] == Joined(p)[..k];
    CutDropsLast(p, longer);
    PrefixDistinct(Joined(p), k + 1);
    if SeedsApart(seeds, p) {
      assert Joined(p)[k] in Joined(p);
      ListsDrop(seeds, longer, c, Joined(p)[k]);
    }
  }

  /** Wherever the trimming stops, the plan is cut from its end and the tier lists follow. */
  lemma {:induction false} TrimCuts(mandatory: seq<Id>, seeds: map<Tier, seq<Id>>, c: Candidates, p: Plan, k: nat) returns (q: Plan)
    requires k <= |Joined(p)| && NoDuplicates(Joined(p))
    ensures Kept(q, p) && Joined(q) == Joined(p)[..k]
    ensures SeedsApart(seeds, p) ==> Lists(seeds, q, Trimmed(BaseOf(mandatory, seeds, c, p), Joined(p), k).tiers)
    decreases |Joined(p)| - k
  {
    hide BaseOf, Joined, Lists, Cut, Drop, Kept, NoDuplicates, SeedsApart;
    if k == |Joined(p)| {
      q := p;
      BaseLists(mandatory, seeds, c, p);
      KeptWhole(p);
      assert Joined(p)[..k] == Joined(p);
    } else {
      var longer := TrimCuts(mandatory, seeds, c, p, k + 1);
      q := Cut(longer);
      CutOnce(seeds, p, longer, Trimmed(BaseOf(mandatory, seeds, c, p), Joined(p), k + 1), k);
    }
  }

  lemma KeptWhole(p: Plan)
    ensures Kept(p, p)
  {
  }

  lemma PrefixDistinct(q: seq<Id>, n: nat)
    requires NoDuplicates(q) && n <= |q|
    ensures NoDuplicates(q[..n])
  {
  }

  /** A built context holds the mandatory nodes and what is left of the plan, and its manifest lists them tier by tier in
      the order they were packed. */
  ghost predicate BuiltFrom(mandatory: seq<Id>, seeds: map<Tier, seq<Id>>, p: Plan, r: Built)
    requires r.BuiltContext?
  {
    exists q :: Kept(q, p) && r.context.included == Members(mandatory) + Members(Joined(q))
      && (SeedsApart(seeds, p) ==> Lists(seeds, q, r.context.tiers))
  }

  lemma TrimmedIsBuilt(nodes: set<Id>, counts: Counts, limits: Limits, mandatory: seq<Id>, seeds: map<Tier, seq<Id>>,
                       c: Candidates, k: nat, r: Built)
    requires WellPosed(nodes, mandatory, c) && limits.Sane() && Sum(counts, mandatory) <= limits.Budget() && r.BuiltContext?
    requires var p := PlanFor(counts, limits.Budget(), Sum(counts, mandatory), c);
             k <= |Joined(p)| && r.context == Trimmed(BaseOf(mandatory, seeds, c, p), Joined(p), k)
    ensures BuiltFrom(mandatory, seeds, PlanFor(counts, limits.Budget(), Sum(counts, mandatory), c), r)
  {
    var p := PlanFor(counts, limits.Budget(), Sum(counts, mandatory), c);
    assert NoDuplicates(AllOf(c));
    hide *;
    PlanPicks(counts, limits.Budget(), Sum(counts, mandatory), c);
    FrozenPartition(nodes, counts, limits, mandatory, seeds, c, k);
    var q := TrimCuts(mandatory, seeds, c, p, k);
    IsBuiltFrom(mandatory, seeds, p, r, q);
  }

  lemma IsBuiltFrom(mandatory: seq<Id>, seeds: map<Tier, seq<Id>>, p: Plan, r: Built, q: Plan)
    requires r.BuiltContext? && Kept(q, p) && r.context.included == Members(mandatory) + Members(Joined(q))
    requires SeedsApart(seeds, p) ==> Lists(seeds, q, r.context.tiers)
    ensures BuiltFrom(mandatory, seeds, p, r)
  {
    hide Kept, Lists, Joined, SeedsApart;
  }

  // ------------------------------------------------------------------ what the plan takes

  /** Later candidates only add to what was taken. */
  lemma {:induction false} GreedyOnlyAdds(counts: Counts, candidates: seq<Id>, cap: nat, i: nat)
    requires i <= |candidates|
    ensures Greedy(counts, candidates[..i], cap) <= Greedy(counts, candidates, cap)
    decreases |candidates|
  {
    if i < |candidates| {
      var shorter := candidates[..|candidates| - 1];
      assert shorter[..i] == candidates[..i];
      GreedyOnlyAdds(counts, shorter, cap, i);
    } else {
      assert candidates[..i] == candidates;
    }
  }

  /** The caps in plain numbers: a fifth of the budget for ancestors and for evidence, a quarter of the evidence part
      for contradictions, a tenth for descendants, a twentieth for related nodes, and never more than is left. */
  lemma PlanTakesFirstFits(counts: Counts, budget: nat, mandatory: nat, c: Candidates)
    requires mandatory <= budget
    ensures var p := PlanFor(counts, budget, mandatory, c);
            var ancestors := mandatory + Sum(counts, p.provenance);
            var evidence := ancestors + Sum(counts, p.contradicting) + Sum(counts, p.supporting);
            var descendants := evidence + Sum(counts, p.descendants);
            && ancestors <= evidence <= descendants <= budget
            && p.provenance == Greedy(counts, c.provenance, if budget / 5 < budget - mandatory then budget / 5 else budget - mandatory)
            && (var cap := if budget / 5 < budget - ancestors then budget / 5 else budget - ancestors;
                && Sum(counts, p.contradicting) <= cap && p.contradicting == Greedy(counts, c.contradicting, cap / 4)
                && p.supporting == Greedy(counts, c.supporting, cap - Sum(counts, p.contradicting)))
            && p.descendants == Greedy(counts, c.descendants, if budget / 10 < budget - evidence then budget / 10 else budget - evidence)
            && p.related == Greedy(counts, c.related, if budget / 20 < budget - descendants then budget / 20 else budget - descendants)
  {
    hide Greedy, Sum, Share, Weigh, Members, NoDuplicates;
    var p := PlanFor(counts, budget, mandatory, c);
    Percent(budget);
    Percent(Min(Share(budget, 20), budget - mandatory - Sum(counts, p.provenance)));
  }

  lemma Percent(n: nat)
    ensures Share(n, 20) == n / 5 && Share(n, 25) == n / 4 && Share(n, 10) == n / 10 && Share(n, 5) == n / 20
  {
  }

  class ContextBuilder {
    const counts: Counts
    const edges: map<Id, Edge>
    const limits: Limits
    const count: Counter
    var context: Context
    var optionalOrder: seq<Id>

    constructor (tokenCounts: Counts, canvasEdges: map<Id, Edge>, inputLimits: Limits, counter: Counter)
      ensures counts == tokenCounts && edges == canvasEdges && limits == inputLimits && count == counter
    {
      counts, edges, limits, count := tokenCounts, canvasEdges, inputLimits, counter;
      context, optionalOrder := Context({}, map[], {}), [];
    }

    /** One tier: what fits the cap in rank order is included, the rest is over budget. */
    method Pack(tier: Tier, candidates: seq<Id>, cap: nat) returns (used: nat)
      modifies this`context, this`optionalOrder
      ensures used == Sum(counts, Picked(counts, candidates, cap)) <= cap
      ensures optionalOrder == old(optionalOrder) + Picked(counts, candidates, cap)
      ensures context == Context(old(context.included) + Members(Picked(counts, candidates, cap)),
                                 Appended(old(context.tiers), tier, Picked(counts, candidates, cap)),
                                 old(context.overBudget) + PassedOver(counts, candidates, cap))
    {
      used := 0;
      ghost var before, order := context, optionalOrder;
      var listed := if tier in context.tiers then context.tiers[tier] else [];
      ghost var start := listed;
      NothingPacked(counts, candidates, cap, before, order, listed);
      hide *;
      for i := 0 to |candidates|
        invariant PackedSoFar(counts, candidates[..i], cap, before, order, start, context, optionalOrder, listed, used)
      {
        var id := candidates[i];
        PackOne(counts, candidates, cap, i, before, order, start, context, optionalOrder, listed, used);
        if Weigh(counts, id) + used <= cap {
          listed := listed + [id];
          context := context.(included := context.included + {id});
          optionalOrder := optionalOrder + [id];
          used := used + Weigh(counts, id);
        } else {
          context := context.(overBudget := context.overBudget + {id});
        }
      }
      assert candidates[..|candidates|] == candidates;
      PackedTier(counts, candidates, cap, before, order, start, context, optionalOrder, listed, used, tier);
      context := context.(tiers := context.tiers[tier := listed]);
    }

    /** Everything before the trim loop. */
    method PackTiers(mandatory: seq<Id>, seeds: map<Tier, seq<Id>>, candidates: Candidates, mandatoryCount: nat)
      requires limits.Sane() && mandatoryCount <= limits.Budget()
      requires NoDuplicates(AllOf(candidates))
      modifies this`context, this`optionalOrder
      ensures var p := PlanFor(counts, limits.Budget(), mandatoryCount, candidates);
              optionalOrder == Joined(p) && context == BaseOf(mandatory, seeds, candidates, p)
    {
      hide Greedy, Sum, Share, Appended, PassedOver, NoDuplicates, BaseOf, Joined, Members;
      var budget := limits.Budget();
      context, optionalOrder := Context(Members(mandatory), seeds, {}), [];
      var left := budget - mandatoryCount;
      var used := Pack(AncestorTier, candidates.provenance, Min(Share(budget, 20), left));
      left := left - used;
      var evidenceCap := Min(Share(budget, 20), left);
      ShareGrows(evidenceCap, Share(budget, 20), 25);
      var contradictionUsed := Pack(EvidenceTier, candidates.contradicting, Share(evidenceCap, 25));
      var supportingUsed := Pack(EvidenceTier, candidates.supporting, evidenceCap - contradictionUsed);
      left := left - (contradictionUsed + supportingUsed);
      used := Pack(DescendantTier, candidates.descendants, Min(Share(budget, 10), left));
      left := left - used;
      used := Pack(RelatedTier, candidates.related, Min(Share(budget, 5), left));
      ghost var p := PlanFor(counts, budget, mandatoryCount, candidates);
      PartsPassedOver(counts, budget, mandatoryCount, candidates);
      PackedIsBase(mandatory, seeds, candidates, p, context, optionalOrder);
    }

    /** The trim loop: drop the optional node packed last until the request fits or none is left. */
    method Trim() returns (fits: bool)
      modifies this`context, this`optionalOrder
      ensures |optionalOrder| <= |old(optionalOrder)| && optionalOrder == old(optionalOrder)[..|optionalOrder|]
      ensures context == Trimmed(old(context), old(optionalOrder), |optionalOrder|)
      ensures fits <==> LargestFit(limits, count, edges, old(context), old(optionalOrder), |optionalOrder|)
      ensures !fits <==> NothingFits(limits, count, edges, old(context), old(optionalOrder))
    {
      ghost var base, optional := context, optionalOrder;
      hide Drop;
      while !Fits(limits, count, edges, context) && optionalOrder != []
        invariant |optionalOrder| <= |optional| && optionalOrder == optional[..|optionalOrder|]
        invariant context == Trimmed(base, optional, |optionalOrder|)
        invariant forall j :: |optionalOrder| < j <= |optional| ==> !Fits(limits, count, edges, Trimmed(base, optional, j))
        decreases |optionalOrder|
      {
        var removed := optionalOrder[|optionalOrder| - 1];
        optionalOrder := optionalOrder[..|optionalOrder| - 1];
        context := Drop(context, removed);
      }
      return Fits(limits, count, edges, context);
    }

    /** A built context is the largest prefix of the packing order that fits under the hard limit; there is
        none exactly when the mandatory nodes alone exceed the budget or nothing fits. */
    method Build(nodes: set<Id>, mandatory: seq<Id>, seeds: map<Tier, seq<Id>>, candidates: Candidates) returns (r: Built)
      requires limits.Sane() && WellPosed(nodes, mandatory, candidates)
      modifies this`context, this`optionalOrder
      ensures r.TooLarge? <==>
        || limits.hard < Sum(counts, mandatory) + limits.response + limits.reserve
        || (var p := PlanFor(counts, limits.Budget(), Sum(counts, mandatory), candidates);
            AllExceed(limits, count, edges, BaseOf(mandatory, seeds, candidates, p), Joined(p)))
      ensures r.BuiltContext? ==>
        var p := PlanFor(counts, limits.Budget(), Sum(counts, mandatory), candidates);
        var base := BaseOf(mandatory, seeds, candidates, p);
        && LargestFit(limits, count, edges, base, Joined(p), |optionalOrder|)
        && r.context == Trimmed(base, Joined(p), |optionalOrder|)
        && FitsHard(limits, count, edges, r)
      ensures r.BuiltContext? ==>
        BuiltFrom(mandatory, seeds, PlanFor(counts, limits.Budget(), Sum(counts, mandatory), candidates), r)
      ensures r.BuiltContext? ==>
        Members(mandatory) <= r.context.included && Partitioned(nodes, r) && EdgesBetween(nodes, edges, r)
    {
      var mandatoryCount := Sum(counts, mandatory);
      assert NoDuplicates(AllOf(candidates));
      hide *;
      BudgetIsRest(limits, mandatoryCount);
      if mandatoryCount > limits.Budget() { return TooLarge; }
      PackTiers(mandatory, seeds, candidates, mandatoryCount);
      NothingFitsIff(limits, count, edges, context, optionalOrder);
      var fits := Trim();
      if !fits { return TooLarge; }
      r := BuiltContext(context, Induced(edges, context.included), nodes - context.included - context.overBudget);
      BuiltIsFrozen(nodes, counts, limits, count, edges, mandatory, seeds, candidates, |optionalOrder|, r);
      EdgesAreBetween(nodes, edges, r);
      TrimmedIsBuilt(nodes, counts, limits, mandatory, seeds, candidates, |optionalOrder|, r);
    }
  }
}

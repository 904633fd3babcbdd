/** The remaining searches - closest successor roots for cloned constraints, and cycle-safe
    semantic ancestors - and the proof that all searches agree. */
module SearchAgreement {
  import opened Reachability
  import opened GraphTypes
  import opened Ordering
  import GraphSearch
  import opened Traversal

  // ------------------------------------------------------------------ constraint clones

  /** The waiting part of the queue is ordered by distance and spans at most one level. */
  ghost predicate WithinOneLevel(distances: map<Id, nat>, waiting: seq<Id>) {
    && (forall x :: x in waiting ==> x in distances)
    && (forall j, k :: 0 <= j < k < |waiting| ==> distances[waiting[j]] <= distances[waiting[k]])
    && (waiting != [] ==> forall y :: y in distances ==> distances[y] <= distances[waiting[0]] + 1)
  }

  ghost predicate DistancesSound(rel: Relation, anchor: Id, distances: map<Id, nat>) {
    forall y {:trigger Walk(rel, anchor, y, distances[y])} :: y in distances ==> Walk(rel, anchor, y, distances[y])
  }

  lemma {:induction false} DistanceBound(rel: Relation, anchor: Id, distances: map<Id, nat>, y: Id, n: nat)
    requires anchor in distances && distances[anchor] == 0
    requires forall x, z :: x in distances && (x, z) in rel ==> z in distances && distances[z] <= distances[x] + 1
    requires Walk(rel, anchor, y, n)
    ensures y in distances && distances[y] <= n
    decreases n
  {
    if n > 0 {
      var z :| Walk(rel, anchor, z, n - 1) && (z, y) in rel;
      DistanceBound(rel, anchor, distances, z, n - 1);
    }
  }

  ghost predicate ExactDistances(rel: Relation, anchor: Id, distances: map<Id, nat>) {
    && (forall y {:trigger y in distances} :: y in distances <==> Reaches(rel, anchor, y))
    && (forall y {:trigger distances[y]} :: y in distances ==> ShortestDistance(rel, {anchor}, y, distances[y]))
  }

  lemma DistancesExact(rel: Relation, anchor: Id, distances: map<Id, nat>)
    requires anchor in distances && distances[anchor] == 0 && DistancesSound(rel, anchor, distances)
    requires forall x, z :: x in distances && (x, z) in rel ==> z in distances && distances[z] <= distances[x] + 1
    ensures ExactDistances(rel, anchor, distances)
  {
    forall y, n: nat | Level(rel, {anchor}, y, n) ensures y in distances && distances[y] <= n {
      var x :| x in {anchor} && Walk(rel, x, y, n);
      DistanceBound(rel, anchor, distances, y, n);
    }
    forall y | y in distances ensures Reaches(rel, anchor, y) && Level(rel, {anchor}, y, distances[y]) {
      assert Walk(rel, anchor, y, distances[y]);
      assert anchor in {anchor};
    }
    forall y | Reaches(rel, anchor, y) ensures y in distances {
      var n: nat :| Walk(rel, anchor, y, n);
      assert anchor in {anchor};
      assert Level(rel, {anchor}, y, n);
    }
  }

  /** Every node of the first kind is settled: its children are at most one step further. */
  ghost predicate Settled(rel: Relation, distances: map<Id, nat>, done: set<Id>) {
    forall x, z :: x in done && (x, z) in rel ==> x in distances && z in distances && distances[z] <= distances[x] + 1
  }

  ghost predicate Exploring(rel: Relation, anchor: Id, distances: map<Id, nat>, queue: seq<Id>, done: set<Id>) {
    && anchor in distances && distances[anchor] == 0
    && WithinOneLevel(distances, queue) && DistancesSound(rel, anchor, distances)
    && Settled(rel, distances, done) && forall x :: x in distances ==> x in done || x in queue
  }

  /** Each node is queued once, on first discovery, in order of distance. */
  method AnchorDistances(adjacency: map<Id, set<Id>>, anchor: Id, ghost rel: Relation)
    returns (distances: map<Id, nat>)
    requires forall x, y :: y in GraphSearch.Children(adjacency, x) <==> (x, y) in rel
    ensures ExactDistances(rel, anchor, distances)
  {
    hide *;
    distances := map[anchor := 0];
    var queue := [anchor];
    ghost var done := {};
    ExploringStart(rel, anchor);
    while queue != []
      invariant Exploring(rel, anchor, distances, queue, done)
      decreases |Heads(rel) - distances.Keys|, |queue|
    {
      var current := queue[0];
      ExploringHead(rel, anchor, distances, queue, done);
      var children := GraphSearch.Children(adjacency, current);
      ghost var before, waiting := distances, queue;
      var added;
      distances, added := Extend(children, distances, current);
      queue := queue[1..] + added;
      LevelKept(rel, anchor, before, waiting, distances, added, children, done);
      GraphSearch.FewerUnvisited(rel, before.Keys, children);
      done := done + {current};
    }
    ExploringEnd(rel, anchor, distances, done);
  }

  lemma ExploringStart(rel: Relation, anchor: Id)
    ensures Exploring(rel, anchor, map[anchor := 0], [anchor], {})
  {
    assert Walk(rel, anchor, anchor, 0);
  }

  lemma ExploringHead(rel: Relation, anchor: Id, distances: map<Id, nat>, queue: seq<Id>, done: set<Id>)
    requires queue != [] && Exploring(rel, anchor, distances, queue, done)
    ensures queue[0] in distances
  {
    assert queue[0] in queue;
  }

  lemma ExploringEnd(rel: Relation, anchor: Id, distances: map<Id, nat>, done: set<Id>)
    requires Exploring(rel, anchor, distances, [], done)
    ensures ExactDistances(rel, anchor, distances)
  {
    DistancesExact(rel, anchor, distances);
  }

  method Extend(children: set<Id>, distances: map<Id, nat>, current: Id)
    returns (distances': map<Id, nat>, added: seq<Id>)
    requires current in distances
    ensures distances'.Keys == distances.Keys + children
    ensures forall x :: x in distances' ==>
      distances'[x] == if x in distances then distances[x] else distances[current] + 1
    ensures forall y :: y in added <==> y in children && y !in distances
  {
    distances', added := distances, [];
    var next := Sorted(children);
    for k := 0 to |next|
      invariant forall x :: x in distances' <==> x in distances || x in next[..k]
      invariant forall x :: x in distances' ==>
        distances'[x] == if x in distances then distances[x] else distances[current] + 1
      invariant forall y :: y in added <==> y in next[..k] && y !in distances
    {
      assert next[..k + 1] == next[..k] + [next[k]];
      if next[k] in distances' {
        continue;
      }
      distances' := distances'[next[k] := distances'[current] + 1];
      added := added + [next[k]];
    }
    assert next[..|next|] == next;
  }

  /** The children of x one step further than x, everything else as before. */
  ghost predicate Extended(rel: Relation, before: map<Id, nat>, x: Id, after: map<Id, nat>, children: set<Id>) {
    && x in before && (forall y :: y in children <==> (x, y) in rel)
    && after.Keys == before.Keys + children
    && forall y :: y in after ==> after[y] == if y in before then before[y] else before[x] + 1
  }

  lemma ExtendedSettles(rel: Relation, before: map<Id, nat>, x: Id, after: map<Id, nat>, children: set<Id>, done: set<Id>)
    requires Extended(rel, before, x, after, children) && Settled(rel, before, done)
    requires forall y :: y in before ==> before[y] <= before[x] + 1
    ensures Settled(rel, after, done + {x})
  {
  }

  lemma ExtendedIsSound(rel: Relation, anchor: Id, before: map<Id, nat>, x: Id, after: map<Id, nat>, children: set<Id>)
    requires Extended(rel, before, x, after, children) && DistancesSound(rel, anchor, before)
    ensures DistancesSound(rel, anchor, after)
  {
    forall y | y in after ensures Walk(rel, anchor, y, after[y]) {
      if y in before {
        assert Walk(rel, anchor, y, before[y]);
      } else {
        assert Walk(rel, anchor, x, before[x]) && (x, y) in rel;
        assert Walk(rel, anchor, y, before[x] + 1);
      }
    }
  }

  lemma LevelKept(rel: Relation, anchor: Id, before: map<Id, nat>, queue: seq<Id>, after: map<Id, nat>,
                  added: seq<Id>, children: set<Id>, done: set<Id>)
    requires queue != [] && Exploring(rel, anchor, before, queue, done)
    requires forall y :: y in children <==> (queue[0], y) in rel
    requires after.Keys == before.Keys + children
    requires forall x :: x in after ==> after[x] == if x in before then before[x] else before[queue[0]] + 1
    requires forall y :: y in added <==> y in children && y !in before
    ensures Exploring(rel, anchor, after, queue[1..] + added, done + {queue[0]})
    ensures children <= before.Keys ==> after.Keys == before.Keys && added == []
  {
    hide Walk, Settled, DistancesSound, WithinOneLevel;
    HeadWaits(before, queue);
    ExtendedSettles(rel, before, queue[0], after, children, done);
    ExtendedIsSound(rel, anchor, before, queue[0], after, children);
    ExtendedInOrder(rel, before, queue, after, added, children);
    SplitHead(queue);
    assert added != [] ==> added[0] in added;
  }

  lemma HeadWaits(distances: map<Id, nat>, queue: seq<Id>)
    requires queue != [] && WithinOneLevel(distances, queue)
    ensures queue[0] in distances && forall y :: y in distances ==> distances[y] <= distances[queue[0]] + 1
  {
    assert queue[0] in queue;
  }

  lemma ExtendedInOrder(rel: Relation, before: map<Id, nat>, queue: seq<Id>, after: map<Id, nat>, added: seq<Id>,
                        children: set<Id>)
    requires queue != [] && WithinOneLevel(before, queue) && Extended(rel, before, queue[0], after, children)
    requires forall y :: y in added <==> y in children && y !in before
    ensures WithinOneLevel(after, queue[1..] + added)
  {
    HeadWaits(before, queue);
    var tail, d := queue[1..], before[queue[0]];
    forall i | 0 <= i < |tail| ensures tail[i] in before && d <= before[tail[i]] <= d + 1 {
      assert tail[i] == queue[i + 1] && queue[i + 1] in queue;
    }
    forall i | 0 <= i < |added| ensures added[i] in after && after[added[i]] == d + 1 {
      assert added[i] in added;
    }
    TailThenAdded(before, after, tail, added, d);
  }

  lemma TailThenAdded(before: map<Id, nat>, after: map<Id, nat>, tail: seq<Id>, added: seq<Id>, d: nat)
    requires forall i, j :: 0 <= i < j < |tail| ==> tail[i] in before && tail[j] in before && before[tail[i]] <= before[tail[j]]
    requires forall i :: 0 <= i < |tail| ==> tail[i] in before && d <= before[tail[i]] <= d + 1
    requires forall i :: 0 <= i < |added| ==> added[i] in after && after[added[i]] == d + 1
    requires before.Keys <= after.Keys && forall y :: y in after ==> after[y] <= d + 1 && (y in before ==> after[y] == before[y])
    ensures WithinOneLevel(after, tail + added)
  {
    var waiting := tail + added;
    forall i | 0 <= i < |waiting| ensures waiting[i] in after && d <= after[waiting[i]] {
      assert waiting[i] == if i < |tail| then tail[i] else added[i - |tail|];
    }
    forall i, j | 0 <= i < j < |waiting| ensures after[waiting[i]] <= after[waiting[j]] {
      assert waiting[i] == if i < |tail| then tail[i] else added[i - |tail|];
      assert waiting[j] == if j < |tail| then tail[j] else added[j - |tail|];
    }
  }

  /** The targets an anchor reaches at the least distance among all targets it reaches. */
  ghost predicate Closest(rel: Relation, anchor: Id, targets: set<Id>, t: Id) {
    && t in targets && Reaches(rel, anchor, t)
    && (forall u, d: nat, e: nat ::
          u in targets && ShortestDistance(rel, {anchor}, t, d) && ShortestDistance(rel, {anchor}, u, e) ==> d <= e)
  }

  /** One anchored constraint is cloned once per closest regenerated root; no root in reach is an error. */
  method CloneTargets(adjacency: map<Id, set<Id>>, anchor: Id, targets: set<Id>, ghost rel: Relation)
    returns (r: Option<set<Id>>)
    requires forall x, y :: y in GraphSearch.Children(adjacency, x) <==> (x, y) in rel
    ensures r.None? <==> forall t :: t in targets ==> !Reaches(rel, anchor, t)
    ensures r.Some? ==> r.value != {} && forall t :: t in r.value <==> Closest(rel, anchor, targets, t)
  {
    hide ShortestDistance, Reaches, Closest;
    var distances := AnchorDistances(adjacency, anchor, rel);
    var reachable := set t | t in targets && t in distances;
    if reachable == {} {
      assert forall t :: t in targets ==> t !in reachable;
      return None;
    }
    var best :| best in reachable;
    var order := Sorted(reachable);
    for i := 0 to |order|
      invariant best in reachable
      invariant forall j :: 0 <= j < i ==> distances[best] <= distances[order[j]]
    {
      if distances[order[i]] < distances[best] {
        best := order[i];
      }
    }
    var minimum := distances[best];
    forall u | u in reachable ensures minimum <= distances[u] {
      assert u in order;
    }
    var closest := set t | t in reachable && distances[t] == minimum;
    ClosestByDistance(rel, anchor, targets, distances, minimum, best);
    assert best in closest;
    return Some(closest);
  }

  lemma ShortestUnique(rel: Relation, roots: set<Id>, y: Id, d: nat, e: nat)
    requires ShortestDistance(rel, roots, y, d) && ShortestDistance(rel, roots, y, e)
    ensures d == e
  {
    assert Level(rel, roots, y, d) && Level(rel, roots, y, e);
  }

  lemma ClosestByDistance(rel: Relation, anchor: Id, targets: set<Id>, distances: map<Id, nat>, minimum: nat, best: Id)
    requires ExactDistances(rel, anchor, distances)
    requires best in targets && best in distances && distances[best] == minimum
    requires forall u :: u in targets && u in distances ==> minimum <= distances[u]
    ensures forall t :: Closest(rel, anchor, targets, t) <==> t in targets && t in distances && distances[t] == minimum
  {
    forall u, e: nat | ShortestDistance(rel, {anchor}, u, e) ensures u in distances && distances[u] == e {
      var x :| x in {anchor} && Walk(rel, x, u, e);
      assert Reaches(rel, anchor, u);
      ShortestUnique(rel, {anchor}, u, e, distances[u]);
    }
    forall t | Closest(rel, anchor, targets, t) ensures distances[t] == minimum {
      assert ShortestDistance(rel, {anchor}, t, distances[t]) && ShortestDistance(rel, {anchor}, best, minimum);
    }
  }

  // ------------------------------------------------------------------ semantic ancestors

  /** Every strict ancestor of the node except the node itself, cycles included. The work list may
      hold a node more than once; it is skipped when popped again. */
  method SemanticAncestors(parents: map<Id, set<Id>>, node: Id, ghost rel: Relation) returns (visited: set<Id>)
    requires forall x, y :: y in GraphSearch.Children(parents, x) <==> (y, x) in rel
    ensures forall x :: x in visited <==> x != node && Reaches(rel, x, node)
  {
    hide *;
    visited := {};
    var pending := Sorted(GraphSearch.Children(parents, node));
    ReachesSelf(rel, node);
    ParentsReach(rel, node, node, GraphSearch.Children(parents, node));
    while pending != []
      invariant node !in visited && visited <= Heads(Converse(rel))
      invariant forall x :: x in pending ==> x in Heads(Converse(rel))
      invariant forall x :: x in visited || x in pending ==> Reaches(rel, x, node)
      invariant forall x, y :: (y == node || y in visited) && (x, y) in rel ==> x == node || x in visited || x in pending
      decreases |Heads(Converse(rel)) - visited|, |pending|
    {
      var current := pending[0];
      SplitHead(pending);
      pending := pending[1..];
      if current == node || current in visited {
        continue;
      }
      ghost var before := visited;
      visited := visited + {current};
      ParentsReach(rel, current, node, GraphSearch.Children(parents, current));
      var more := Sorted(GraphSearch.Children(parents, current) - visited);
      pending := pending + more;
      SubsetSmaller(Heads(Converse(rel)) - visited, Heads(Converse(rel)) - before);
    }
    AncestorsClosed(rel, node, visited);
  }

  lemma ParentsReach(rel: Relation, x: Id, node: Id, parents: set<Id>)
    requires Reaches(rel, x, node) && forall y :: y in parents ==> (y, x) in rel
    ensures forall y :: y in parents ==> Reaches(rel, y, node) && y in Heads(Converse(rel))
  {
    forall y | y in parents ensures Reaches(rel, y, node) && y in Heads(Converse(rel)) {
      ReachesHeadStep(rel, y, x, node);
      assert (x, y) in Converse(rel);
    }
  }

  lemma AncestorsClosed(rel: Relation, node: Id, visited: set<Id>)
    requires forall x, y :: (y == node || y in visited) && (x, y) in rel ==> x == node || x in visited
    ensures forall x :: Reaches(rel, x, node) && x != node ==> x in visited
  {
    forall x | Reaches(rel, x, node) && x != node ensures x in visited {
      ConverseReaches(rel, x, node);
      ClosedReaches(Converse(rel), node, x, iset u | u == node || u in visited);
    }
  }

  // ------------------------------------------------------------------ agreement

  /** Ancestors and invalidated dependents are exact converses, and both are the nodes a
      traversal labels, forwards or backwards. */
  lemma SearchesAgree(rel: Relation, adjacency: Adjacency, ranks: map<Id, Rank>, distances: map<Id, nat>, x: Id, y: Id)
    requires Arcs(adjacency) == rel && ExactRanks(adjacency, {x}, ranks) && ExactDistances(rel, x, distances)
    ensures y in ranks <==> y in Dependents(rel, {x}, true, {})
    ensures y in ranks <==> y in distances
    ensures y in ranks ==> ranks[y].distance == distances[y]
    ensures x != y ==> (y in Dependents(rel, {x}, false, {}) <==> x in Dependents(Converse(rel), {y}, false, {}))
    ensures x != y ==> (y in Dependents(rel, {x}, false, {}) <==> Reaches(rel, x, y))
  {
    hide BestRank, Arcs, Reaches, ShortestDistance;
    SingleRoot(rel, x, y);
    SingleRoot(Converse(rel), y, x);
    ConverseReaches(rel, x, y);
    if y in ranks {
      DistancesAgree(rel, adjacency, x, y, ranks[y], distances[y]);
    }
  }

  lemma DistancesAgree(rel: Relation, adjacency: Adjacency, x: Id, y: Id, rank: Rank, distance: nat)
    requires Arcs(adjacency) == rel && BestRank(adjacency, {x}, y, rank) && ShortestDistance(rel, {x}, y, distance)
    ensures rank.distance == distance
  {
    hide Arcs;
    ShortestUnique(rel, {x}, y, rank.distance, distance);
  }

  lemma SingleRoot(rel: Relation, x: Id, y: Id)
    ensures ReachedFrom(rel, {x}, y) <==> Reaches(rel, x, y)
  {
    if Reaches(rel, x, y) {
      assert x in {x};
    }
  }

  /** The forward and reverse arc lists of a context cover exactly the dependency pairs and their converse. */
  method BuildArcs(edges: map<Id, Edge>) returns (forward: Adjacency, reverse: Adjacency)
    ensures Arcs(forward) == Dependencies(edges) && Arcs(reverse) == Converse(Dependencies(edges))
  {
    hide PairOf, Arcs, Append;
    AppendedNone();
    forward, reverse := map[], map[];
    var rows := Sorted(edges.Keys);
    ghost var pairs: Relation := {};
    for i := 0 to |rows|
      invariant Arcs(forward) == pairs && Arcs(reverse) == Converse(pairs) && pairs <= Dependencies(edges)
      invariant forall j :: 0 <= j < i ==> PairOf(edges[rows[j]]) in pairs
    {
      var edge := edges[rows[i]];
      var (ancestor, descendant) := PairOf(edge);
      AppendedArc(forward, ancestor, Arc(descendant, edge.kind));
      AppendedArc(reverse, descendant, Arc(ancestor, edge.kind));
      forward, reverse := Append(forward, ancestor, Arc(descendant, edge.kind)),
        Append(reverse, descendant, Arc(ancestor, edge.kind));
      pairs := pairs + {(ancestor, descendant)};
    }
    forall p | p in Dependencies(edges) ensures p in pairs {
      var e :| e in edges && PairOf(edges[e]) == p;
      assert e in rows;
    }
  }

  function Append(adjacency: Adjacency, x: Id, arc: Arc): Adjacency {
    adjacency[x := (if x in adjacency then adjacency[x] else []) + [arc]]
  }

  lemma AppendedNone()
    ensures Arcs(map[]) == {} && Converse({}) == {}
  {
  }

  lemma AppendedArc(adjacency: Adjacency, x: Id, arc: Arc)
    ensures Arcs(Append(adjacency, x, arc)) == Arcs(adjacency) + {(x, arc.to)}
  {
    var more := Append(adjacency, x, arc);
    forall p | p in Arcs(more) ensures p in Arcs(adjacency) + {(x, arc.to)} {
      var u, a :| HasArc(more, u, a) && p == (u, a.to);
      assert HasArc(adjacency, u, a) || (u == x && a == arc);
    }
    forall p | p in Arcs(adjacency) + {(x, arc.to)} ensures p in Arcs(more) {
      if p == (x, arc.to) {
        assert HasArc(more, x, arc);
      } else {
        var u, a :| HasArc(adjacency, u, a) && p == (u, a.to);
        assert HasArc(more, u, a);
      }
    }
  }
}

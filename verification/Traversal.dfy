/** The labelled breadth-first traversal behind generation contexts. A node whose label improves
    is queued again, so both termination and the meaning of the final labels need proof. */
module Traversal {
  import opened Reachability
  import opened GraphTypes
  import opened Ordering

  datatype Arc = Arc(to: Id, kind: EdgeKind)
  type Adjacency = map<Id, seq<Arc>>

  datatype Rank = Rank(distance: nat, relevance: nat)

  const ROOT_RELEVANCE := 99

  function Relevance(kind: EdgeKind): (r: nat)
    ensures 1 <= r <= 7
  {
    match kind
    case Contradicts => 7
    case ExtractedFrom => 6
    case Supports => 5
    case ConstrainedBy => 4
    case DerivedFrom => 3
    case EvolvesInto => 2
    case RequiresValidation => 1
  }

  predicate NoWorse(existing: Rank, candidate: Rank) {
    existing.distance < candidate.distance
    || (existing.distance == candidate.distance && existing.relevance >= candidate.relevance)
  }

  function Through(rank: Rank, arc: Arc): Rank {
    Rank(rank.distance + 1, Relevance(arc.kind))
  }

  predicate HasArc(adjacency: Adjacency, x: Id, arc: Arc) {
    x in adjacency && arc in adjacency[x]
  }

  ghost function Arcs(adjacency: Adjacency): (rel: Relation)
    ensures forall x, arc :: HasArc(adjacency, x, arc) ==> (x, arc.to) in rel
  {
    set x, arc | x in adjacency && arc in adjacency[x] :: (x, arc.to)
  }

  // ------------------------------------------------------------------ what a label means

  /** Some root reaches y in exactly n steps. */
  ghost predicate Level(rel: Relation, roots: set<Id>, y: Id, n: nat) {
    exists x :: x in roots && Walk(rel, x, y, n)
  }

  ghost predicate ShortestDistance(rel: Relation, roots: set<Id>, y: Id, d: nat) {
    Level(rel, roots, y, d) && forall n: nat :: Level(rel, roots, y, n) ==> d <= n
  }

  /** The label names the last arc of a walk of its length from a root. */
  ghost predicate Sound(adjacency: Adjacency, roots: set<Id>, y: Id, rank: Rank) {
    if rank.distance == 0 then y in roots && rank.relevance == ROOT_RELEVANCE
    else exists x, arc :: HasArc(adjacency, x, arc) && arc.to == y
           && Level(Arcs(adjacency), roots, x, rank.distance - 1) && Relevance(arc.kind) == rank.relevance
  }

  ghost predicate Relaxed(adjacency: Adjacency, ranks: map<Id, Rank>, x: Id)
    requires x in ranks
  {
    forall arc :: HasArc(adjacency, x, arc) ==>
      arc.to in ranks && NoWorse(ranks[arc.to], Through(ranks[x], arc))
  }

  /** Shortest distance from the roots and, at that distance, the most relevant last edge. */
  ghost predicate BestRank(adjacency: Adjacency, roots: set<Id>, y: Id, rank: Rank) {
    && ShortestDistance(Arcs(adjacency), roots, y, rank.distance)
    && Sound(adjacency, roots, y, rank)
    && (rank.distance > 0 ==> forall x, arc ::
          HasArc(adjacency, x, arc) && arc.to == y && Level(Arcs(adjacency), roots, x, rank.distance - 1) ==>
            Relevance(arc.kind) <= rank.relevance)
  }

  /** Exactly the reached nodes are labelled, each with its best label. */
  ghost predicate ExactRanks(adjacency: Adjacency, roots: set<Id>, ranks: map<Id, Rank>) {
    && (forall y {:trigger y in ranks} :: y in ranks <==> ReachedFrom(Arcs(adjacency), roots, y))
    && (forall y {:trigger BestRank(adjacency, roots, y, ranks[y])} ::
          y in ranks ==> BestRank(adjacency, roots, y, ranks[y]))
  }

  lemma LevelStep(adjacency: Adjacency, roots: set<Id>, x: Id, arc: Arc, n: nat)
    requires Level(Arcs(adjacency), roots, x, n) && HasArc(adjacency, x, arc)
    ensures Level(Arcs(adjacency), roots, arc.to, n + 1)
  {
    var r :| r in roots && Walk(Arcs(adjacency), r, x, n);
    assert Walk(Arcs(adjacency), r, arc.to, n + 1);
  }

  lemma SoundLevel(adjacency: Adjacency, roots: set<Id>, y: Id, rank: Rank)
    requires Sound(adjacency, roots, y, rank)
    ensures Level(Arcs(adjacency), roots, y, rank.distance)
  {
    if rank.distance == 0 {
      assert Walk(Arcs(adjacency), y, y, 0);
    } else {
      var x, arc :| HasArc(adjacency, x, arc) && arc.to == y
        && Level(Arcs(adjacency), roots, x, rank.distance - 1);
      LevelStep(adjacency, roots, x, arc, rank.distance - 1);
    }
  }

  /** Once every label is relaxed, no walk from a root is shorter than the label at its end. */
  lemma {:induction false} RelaxedBound(adjacency: Adjacency, roots: set<Id>, ranks: map<Id, Rank>, r: Id, y: Id, n: nat)
    requires r in roots && r in ranks && ranks[r].distance == 0
    requires forall x {:trigger Relaxed(adjacency, ranks, x)} :: x in ranks ==> Relaxed(adjacency, ranks, x)
    requires Walk(Arcs(adjacency), r, y, n)
    ensures y in ranks && ranks[y].distance <= n
    decreases n
  {
    if n > 0 {
      var z :| Walk(Arcs(adjacency), r, z, n - 1) && (z, y) in Arcs(adjacency);
      RelaxedBound(adjacency, roots, ranks, r, z, n - 1);
      assert Relaxed(adjacency, ranks, z);
      var arc :| arc in adjacency[z] && arc.to == y;
      assert HasArc(adjacency, z, arc);
    }
  }

  ghost predicate Complete(adjacency: Adjacency, roots: set<Id>, ranks: map<Id, Rank>) {
    && (forall x :: x in roots ==> x in ranks && ranks[x].distance == 0)
    && (forall x {:trigger Relaxed(adjacency, ranks, x)} :: x in ranks ==> Relaxed(adjacency, ranks, x))
    && (forall y {:trigger Sound(adjacency, roots, y, ranks[y])} :: y in ranks ==> Sound(adjacency, roots, y, ranks[y]))
  }

  lemma CompleteBound(adjacency: Adjacency, roots: set<Id>, ranks: map<Id, Rank>, y: Id, n: nat)
    requires Complete(adjacency, roots, ranks) && Level(Arcs(adjacency), roots, y, n)
    ensures y in ranks && ranks[y].distance <= n
  {
    var r :| r in roots && Walk(Arcs(adjacency), r, y, n);
    RelaxedBound(adjacency, roots, ranks, r, y, n);
  }

  lemma CompleteIsBest(adjacency: Adjacency, roots: set<Id>, ranks: map<Id, Rank>, y: Id)
    requires Complete(adjacency, roots, ranks) && y in ranks
    ensures BestRank(adjacency, roots, y, ranks[y])
  {
    assert Sound(adjacency, roots, y, ranks[y]);
    SoundLevel(adjacency, roots, y, ranks[y]);
    forall n: nat | Level(Arcs(adjacency), roots, y, n) ensures ranks[y].distance <= n {
      CompleteBound(adjacency, roots, ranks, y, n);
    }
    if ranks[y].distance > 0 {
      var d := ranks[y].distance - 1;
      forall x, arc | HasArc(adjacency, x, arc) && arc.to == y && Level(Arcs(adjacency), roots, x, d)
        ensures Relevance(arc.kind) <= ranks[y].relevance
      {
        CompleteBound(adjacency, roots, ranks, x, d);
        assert Relaxed(adjacency, ranks, x);
      }
    }
  }

  lemma CompleteKeys(adjacency: Adjacency, roots: set<Id>, ranks: map<Id, Rank>, y: Id)
    requires Complete(adjacency, roots, ranks)
    ensures y in ranks <==> ReachedFrom(Arcs(adjacency), roots, y)
  {
    if y in ranks {
      assert Sound(adjacency, roots, y, ranks[y]);
      SoundLevel(adjacency, roots, y, ranks[y]);
      var r :| r in roots && Walk(Arcs(adjacency), r, y, ranks[y].distance);
      assert Reaches(Arcs(adjacency), r, y);
    }
    if ReachedFrom(Arcs(adjacency), roots, y) {
      var r :| r in roots && Reaches(Arcs(adjacency), r, y);
      var n: nat :| Walk(Arcs(adjacency), r, y, n);
      assert Level(Arcs(adjacency), roots, y, n);
      CompleteBound(adjacency, roots, ranks, y, n);
    }
  }

  lemma CompleteIsExact(adjacency: Adjacency, roots: set<Id>, ranks: map<Id, Rank>)
    requires Complete(adjacency, roots, ranks)
    ensures ExactRanks(adjacency, roots, ranks)
  {
    forall y ensures y in ranks <==> ReachedFrom(Arcs(adjacency), roots, y) {
      CompleteKeys(adjacency, roots, ranks, y);
    }
    forall y | y in ranks ensures BestRank(adjacency, roots, y, ranks[y]) {
      CompleteIsBest(adjacency, roots, ranks, y);
    }
  }

  /** A node has at most one best label, so the visiting order cannot show in the result. */
  lemma BestRankUnique(adjacency: Adjacency, roots: set<Id>, y: Id, a: Rank, b: Rank)
    requires BestRank(adjacency, roots, y, a) && BestRank(adjacency, roots, y, b)
    ensures a == b
  {
    assert a.distance == b.distance;
    if a.distance > 0 {
      var x, arc :| HasArc(adjacency, x, arc) && arc.to == y
        && Level(Arcs(adjacency), roots, x, a.distance - 1) && Relevance(arc.kind) == a.relevance;
      var x', arc' :| HasArc(adjacency, x', arc') && arc'.to == y
        && Level(Arcs(adjacency), roots, x', b.distance - 1) && Relevance(arc'.kind) == b.relevance;
    }
  }

  // ------------------------------------------------------------------ termination

  ghost function Cost(rank: Rank): nat {
    100 * rank.distance + if rank.relevance <= 99 then 99 - rank.relevance else 0
  }

  ghost function TotalCost(ranks: map<Id, Rank>): nat
    decreases |ranks|
  {
    if ranks == map[] then 0 else
      var x :| x in ranks;
      Cost(ranks[x]) + TotalCost(ranks - {x})
  }

  lemma {:induction false} TotalCostRemove(ranks: map<Id, Rank>, x: Id)
    requires x in ranks
    ensures TotalCost(ranks) == Cost(ranks[x]) + TotalCost(ranks - {x})
    decreases |ranks|
  {
    var p :| p in ranks && TotalCost(ranks) == Cost(ranks[p]) + TotalCost(ranks - {p});
    if p != x {
      TotalCostRemove(ranks - {p}, x);
      TotalCostRemove(ranks - {x}, p);
      assert ranks - {p} - {x} == ranks - {x} - {p};
    }
  }

  /** An improved label lowers the total, whatever the other labels are. */
  lemma TotalCostImproves(ranks: map<Id, Rank>, x: Id, rank: Rank)
    requires x in ranks && !NoWorse(ranks[x], rank) && rank.relevance <= 99
    ensures TotalCost(ranks[x := rank]) < TotalCost(ranks)
  {
    TotalCostRemove(ranks, x);
    TotalCostRemove(ranks[x := rank], x);
    assert ranks[x := rank] - {x} == ranks - {x};
  }

  // ------------------------------------------------------------------ the loop

  ghost predicate AllSound(adjacency: Adjacency, roots: set<Id>, ranks: map<Id, Rank>) {
    && (forall x :: x in roots ==> x in ranks && ranks[x].distance == 0)
    && (forall y {:trigger Sound(adjacency, roots, y, ranks[y])} :: y in ranks ==> Sound(adjacency, roots, y, ranks[y]))
  }

  function RootRanks(ghost adjacency: Adjacency, roots: set<Id>): (ranks: map<Id, Rank>)
    ensures AllSound(adjacency, roots, ranks) && ranks.Keys == roots
  {
    map x | x in roots :: Rank(0, ROOT_RELEVANCE)
  }

  /** No label got worse, and every label that changed belongs to a queued node. */
  ghost predicate Improves(before: map<Id, Rank>, after: map<Id, Rank>, queue: seq<Id>) {
    && (forall x :: x in before ==> x in after && NoWorse(after[x], before[x]))
    && (forall x :: x in after && x !in queue ==> x in before && after[x] == before[x])
  }

  /** Either nothing happened, or a node was labelled for the first time, or some label improved. */
  ghost predicate Progress(before: map<Id, Rank>, after: map<Id, Rank>, oldQueue: seq<Id>, queue: seq<Id>) {
    || (after == before && queue == oldQueue)
    || before.Keys < after.Keys
    || (before.Keys == after.Keys && TotalCost(after) < TotalCost(before))
  }

  lemma OthersStayRelaxed(adjacency: Adjacency, before: map<Id, Rank>, after: map<Id, Rank>, current: Id,
                          tail: seq<Id>, queue: seq<Id>)
    requires Improves(before, after, queue) && current in after && Relaxed(adjacency, after, current)
    requires forall x :: x in tail ==> x in queue
    requires forall x {:trigger Relaxed(adjacency, before, x)} ::
      x in before && x !in [current] + tail ==> Relaxed(adjacency, before, x)
    ensures forall x {:trigger Relaxed(adjacency, after, x)} ::
      x in after && x !in queue ==> Relaxed(adjacency, after, x)
  {
    forall x | x in after && x !in queue ensures Relaxed(adjacency, after, x) {
      if x != current {
        assert Relaxed(adjacency, before, x);
      }
    }
  }

  lemma LabelStep(adjacency: Adjacency, roots: set<Id>, ranks: map<Id, Rank>, x: Id, arc: Arc)
    requires AllSound(adjacency, roots, ranks) && x in ranks && HasArc(adjacency, x, arc)
    requires arc.to !in ranks || !NoWorse(ranks[arc.to], Through(ranks[x], arc))
    ensures AllSound(adjacency, roots, ranks[arc.to := Through(ranks[x], arc)])
    ensures arc.to != x
    ensures arc.to !in ranks || TotalCost(ranks[arc.to := Through(ranks[x], arc)]) < TotalCost(ranks)
  {
    assert Sound(adjacency, roots, x, ranks[x]);
    SoundLevel(adjacency, roots, x, ranks[x]);
    assert Sound(adjacency, roots, arc.to, Through(ranks[x], arc));
    if arc.to in ranks {
      TotalCostImproves(ranks, arc.to, Through(ranks[x], arc));
    }
  }

  /** What a loop over the arcs of a node keeps. */
  ghost predicate Relaxing(adjacency: Adjacency, roots: set<Id>, current: Id, before: map<Id, Rank>, oldQueue: seq<Id>,
                           after: map<Id, Rank>, queue: seq<Id>)
  {
    && AllSound(adjacency, roots, after) && current in before && current in after && after[current] == before[current]
    && (forall x :: x in queue ==> x in after) && (forall x :: x in oldQueue ==> x in queue)
    && Improves(before, after, queue) && Progress(before, after, oldQueue, queue)
    && forall y :: y in after && y !in before ==> (current, y) in Arcs(adjacency)
  }

  /** The first so many arcs are relaxed. */
  ghost predicate RelaxedUpTo(ranks: map<Id, Rank>, from: Rank, arcs: seq<Arc>, n: nat)
    requires n <= |arcs|
  {
    forall j :: 0 <= j < n ==> arcs[j].to in ranks && NoWorse(ranks[arcs[j].to], Through(from, arcs[j]))
  }

  lemma RelabelKeeps(adjacency: Adjacency, roots: set<Id>, current: Id, before: map<Id, Rank>, oldQueue: seq<Id>,
                     after: map<Id, Rank>, queue: seq<Id>, arc: Arc)
    requires Relaxing(adjacency, roots, current, before, oldQueue, after, queue) && HasArc(adjacency, current, arc)
    requires arc.to !in after || !NoWorse(after[arc.to], Through(before[current], arc))
    ensures Relaxing(adjacency, roots, current, before, oldQueue, after[arc.to := Through(before[current], arc)], queue + [arc.to])
  {
    LabelStep(adjacency, roots, after, current, arc);
    hide AllSound, TotalCost, Arcs, Through;
  }

  lemma RelabelRelaxes(ranks: map<Id, Rank>, from: Rank, arcs: seq<Arc>, n: nat)
    requires n < |arcs| && RelaxedUpTo(ranks, from, arcs, n)
    requires arcs[n].to !in ranks || !NoWorse(ranks[arcs[n].to], Through(from, arcs[n]))
    ensures RelaxedUpTo(ranks[arcs[n].to := Through(from, arcs[n])], from, arcs, n + 1)
  {
    hide Through;
  }

  lemma AllRelaxed(adjacency: Adjacency, ranks: map<Id, Rank>, current: Id, arcs: seq<Arc>)
    requires current in ranks && arcs == if current in adjacency then adjacency[current] else []
    requires RelaxedUpTo(ranks, ranks[current], arcs, |arcs|)
    ensures Relaxed(adjacency, ranks, current)
  {
    hide NoWorse, Through;
  }

  lemma RelaxingStarts(adjacency: Adjacency, roots: set<Id>, current: Id, ranks: map<Id, Rank>, queue: seq<Id>)
    requires AllSound(adjacency, roots, ranks) && current in ranks && forall x :: x in queue ==> x in ranks
    ensures Relaxing(adjacency, roots, current, ranks, queue, ranks, queue)
  {
    hide AllSound, TotalCost, Arcs;
  }

  /** One dequeued node: every neighbour whose label is missing or worse is relabelled and queued. */
  method RelaxNeighbors(adjacency: Adjacency, roots: set<Id>, current: Id, ranks: map<Id, Rank>, queue: seq<Id>)
    returns (ranks': map<Id, Rank>, queue': seq<Id>)
    requires AllSound(adjacency, roots, ranks) && current in ranks
    requires forall x :: x in queue ==> x in ranks
    ensures Relaxing(adjacency, roots, current, ranks, queue, ranks', queue')
    ensures current in ranks' && Relaxed(adjacency, ranks', current)
  {
    hide Relaxing, Sound, AllSound, TotalCost, Arcs, NoWorse, Through;
    RelaxingStarts(adjacency, roots, current, ranks, queue);
    ranks', queue' := ranks, queue;
    var arcs := if current in adjacency then adjacency[current] else [];
    for i := 0 to |arcs|
      invariant Relaxing(adjacency, roots, current, ranks, queue, ranks', queue')
      invariant RelaxedUpTo(ranks', ranks[current], arcs, i)
    {
      var arc := arcs[i];
      assert HasArc(adjacency, current, arc);
      var candidate := Through(ranks[current], arc);
      if arc.to in ranks' && NoWorse(ranks'[arc.to], candidate) {
        continue;
      }
      RelabelKeeps(adjacency, roots, current, ranks, queue, ranks', queue', arc);
      RelabelRelaxes(ranks', ranks[current], arcs, i);
      ranks' := ranks'[arc.to := candidate];
      queue' := queue' + [arc.to];
    }
    CurrentStays(adjacency, roots, current, ranks, queue, ranks', queue');
    AllRelaxed(adjacency, ranks', current, arcs);
  }

  lemma CurrentStays(adjacency: Adjacency, roots: set<Id>, current: Id, before: map<Id, Rank>, oldQueue: seq<Id>,
                     after: map<Id, Rank>, queue: seq<Id>)
    requires Relaxing(adjacency, roots, current, before, oldQueue, after, queue)
    ensures current in before && current in after && after[current] == before[current]
  {
    hide AllSound, Improves, Progress, Arcs;
  }

  // ------------------------------------------------------------------ reading the labels

  /** Edge kinds, the most relevant first. */
  const BY_RELEVANCE := [Contradicts, ExtractedFrom, Supports, ConstrainedBy, DerivedFrom, EvolvesInto, RequiresValidation]

  /** Some shortest walk to y ends with an edge of this kind. */
  ghost predicate LastArc(adjacency: Adjacency, roots: set<Id>, y: Id, d: nat, kind: EdgeKind) {
    exists x, arc :: HasArc(adjacency, x, arc) && arc.to == y && arc.kind == kind && 0 < d && Level(Arcs(adjacency), roots, x, d - 1)
  }

  /** Roots have relevance 99. Any other label has seven down to one, for the most relevant kind that a shortest walk
      ends with. */
  ghost predicate LabelLaw(adjacency: Adjacency, roots: set<Id>, y: Id, rank: Rank) {
    if y in roots then rank == Rank(0, 99)
    else
      && 0 < rank.distance && 1 <= rank.relevance <= 7
      && LastArc(adjacency, roots, y, rank.distance, BY_RELEVANCE[7 - rank.relevance])
      && forall k: nat :: k < 7 - rank.relevance ==> !LastArc(adjacency, roots, y, rank.distance, BY_RELEVANCE[k])
  }

  ghost predicate Labelled(adjacency: Adjacency, roots: set<Id>, ranks: map<Id, Rank>) {
    forall y :: y in ranks ==> LabelLaw(adjacency, roots, y, ranks[y])
  }

  lemma RelevanceIsPlace(kind: EdgeKind)
    ensures 1 <= Relevance(kind) <= 7 && BY_RELEVANCE[7 - Relevance(kind)] == kind
    ensures forall k: nat :: k < 7 && BY_RELEVANCE[k] == kind ==> k == 7 - Relevance(kind)
  {
  }

  lemma LabelSays(adjacency: Adjacency, roots: set<Id>, y: Id, rank: Rank)
    requires BestRank(adjacency, roots, y, rank)
    ensures LabelLaw(adjacency, roots, y, rank)
  {
    hide Relevance;
    if y in roots {
      assert Walk(Arcs(adjacency), y, y, 0);
      assert Level(Arcs(adjacency), roots, y, 0);
    } else {
      RootsAtZero(adjacency, roots, y, rank.distance);
      var x, arc :| HasArc(adjacency, x, arc) && arc.to == y
        && Level(Arcs(adjacency), roots, x, rank.distance - 1) && Relevance(arc.kind) == rank.relevance;
      RelevanceIsPlace(arc.kind);
      forall k: nat | k < 7 - rank.relevance ensures !LastArc(adjacency, roots, y, rank.distance, BY_RELEVANCE[k]) {
        RelevanceIsPlace(BY_RELEVANCE[k]);
      }
    }
  }

  lemma LabelsSay(adjacency: Adjacency, roots: set<Id>, ranks: map<Id, Rank>)
    requires ExactRanks(adjacency, roots, ranks)
    ensures Labelled(adjacency, roots, ranks)
  {
    hide BestRank, LabelLaw;
    forall y | y in ranks ensures LabelLaw(adjacency, roots, y, ranks[y]) {
      LabelSays(adjacency, roots, y, ranks[y]);
    }
  }

  lemma RootsAtZero(adjacency: Adjacency, roots: set<Id>, y: Id, d: nat)
    requires Level(Arcs(adjacency), roots, y, d) && y !in roots
    ensures 0 < d
  {
  }

  // ------------------------------------------------------------------ the traversal

  /** Labels are sound and stay within the graph, and every labelled node that is not queued is relaxed. */
  ghost predicate Labelling(adjacency: Adjacency, roots: set<Id>, ranks: map<Id, Rank>, queue: seq<Id>) {
    && AllSound(adjacency, roots, ranks) && ranks.Keys <= roots + Heads(Arcs(adjacency))
    && (forall x :: x in queue ==> x in ranks)
    && forall x {:trigger Relaxed(adjacency, ranks, x)} :: x in ranks && x !in queue ==> Relaxed(adjacency, ranks, x)
  }

  /** A new label, a better one, or a shorter queue. */
  ghost predicate StepsDown(before: map<Id, Rank>, queue: seq<Id>, after: map<Id, Rank>, later: seq<Id>) {
    || before.Keys < after.Keys
    || (before.Keys == after.Keys && TotalCost(after) < TotalCost(before))
    || (after == before && |later| < |queue|)
  }

  lemma DequeueKeeps(adjacency: Adjacency, roots: set<Id>, ranks: map<Id, Rank>, queue: seq<Id>,
                     after: map<Id, Rank>, later: seq<Id>)
    requires queue != [] && Labelling(adjacency, roots, ranks, queue)
    requires Relaxing(adjacency, roots, queue[0], ranks, queue[1..], after, later)
    requires queue[0] in after && Relaxed(adjacency, after, queue[0])
    ensures Labelling(adjacency, roots, after, later) && StepsDown(ranks, queue, after, later)
  {
    hide Sound, AllSound, TotalCost, Arcs, Relaxed, NoWorse;
    SplitHead(queue);
    assert queue == [queue[0]] + queue[1..];
    OthersStayRelaxed(adjacency, ranks, after, queue[0], queue[1..], later);
  }

  lemma HeadIsLabelled(adjacency: Adjacency, roots: set<Id>, ranks: map<Id, Rank>, queue: seq<Id>)
    requires queue != [] && Labelling(adjacency, roots, ranks, queue)
    ensures AllSound(adjacency, roots, ranks) && queue[0] in ranks && forall x :: x in queue[1..] ==> x in ranks
  {
    hide AllSound, Arcs, Relaxed;
  }

  lemma RootsAreLabelled(adjacency: Adjacency, roots: set<Id>, ranks: map<Id, Rank>, queue: seq<Id>)
    requires AllSound(adjacency, roots, ranks) && ranks.Keys == roots && forall x :: x in queue <==> x in roots
    ensures Labelling(adjacency, roots, ranks, queue)
  {
    hide AllSound, Arcs, Relaxed;
  }

  lemma NothingQueued(adjacency: Adjacency, roots: set<Id>, ranks: map<Id, Rank>)
    requires Labelling(adjacency, roots, ranks, [])
    ensures ExactRanks(adjacency, roots, ranks) && Labelled(adjacency, roots, ranks)
  {
    CompleteNow(adjacency, roots, ranks);
    hide Complete, Labelling, BestRank, Labelled;
    CompleteIsExact(adjacency, roots, ranks);
    LabelsSay(adjacency, roots, ranks);
  }

  lemma CompleteNow(adjacency: Adjacency, roots: set<Id>, ranks: map<Id, Rank>)
    requires Labelling(adjacency, roots, ranks, [])
    ensures Complete(adjacency, roots, ranks)
  {
    hide Sound, Arcs, Relaxed;
  }

  lemma MeasureFalls(nodes: set<Id>, before: map<Id, Rank>, queue: seq<Id>, after: map<Id, Rank>, later: seq<Id>)
    requires StepsDown(before, queue, after, later) && before.Keys <= nodes && after.Keys <= nodes
    ensures |nodes - after.Keys| <= |nodes - before.Keys|
    ensures |nodes - after.Keys| < |nodes - before.Keys| || TotalCost(after) < TotalCost(before)
            || (after == before && |later| < |queue|)
  {
    hide TotalCost;
    if before.Keys < after.Keys {
      SubsetSmaller(nodes - after.Keys, nodes - before.Keys);
    }
  }

  /** Terminates although improved nodes are queued again, and labels exactly what the roots reach. */
  method Traverse(roots: set<Id>, adjacency: Adjacency) returns (ranks: map<Id, Rank>)
    ensures ExactRanks(adjacency, roots, ranks)
    ensures Labelled(adjacency, roots, ranks)
  {
    hide *;
    ranks := RootRanks(adjacency, roots);
    var queue := Sorted(roots);
    ghost var nodes := roots + Heads(Arcs(adjacency));
    RootsAreLabelled(adjacency, roots, ranks, queue);
    while queue != []
      invariant Labelling(adjacency, roots, ranks, queue)
      decreases |nodes - ranks.Keys|, TotalCost(ranks), |queue|
    {
      ghost var before, was := ranks, queue;
      HeadIsLabelled(adjacency, roots, ranks, queue);
      WithinGraph(adjacency, roots, ranks, queue);
      ranks, queue := RelaxNeighbors(adjacency, roots, queue[0], ranks, queue[1..]);
      DequeueKeeps(adjacency, roots, before, was, ranks, queue);
      WithinGraph(adjacency, roots, ranks, queue);
      MeasureFalls(nodes, before, was, ranks, queue);
    }
    NothingQueued(adjacency, roots, ranks);
  }

  lemma WithinGraph(adjacency: Adjacency, roots: set<Id>, ranks: map<Id, Rank>, queue: seq<Id>)
    requires Labelling(adjacency, roots, ranks, queue)
    ensures ranks.Keys <= roots + Heads(Arcs(adjacency))
  {
    hide AllSound, Arcs, Relaxed;
  }
}

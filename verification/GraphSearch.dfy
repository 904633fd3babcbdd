/** The graph searches of the repository, each a loop over its own work list, proved to mean
    the one reachability relation. */
module GraphSearch {
  import opened Reachability
  import opened GraphTypes
  import opened DependencyPaths
  import opened Ordering

  // ------------------------------------------------------------------ invalidation

  /** The adjacency dictionary of the dependency pairs of the edge rows. */
  method BuildAdjacency(edges: map<Id, Edge>) returns (adjacency: map<Id, set<Id>>)
    ensures forall x, y :: y in Children(adjacency, x) <==> (x, y) in Dependencies(edges)
  {
    hide PairOf;
    adjacency := map[];
    var rows := Sorted(edges.Keys);
    ghost var pairs: Relation := {};
    for i := 0 to |rows|
      invariant forall x, y :: y in Children(adjacency, x) <==> (x, y) in pairs
      invariant pairs <= Dependencies(edges)
      invariant forall j :: 0 <= j < i ==> PairOf(edges[rows[j]]) in pairs
    {
      var (ancestor, descendant) := PairOf(edges[rows[i]]);
      adjacency := adjacency[ancestor := Children(adjacency, ancestor) + {descendant}];
      pairs := pairs + {(ancestor, descendant)};
    }
    forall p | p in Dependencies(edges) ensures p in pairs {
      var e :| e in edges && PairOf(edges[e]) == p;
      assert e in rows;
    }
  }

  function Children(adjacency: map<Id, set<Id>>, x: Id): set<Id> {
    if x in adjacency then adjacency[x] else {}
  }

  method ReachableDependents(edges: map<Id, Edge>, roots: set<Id>, includeRoots: bool, excluded: set<Id>)
    returns (affected: set<Id>)
    ensures affected == Dependents(Dependencies(edges), roots, includeRoots, excluded)
    ensures forall y :: y in affected <==>
              (exists x :: x in roots && LeadsTo(edges, x, y)) && (includeRoots || y !in roots) && y !in excluded
  {
    var adjacency := BuildAdjacency(edges);
    affected := BreadthFirst(adjacency, roots, includeRoots, excluded, Dependencies(edges));
    DependentsLeadDown(edges, roots, includeRoots, excluded);
  }

  /** The dependents are the ends of the paths of edge rows that start at a root. */
  lemma DependentsLeadDown(edges: map<Id, Edge>, roots: set<Id>, includeRoots: bool, excluded: set<Id>)
    ensures forall y :: y in Dependents(Dependencies(edges), roots, includeRoots, excluded) <==>
              (exists x :: x in roots && LeadsTo(edges, x, y)) && (includeRoots || y !in roots) && y !in excluded
  {
    hide Dependencies, LeadsTo, Reaches;
    forall x, y ensures LeadsTo(edges, x, y) <==> Reaches(Dependencies(edges), x, y) {
      LeadsToIffReaches(edges, x, y);
    }
  }

  /** With one edge the search finds its dependent end from the other, and nothing the wrong way round. */
  lemma OneEdgeSearch(e: Id, edge: Edge, x: Id, y: Id)
    requires x != y
    ensures y in Dependents(Dependencies(map[e := edge]), {x}, false, {}) <==> Says(edge, x, y)
  {
    hide Dependencies, LeadsTo;
    DependentsLeadDown(map[e := edge], {x}, false, {});
    OneEdgeLeads(e, edge, x, y);
  }

  /** Visits every dependent once, however many paths or cycles lead to it. */
  method BreadthFirst(adjacency: map<Id, set<Id>>, roots: set<Id>, includeRoots: bool, excluded: set<Id>,
                      ghost rel: Relation)
    returns (affected: set<Id>)
    requires forall x, y :: y in Children(adjacency, x) <==> (x, y) in rel
    ensures affected == Dependents(rel, roots, includeRoots, excluded)
  {
    hide *;
    var visited := roots;
    affected := if includeRoots then roots else {};
    var queue := Sorted(roots);
    ghost var done := {};
    RootsReached(rel, roots);
    while queue != []
      invariant roots <= visited
      invariant forall x :: x in affected <==> x in visited && (includeRoots || x !in roots)
      invariant forall x :: x in queue ==> x in visited
      invariant forall x :: x in visited ==> x in done || x in queue
      invariant forall x {:trigger ReachedFrom(rel, roots, x)} :: x in visited ==> ReachedFrom(rel, roots, x)
      invariant forall x, y :: x in done && (x, y) in rel ==> y in visited
      decreases |Heads(rel) - visited|, |queue|
    {
      var current := queue[0];
      SplitHead(queue);
      queue := queue[1..];
      ghost var before := visited;
      var children := Children(adjacency, current);
      visited, affected, queue := Discover(children, visited, affected, queue);
      ChildrenReached(rel, roots, current, children);
      FewerUnvisited(rel, before, children);
      assert children <= before ==> visited == before;
      done := done + {current};
    }
    VisitedAreDependents(rel, roots, includeRoots, excluded, visited);
    affected := affected - excluded;
  }

  /** One dequeued node: its children not seen before are marked and queued, in order. */
  method Discover(children: set<Id>, visited: set<Id>, affected: set<Id>, queue: seq<Id>)
    returns (visited': set<Id>, affected': set<Id>, queue': seq<Id>)
    ensures visited' == visited + children
    ensures affected' == affected + (children - visited)
    ensures queue <= queue' && forall x :: x in queue' <==> x in queue || x in children - visited
    ensures children <= visited ==> queue' == queue
  {
    visited', affected', queue' := visited, affected, queue;
    var next := Sorted(children);
    for i := 0 to |next|
      invariant forall x :: x in visited' <==> x in visited || x in next[..i]
      invariant forall x :: x in affected' <==> x in affected || (x in next[..i] && x !in visited)
      invariant forall x :: x in queue' <==> x in queue || (x in next[..i] && x !in visited)
      invariant queue <= queue' && (queue' != queue ==> exists x :: x in next[..i] && x !in visited)
    {
      assert next[..i + 1] == next[..i] + [next[i]];
      if next[i] in visited' {
        continue;
      }
      visited', affected', queue' := visited' + {next[i]}, affected' + {next[i]}, queue' + [next[i]];
    }
    assert next[..|next|] == next;
    assert forall x :: x in next[..|next|] <==> x in children;
  }

  lemma FewerUnvisited(rel: Relation, before: set<Id>, children: set<Id>)
    requires children <= Heads(rel)
    ensures children <= before || |Heads(rel) - (before + children)| < |Heads(rel) - before|
  {
    if !(children <= before) {
      var x :| x in children && x !in before;
      assert x in Heads(rel) - before && x !in Heads(rel) - (before + children);
      SubsetSmaller(Heads(rel) - (before + children), Heads(rel) - before);
    }
  }

  lemma ChildrenReached(rel: Relation, roots: set<Id>, x: Id, children: set<Id>)
    requires ReachedFrom(rel, roots, x) && forall y :: y in children ==> (x, y) in rel
    ensures forall y {:trigger ReachedFrom(rel, roots, y)} :: y in children ==> ReachedFrom(rel, roots, y)
  {
    forall y | y in children ensures ReachedFrom(rel, roots, y) {
      StepReachedFrom(rel, roots, x, y);
    }
  }

  lemma RootsReached(rel: Relation, roots: set<Id>)
    ensures forall x {:trigger ReachedFrom(rel, roots, x)} :: x in roots ==> ReachedFrom(rel, roots, x)
  {
    forall x | x in roots ensures ReachedFrom(rel, roots, x) { ReachesSelf(rel, x); }
  }

  lemma StepReachedFrom(rel: Relation, roots: set<Id>, x: Id, y: Id)
    requires ReachedFrom(rel, roots, x) && (x, y) in rel
    ensures ReachedFrom(rel, roots, y)
  {
    var r :| r in roots && Reaches(rel, r, x);
    ReachesStep(rel, r, x, y);
  }

  lemma VisitedAreDependents(rel: Relation, roots: set<Id>, includeRoots: bool, excluded: set<Id>, visited: set<Id>)
    requires roots <= visited
    requires forall x {:trigger ReachedFrom(rel, roots, x)} :: x in visited ==> ReachedFrom(rel, roots, x)
    requires forall x, y :: x in visited && (x, y) in rel ==> y in visited
    ensures forall y :: y in Dependents(rel, roots, includeRoots, excluded) <==>
      y in visited && (includeRoots || y !in roots) && y !in excluded
  {
    forall y | ReachedFrom(rel, roots, y) ensures y in visited {
      var x :| x in roots && Reaches(rel, x, y);
      ClosedReaches(rel, x, y, iset u | u in visited);
    }
  }
}

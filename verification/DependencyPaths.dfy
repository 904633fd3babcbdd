/** Which end of an edge depends on which, kind by kind, and the paths of edge rows that searches and invalidation
    follow (proofgraph/graph/staleness.py:33-86). */
module DependencyPaths {
  import opened Reachability
  import opened GraphTypes

  /** The edge row says that the one node depends on the other: a constraint bears on the source of its edge, a claim
      rests on the source it was extracted from, and every other edge points from what is used to what uses it. */
  predicate Says(edge: Edge, above: Id, below: Id) {
    match edge.kind
    case Supports => edge.source == above && edge.target == below
    case Contradicts => edge.source == above && edge.target == below
    case DerivedFrom => edge.source == above && edge.target == below
    case EvolvesInto => edge.source == above && edge.target == below
    case RequiresValidation => edge.source == above && edge.target == below
    case ConstrainedBy => edge.target == above && edge.source == below
    case ExtractedFrom => edge.target == above && edge.source == below
  }

  ghost predicate Joined(edges: map<Id, Edge>, above: Id, below: Id) {
    exists e :: e in edges && Says(edges[e], above, below)
  }

  /** Each node of the path depends on the one before it. */
  ghost predicate Path(edges: map<Id, Edge>, path: seq<Id>) {
    path != [] && forall i :: 0 <= i < |path| - 1 ==> Joined(edges, path[i], path[i + 1])
  }

  ghost predicate LeadsTo(edges: map<Id, Edge>, above: Id, below: Id) {
    exists path :: Path(edges, path) && path[0] == above && path[|path| - 1] == below
  }

  lemma JoinedIffPair(edges: map<Id, Edge>, above: Id, below: Id)
    ensures Joined(edges, above, below) <==> (above, below) in Dependencies(edges)
  {
    if e :| e in edges && Says(edges[e], above, below) {
      assert PairOf(edges[e]) == (above, below);
    }
    if (above, below) in Dependencies(edges) {
      var e :| e in edges && PairOf(edges[e]) == (above, below);
      assert Says(edges[e], above, below);
    }
  }

  lemma {:induction false} WalkIsPath(edges: map<Id, Edge>, x: Id, y: Id, n: nat) returns (path: seq<Id>)
    requires Walk(Dependencies(edges), x, y, n)
    ensures Path(edges, path) && path[0] == x && path[|path| - 1] == y
    decreases n
  {
    hide Dependencies, Joined;
    if n == 0 {
      path := [x];
    } else {
      var z :| Walk(Dependencies(edges), x, z, n - 1) && (z, y) in Dependencies(edges);
      var shorter := WalkIsPath(edges, x, z, n - 1);
      JoinedIffPair(edges, z, y);
      path := shorter + [y];
    }
  }

  lemma {:induction false} PathReaches(edges: map<Id, Edge>, path: seq<Id>)
    requires Path(edges, path)
    ensures Reaches(Dependencies(edges), path[0], path[|path| - 1])
    decreases |path|
  {
    hide Dependencies, Joined, Reaches;
    if |path| == 1 {
      ReachesSelf(Dependencies(edges), path[0]);
    } else {
      var shorter := path[..|path| - 1];
      PathReaches(edges, shorter);
      assert Joined(edges, path[|path| - 2], path[|path| - 2 + 1]);
      JoinedIffPair(edges, path[|path| - 2], path[|path| - 1]);
      ReachesStep(Dependencies(edges), path[0], path[|path| - 2], path[|path| - 1]);
    }
  }

  /** The relation that all searches are proved against is the one that the edge rows spell out. */
  lemma LeadsToIffReaches(edges: map<Id, Edge>, x: Id, y: Id)
    ensures LeadsTo(edges, x, y) <==> Reaches(Dependencies(edges), x, y)
  {
    hide Dependencies, Joined;
    if LeadsTo(edges, x, y) {
      var path :| Path(edges, path) && path[0] == x && path[|path| - 1] == y;
      PathReaches(edges, path);
    }
    if Reaches(Dependencies(edges), x, y) {
      var n: nat :| Walk(Dependencies(edges), x, y, n);
      var path := WalkIsPath(edges, x, y, n);
    }
  }

  /** One edge, seen from each of its ends. */
  lemma OneEdgeLeads(e: Id, edge: Edge, x: Id, y: Id)
    requires x != y
    ensures LeadsTo(map[e := edge], x, y) <==> Says(edge, x, y)
  {
    var edges := map[e := edge];
    assert e in edges && forall u, v :: Joined(edges, u, v) ==> Says(edge, u, v);
    if LeadsTo(edges, x, y) {
      var path :| Path(edges, path) && path[0] == x && path[|path| - 1] == y;
      OnePathIsOneStep(edges, edge, path);
    }
    if Says(edge, x, y) {
      assert Path(edges, [x, y]);
    }
  }

  lemma {:induction false} OnePathIsOneStep(edges: map<Id, Edge>, edge: Edge, path: seq<Id>)
    requires Path(edges, path) && path[0] != path[|path| - 1]
    requires forall u, v :: Joined(edges, u, v) ==> Says(edge, u, v)
    ensures Says(edge, path[0], path[|path| - 1])
  {
    hide Joined;
    var last := |path| - 1;
    assert Joined(edges, path[0], path[0 + 1]) && Joined(edges, path[last - 1], path[last - 1 + 1]);
  }
}

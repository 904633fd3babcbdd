/** The dependency graph of a patch: the recursive acyclicity check made when a patch is
    generated, and the round-based ordering made when it is applied. */
module DependencyOrder {
  import opened Reachability
  import opened GraphTypes

  type Depends = map<Id, set<Id>>

  /** (operation, prerequisite) pairs. */
  function Prerequisites(depends: Depends): (rel: Relation)
    ensures forall o, d :: (o, d) in rel <==> o in depends && d in depends[o]
  {
    set o, d | o in depends && d in depends[o] :: (o, d)
  }

  // ------------------------------------------------------------------ depth-first check

  /** Closed under prerequisites and free of cycles. */
  ghost predicate Cleared(depends: Depends, visited: set<Id>) {
    && visited <= depends.Keys
    && (forall o :: o in visited ==> depends[o] <= visited)
    && (forall o {:trigger StrictlyReaches(Prerequisites(depends), o, o)} ::
          o in visited ==> !StrictlyReaches(Prerequisites(depends), o, o))
  }

  ghost predicate OnPath(depends: Depends, visiting: set<Id>, id: Id) {
    forall v {:trigger StrictlyReaches(Prerequisites(depends), v, id)} ::
      v in visiting ==> StrictlyReaches(Prerequisites(depends), v, id)
  }

  lemma PathExtends(depends: Depends, visiting: set<Id>, id: Id, d: Id)
    requires OnPath(depends, visiting, id) && id in depends && d in depends[id]
    ensures OnPath(depends, visiting + {id}, d)
  {
    var rel := Prerequisites(depends);
    ReachesSelf(rel, id);
    forall v | v in visiting + {id} ensures StrictlyReaches(rel, v, d) {
      if v in visiting {
        assert StrictlyReaches(rel, v, id);
        StrictImpliesReaches(rel, v, id);
      }
    }
  }

  lemma ClearedExtends(depends: Depends, visited: set<Id>, id: Id)
    requires Cleared(depends, visited) && id in depends && id !in visited && depends[id] <= visited
    ensures Cleared(depends, visited + {id})
  {
    if StrictlyReaches(Prerequisites(depends), id, id) {
      CycleEntersVisited(depends, visited, id);
    }
  }

  lemma CycleEntersVisited(depends: Depends, visited: set<Id>, id: Id)
    requires forall o :: o in visited ==> o in depends && depends[o] <= visited
    requires id in depends && depends[id] <= visited && StrictlyReaches(Prerequisites(depends), id, id)
    ensures id in visited
  {
    var rel := Prerequisites(depends);
    var z :| Reaches(rel, id, z) && (z, id) in rel;
    ClosedReaches(rel, id, z, iset u | u == id || u in visited);
  }

  /** visiting holds the operations on the current recursion path. */
  method Visit(depends: Depends, id: Id, visiting: set<Id>, visited: set<Id>) returns (ok: bool, visited': set<Id>)
    requires forall o :: o in depends ==> depends[o] <= depends.Keys
    requires id in depends && visiting <= depends.Keys && OnPath(depends, visiting, id)
    requires Cleared(depends, visited) && visiting !! visited
    ensures ok ==> id in visited' && visited <= visited' && Cleared(depends, visited') && visiting !! visited'
    ensures !ok ==> !Acyclic(Prerequisites(depends))
    decreases |depends.Keys - visiting|
  {
    hide Acyclic, OnPath, StrictlyReaches;
    ok, visited' := true, visited;
    if id in visiting {
      OnCycle(depends, visiting, id);
      return false, visited;
    }
    if id in visited {
      return;
    }
    var rest := depends[id];
    while rest != {}
      invariant rest <= depends[id] && depends[id] - rest <= visited'
      invariant visited <= visited' && Cleared(depends, visited') && (visiting + {id}) !! visited'
      decreases |rest|
    {
      var dependency :| dependency in rest;
      PathExtends(depends, visiting, id, dependency);
      SubsetSmaller(depends.Keys - (visiting + {id}), depends.Keys - visiting);
      ok, visited' := Visit(depends, dependency, visiting + {id}, visited');
      if !ok {
        return;
      }
      rest := rest - {dependency};
    }
    ClearedExtends(depends, visited', id);
    visited' := visited' + {id};
  }

  lemma OnCycle(depends: Depends, visiting: set<Id>, id: Id)
    requires OnPath(depends, visiting, id) && id in visiting
    ensures !Acyclic(Prerequisites(depends))
  {
    assert StrictlyReaches(Prerequisites(depends), id, id);
  }

  /** Accepts exactly the acyclic dependency graphs. */
  method CheckAcyclic(depends: Depends, order: seq<Id>) returns (ok: bool)
    requires forall o :: o in depends ==> depends[o] <= depends.Keys
    requires forall o :: o in order <==> o in depends
    ensures ok <==> Acyclic(Prerequisites(depends))
  {
    var visited := {};
    for i := 0 to |order|
      invariant Cleared(depends, visited)
      invariant forall j :: 0 <= j < i ==> order[j] in visited
    {
      assert order[i] in depends;
      ok, visited := Visit(depends, order[i], {}, visited);
      if !ok {
        return;
      }
    }
    forall x ensures !StrictlyReaches(Prerequisites(depends), x, x) {
      if x in depends {
        assert x in order;
      } else if StrictlyReaches(Prerequisites(depends), x, x) {
        NoStepOut(Prerequisites(depends), x);
      }
    }
    return true;
  }

  lemma NoStepOut(rel: Relation, x: Id)
    requires forall y :: (x, y) !in rel
    ensures !StrictlyReaches(rel, x, x)
  {
    if StrictlyReaches(rel, x, x) {
      var z :| Reaches(rel, x, z) && (z, x) in rel;
      ClosedReaches(rel, x, z, iset{x});
    }
  }

  // ------------------------------------------------------------------ round-based ordering

  datatype SelectionResult =
    | UnknownOperation
    | IncompleteDependencies
    | CyclicDependencies
    | Selected(ids: set<Id>, ordered: seq<Id>)

  ghost predicate NoDuplicates(q: seq<Id>) {
    forall i, j :: 0 <= i < j < |q| ==> q[i] != q[j]
  }

  /** Every operation comes after all its prerequisites. */
  ghost predicate DependenciesFirst(depends: Depends, ordered: seq<Id>) {
    forall i, d :: 0 <= i < |ordered| && ordered[i] in depends && d in depends[ordered[i]] ==> d in ordered[..i]
  }

  ghost predicate IsPermutationOf(ordered: seq<Id>, ids: set<Id>) {
    NoDuplicates(ordered) && forall o :: o in ordered <==> o in ids
  }

  predicate DependencyClosed(depends: Depends, ids: set<Id>) {
    forall o :: o in ids && o in depends ==> depends[o] <= ids
  }

  function Requested(depends: Depends, request: Option<set<Id>>): set<Id> {
    if request.None? then depends.Keys else request.value
  }

  /** A prerequisite-first ordering leaves no room for a cycle among its members. */
  lemma OrderedHasNoCycle(depends: Depends, ordered: seq<Id>, i: nat)
    requires i < |ordered| && NoDuplicates(ordered) && DependenciesFirst(depends, ordered)
    requires forall o :: o in ordered ==> o in depends
    ensures !StrictlyReaches(Prerequisites(depends), ordered[i], ordered[i])
  {
    if StrictlyReaches(Prerequisites(depends), ordered[i], ordered[i]) {
      ReachedComesEarlier(depends, ordered, i, ordered[i]);
    }
  }

  lemma ReachedComesEarlier(depends: Depends, ordered: seq<Id>, i: nat, d: Id)
    requires i < |ordered| && DependenciesFirst(depends, ordered)
    requires forall o :: o in ordered ==> o in depends
    requires StrictlyReaches(Prerequisites(depends), ordered[i], d)
    ensures d in ordered[..i]
  {
    var rel, earlier := Prerequisites(depends), iset u | u in ordered[..i];
    forall u, v | (u == ordered[i] || u in earlier) && (u, v) in rel ensures v in earlier {
      if u in earlier {
        var j :| 0 <= j < i && ordered[j] == u;
        assert v in ordered[..j];
      }
    }
    var z :| Reaches(rel, ordered[i], z) && (z, d) in rel;
    ClosedReaches(rel, ordered[i], z, iset u | u == ordered[i] || u in earlier);
  }

  /** Waiting for an operation that is itself still waiting. */
  predicate Waiting(depends: Depends, remaining: set<Id>, o: Id) {
    o in depends && depends[o] * remaining != {}
  }

  method ReadyOperations(order: seq<Id>, depends: Depends, remaining: set<Id>) returns (ready: seq<Id>)
    requires NoDuplicates(order) && forall o :: o in order <==> o in depends
    ensures NoDuplicates(ready)
    ensures forall o :: o in ready <==> o in depends && o in remaining && !Waiting(depends, remaining, o)
  {
    ready := [];
    for i := 0 to |order|
      invariant NoDuplicates(ready)
      invariant forall o :: o in ready <==> o in order[..i] && o in depends && o in remaining && !Waiting(depends, remaining, o)
    {
      assert order[..i + 1] == order[..i] + [order[i]];
      assert order[i] in order && order[i] !in order[..i];
      if order[i] in remaining && !Waiting(depends, remaining, order[i]) {
        ready := ready + [order[i]];
      }
    }
    assert order[..|order|] == order;
  }

  /** One round: the ready operations go behind everything ordered before them. */
  lemma RoundKeepsOrder(depends: Depends, ids: set<Id>, ordered: seq<Id>, ready: seq<Id>, remaining: set<Id>)
    requires DependencyClosed(depends, ids) && remaining <= ids
    requires NoDuplicates(ordered) && DependenciesFirst(depends, ordered) && NoDuplicates(ready)
    requires forall o :: o in ordered <==> o in ids - remaining
    requires forall o :: o in ready ==> o in depends && o in remaining && !Waiting(depends, remaining, o)
    ensures NoDuplicates(ordered + ready) && DependenciesFirst(depends, ordered + ready)
  {
    var all := ordered + ready;
    forall i, j | 0 <= i < j < |all| ensures all[i] != all[j] {
      if i < |ordered| <= j {
        assert all[i] in ordered && all[j] in ready;
      }
    }
    forall i, d | 0 <= i < |all| && all[i] in depends && d in depends[all[i]] ensures d in all[..i] {
      if i < |ordered| {
        assert all[..i] == ordered[..i];
      } else {
        assert all[i] in ready && d !in depends[all[i]] * remaining;
        assert d in ordered && ordered <= all[..i];
      }
    }
  }

  /** Terminates on every request; a cycle is reported only when one exists inside the selection. */
  method Selection(order: seq<Id>, depends: Depends, request: Option<set<Id>>) returns (r: SelectionResult)
    requires NoDuplicates(order) && forall o :: o in order <==> o in depends
    ensures r.UnknownOperation? <==> !(Requested(depends, request) <= depends.Keys)
    ensures r.IncompleteDependencies? <==>
      Requested(depends, request) <= depends.Keys && !DependencyClosed(depends, Requested(depends, request))
    ensures r.CyclicDependencies? ==>
      exists c :: c in Requested(depends, request) && StrictlyReaches(Prerequisites(depends), c, c)
    ensures r.Selected? ==>
      && r.ids == Requested(depends, request)
      && IsPermutationOf(r.ordered, r.ids) && DependenciesFirst(depends, r.ordered)
      && forall c :: c in r.ids ==> !StrictlyReaches(Prerequisites(depends), c, c)
  {
    hide StrictlyReaches;
    var ids := Requested(depends, request);
    if !(ids <= depends.Keys) {
      return UnknownOperation;
    }
    if !DependencyClosed(depends, ids) {
      return IncompleteDependencies;
    }
    var remaining, ordered := ids, [];
    while remaining != {}
      invariant remaining <= ids && forall o :: o in ordered <==> o in ids - remaining
      invariant NoDuplicates(ordered) && DependenciesFirst(depends, ordered)
      decreases |remaining|
    {
      var ready := ReadyOperations(order, depends, remaining);
      if ready == [] {
        StuckMeansCycle(depends, remaining);
        return CyclicDependencies;
      }
      RoundKeepsOrder(depends, ids, ordered, ready, remaining);
      assert ready[0] in ready;
      ghost var before := remaining;
      ordered := ordered + ready;
      remaining := remaining - set o | o in ready;
      SubsetSmaller(remaining, before);
    }
    forall c | c in ids ensures !StrictlyReaches(Prerequisites(depends), c, c) {
      assert c in ordered;
      var i :| 0 <= i < |ordered| && ordered[i] == c;
      OrderedHasNoCycle(depends, ordered, i);
    }
    return Selected(ids, ordered);
  }

  lemma StuckMeansCycle(depends: Depends, remaining: set<Id>)
    requires remaining != {} && remaining <= depends.Keys
    requires forall o {:trigger Waiting(depends, remaining, o)} :: o in remaining ==> Waiting(depends, remaining, o)
    ensures exists c :: c in remaining && StrictlyReaches(Prerequisites(depends), c, c)
  {
    var rel := Prerequisites(depends);
    forall o | o in remaining ensures HasSuccessor(rel, remaining, o) {
      assert Waiting(depends, remaining, o);
      var d :| d in depends[o] && d in remaining;
      assert (o, d) in rel;
    }
    var x :| x in remaining;
    NoSinkHasCycle(rel, remaining, x);
  }
}

/** Walks over a finite relation. Every graph search of the repository, and the
    dependency graph of a patch, is specified against this one relation. */
module Reachability {

  /** A row identity. Only equality and a fixed order on identities matter. */
  datatype Id = Uuid(value: int)

  /** Identities never run out. */
  lemma {:induction false} UnusedId(ids: set<Id>) returns (x: Id)
    ensures forall y :: y in ids ==> y.value < x.value
    decreases ids
  {
    if ids == {} {
      x := Uuid(0);
    } else {
      var y :| y in ids;
      var z := UnusedId(ids - {y});
      x := if y.value < z.value then z else Uuid(y.value + 1);
      assert forall u :: u in ids ==> u == y || u in ids - {y};
    }
  }

  /** The two ends of one dependency: the descendant depends on the ancestor. */
  type Relation = set<(Id, Id)>

  ghost predicate Walk(rel: Relation, x: Id, y: Id, n: nat)
    decreases n
  {
    if n == 0 then x == y else exists z :: Walk(rel, x, z, n - 1) && (z, y) in rel
  }

  ghost predicate Reaches(rel: Relation, x: Id, y: Id) {
    exists n: nat :: Walk(rel, x, y, n)
  }

  /** At least one step: the strict dependents of x, and x itself when it lies on a cycle. */
  ghost predicate StrictlyReaches(rel: Relation, x: Id, y: Id) {
    exists z :: Reaches(rel, x, z) && (z, y) in rel
  }

  ghost predicate ReachedFrom(rel: Relation, roots: set<Id>, y: Id) {
    exists x :: x in roots && Reaches(rel, x, y)
  }

  ghost predicate Acyclic(rel: Relation) {
    forall x :: !StrictlyReaches(rel, x, x)
  }

  function Converse(rel: Relation): (r: Relation)
    ensures forall x, y :: (x, y) in r <==> (y, x) in rel
  {
    var r := set p | p in rel :: (p.1, p.0);
    assert forall x, y :: (y, x) in rel ==> (x, y) in r by {
      forall x, y | (y, x) in rel ensures (x, y) in r {
        assert (x, y) == ((y, x).1, (y, x).0);
      }
    }
    r
  }

  lemma ReachesSelf(rel: Relation, x: Id)
    ensures Reaches(rel, x, x)
  {
    assert Walk(rel, x, x, 0);
  }

  lemma ReachesStep(rel: Relation, x: Id, y: Id, z: Id)
    requires Reaches(rel, x, y) && (y, z) in rel
    ensures Reaches(rel, x, z)
  {
    var n: nat :| Walk(rel, x, y, n);
    assert Walk(rel, x, z, n + 1);
  }

  /** A set that holds x and is closed under the relation holds everything x reaches. */
  lemma {:induction false} ClosedWalk(rel: Relation, x: Id, y: Id, n: nat, closed: iset<Id>)
    requires x in closed
    requires forall u, v :: u in closed && (u, v) in rel ==> v in closed
    requires Walk(rel, x, y, n)
    ensures y in closed
    decreases n
  {
    if n > 0 {
      var z :| Walk(rel, x, z, n - 1) && (z, y) in rel;
      ClosedWalk(rel, x, z, n - 1, closed);
    }
  }

  lemma ClosedReaches(rel: Relation, x: Id, y: Id, closed: iset<Id>)
    requires x in closed
    requires forall u, v :: u in closed && (u, v) in rel ==> v in closed
    requires Reaches(rel, x, y)
    ensures y in closed
  {
    var n: nat :| Walk(rel, x, y, n);
    ClosedWalk(rel, x, y, n, closed);
  }

  lemma ReachesTransitive(rel: Relation, x: Id, y: Id, z: Id)
    requires Reaches(rel, x, y) && Reaches(rel, y, z)
    ensures Reaches(rel, x, z)
  {
    var closed := iset u | Reaches(rel, x, u);
    forall u, v | u in closed && (u, v) in rel ensures v in closed {
      ReachesStep(rel, x, u, v);
    }
    ClosedReaches(rel, y, z, closed);
  }

  lemma ReachesMonotone(small: Relation, large: Relation, x: Id, y: Id)
    requires small <= large && Reaches(small, x, y)
    ensures Reaches(large, x, y)
  {
    var closed := iset u | Reaches(large, x, u);
    forall u, v | u in closed && (u, v) in small ensures v in closed {
      ReachesStep(large, x, u, v);
    }
    ReachesSelf(large, x);
    ClosedReaches(small, x, y, closed);
  }

  lemma ReachesHeadStep(rel: Relation, x: Id, y: Id, z: Id)
    requires (x, y) in rel && Reaches(rel, y, z)
    ensures Reaches(rel, x, z)
  {
    ReachesSelf(rel, x);
    ReachesStep(rel, x, x, y);
    ReachesTransitive(rel, x, y, z);
  }

  lemma StrictImpliesReaches(rel: Relation, x: Id, y: Id)
    ensures StrictlyReaches(rel, x, y) ==> Reaches(rel, x, y)
    ensures Reaches(rel, x, y) && x != y ==> StrictlyReaches(rel, x, y)
  {
    if StrictlyReaches(rel, x, y) {
      var z :| Reaches(rel, x, z) && (z, y) in rel;
      ReachesStep(rel, x, z, y);
    }
    if Reaches(rel, x, y) && x != y {
      var n: nat :| Walk(rel, x, y, n);
      var z :| Walk(rel, x, z, n - 1) && (z, y) in rel;
      assert Reaches(rel, x, z);
    }
  }

  lemma {:induction false} ConverseWalk(rel: Relation, x: Id, y: Id, n: nat)
    requires Walk(rel, x, y, n)
    ensures Reaches(Converse(rel), y, x)
    decreases n
  {
    if n == 0 {
      ReachesSelf(Converse(rel), x);
    } else {
      var z :| Walk(rel, x, z, n - 1) && (z, y) in rel;
      ConverseWalk(rel, x, z, n - 1);
      ReachesHeadStep(Converse(rel), y, z, x);
    }
  }

  /** Reachability in the converse relation is reachability read backwards. */
  lemma ConverseReaches(rel: Relation, x: Id, y: Id)
    ensures Reaches(rel, x, y) <==> Reaches(Converse(rel), y, x)
  {
    if Reaches(rel, x, y) {
      var n: nat :| Walk(rel, x, y, n);
      ConverseWalk(rel, x, y, n);
    }
    if Reaches(Converse(rel), y, x) {
      var n: nat :| Walk(Converse(rel), y, x, n);
      ConverseWalk(Converse(rel), y, x, n);
      assert Converse(Converse(rel)) == rel;
    }
  }

  /** A walk out of x that avoids a removed pair, or passes through its head, stays covered. */
  lemma RemovedPairCovered(large: Relation, small: Relation, x: Id, head: Id, tail: Id, y: Id)
    requires forall p :: p in large ==> p in small || p == (tail, head)
    requires Reaches(large, x, y)
    ensures Reaches(small, x, y) || Reaches(small, head, y)
  {
    var closed := iset u | Reaches(small, x, u) || Reaches(small, head, u);
    forall u, v | u in closed && (u, v) in large ensures v in closed {
      if (u, v) in small {
        if Reaches(small, x, u) { ReachesStep(small, x, u, v); } else { ReachesStep(small, head, u, v); }
      } else {
        ReachesSelf(small, head);
      }
    }
    ReachesSelf(small, x);
    ClosedReaches(large, x, y, closed);
  }

  /** The relation between members of s only. */
  function Within(rel: Relation, s: set<Id>): (r: Relation)
    ensures r <= rel
    ensures forall x, y :: (x, y) in r <==> (x, y) in rel && x in s && y in s
  {
    set p | p in rel && p.0 in s && p.1 in s
  }

  ghost predicate HasSuccessor(rel: Relation, s: set<Id>, x: Id) {
    exists y :: y in s && (x, y) in rel
  }

  ghost function Below(rel: Relation, s: set<Id>, x: Id): (below: set<Id>)
    ensures below <= s
    ensures forall y :: y in below <==> y in s && StrictlyReaches(Within(rel, s), x, y)
  {
    set y | y in s && StrictlyReaches(Within(rel, s), x, y)
  }

  /** In a finite set where every member has a successor inside, some member lies on a cycle. */
  lemma {:induction false} NoSinkHasCycle(rel: Relation, s: set<Id>, x: Id)
    requires x in s && forall u {:trigger HasSuccessor(rel, s, u)} :: u in s ==> HasSuccessor(rel, s, u)
    ensures exists c :: c in s && StrictlyReaches(rel, c, c)
    decreases |s|
  {
    var below := Below(rel, s, x);
    if x in below {
      WithinCycle(rel, s, x);
    } else {
      SubsetSmaller(below, s);
      forall u | u in below ensures HasSuccessor(rel, below, u) {
        SuccessorBelow(rel, s, x, u);
      }
      SuccessorBelow(rel, s, x, x);
      var y :| y in below && (x, y) in rel;
      NoSinkHasCycle(rel, below, y);
    }
  }

  lemma WithinCycle(rel: Relation, s: set<Id>, x: Id)
    requires x in Below(rel, s, x)
    ensures StrictlyReaches(rel, x, x)
  {
    var z :| Reaches(Within(rel, s), x, z) && (z, x) in Within(rel, s);
    ReachesMonotone(Within(rel, s), rel, x, z);
  }

  lemma SuccessorBelow(rel: Relation, s: set<Id>, x: Id, u: Id)
    requires u in s && HasSuccessor(rel, s, u) && (u == x || u in Below(rel, s, x))
    ensures HasSuccessor(rel, Below(rel, s, x), u)
  {
    var v :| v in s && (u, v) in rel;
    ReachesSelf(Within(rel, s), x);
    StrictImpliesReaches(Within(rel, s), x, u);
    assert StrictlyReaches(Within(rel, s), x, v);
  }

  lemma SubsetSmaller<T>(a: set<T>, b: set<T>)
    requires a < b
    ensures |a| < |b|
  {
    var x :| x in b && x !in a;
    assert a <= b - {x};
    SubsetCardinality(a, b - {x});
  }

  lemma {:induction false} SubsetCardinality<T>(a: set<T>, b: set<T>)
    requires a <= b
    ensures |a| <= |b|
  {
    if a != {} {
      var x :| x in a;
      SubsetCardinality(a - {x}, b - {x});
    }
  }
}

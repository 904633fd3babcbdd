/** `sorted(...)` over identities: the rows and work lists of the source are always visited
    in one fixed order. */
module Ordering {
  import opened Reachability

  ghost predicate IsLeast(s: set<Id>, m: Id) {
    m in s && forall x :: x in s ==> m.value <= x.value
  }

  lemma {:induction false} LeastExists(s: set<Id>)
    requires s != {}
    ensures exists m :: IsLeast(s, m)
    decreases |s|
  {
    var x :| x in s;
    var rest := s - {x};
    if rest == {} {
      assert s == {x};
      assert IsLeast(s, x);
    } else {
      LeastExists(rest);
      var m :| IsLeast(rest, m);
      assert IsLeast(s, if m.value <= x.value then m else x);
    }
  }

  lemma SplitHead<T>(q: seq<T>)
    requires q != []
    ensures q == [q[0]] + q[1..]
  {
  }

  predicate StrictlyIncreasing(q: seq<Id>) {
    forall i, j :: 0 <= i < j < |q| ==> q[i].value < q[j].value
  }

  /** The members of s in increasing order, each once. */
  method Sorted(s: set<Id>) returns (q: seq<Id>)
    ensures StrictlyIncreasing(q)
    ensures forall x :: x in q <==> x in s
    ensures forall i :: 0 <= i < |q| ==> q[i] in s
    ensures |q| == |s|
  {
    q := [];
    var rest := s;
    while rest != {}
      invariant rest <= s && |q| + |rest| == |s|
      invariant forall x :: x in s <==> x in q || x in rest
      invariant forall i :: 0 <= i < |q| ==> q[i] in s && forall y :: y in rest ==> q[i].value < y.value
      invariant StrictlyIncreasing(q)
      decreases |rest|
    {
      LeastExists(rest);
      var m :| m in rest && forall x :: x in rest ==> m.value <= x.value;
      q, rest := q + [m], rest - {m};
    }
  }
}

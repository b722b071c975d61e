/** Numbers in ascending order, and the greatest and least of a set. */
module Sorting {
  function Members<T>(xs: seq<T>): set<T> {
    set x | x in xs
  }

  predicate Increasing(xs: seq<int>) {
    forall i, j :: 0 <= i < j < |xs| ==> xs[i] < xs[j]
  }

  lemma EmptyOrNot(keys: set<int>)
    ensures keys == {} || exists k :: k in keys
  {
    if forall k :: k !in keys {
      assert keys == {};
    }
  }

  predicate NoneAbove(keys: set<int>, k: int) {
    forall j :: j in keys ==> j <= k
  }

  predicate NoneBelow(keys: set<int>, k: int) {
    forall j :: j in keys ==> k <= j
  }

  lemma {:induction false} GreatestExists(keys: set<int>)
    requires keys != {}
    ensures exists k :: k in keys && NoneAbove(keys, k)
    decreases |keys|
  {
    EmptyOrNot(keys);
    var first :| first in keys;
    var rest := keys - {first};
    if rest == {} {
      assert keys == {first};
      assert NoneAbove(keys, first);
    } else {
      GreatestExists(rest);
      var other :| other in rest && NoneAbove(rest, other);
      var found := if first > other then first else other;
      forall j | j in keys ensures j <= found {
        assert j != first ==> j in rest;
      }
      assert NoneAbove(keys, found);
    }
  }

  ghost function Greatest(keys: set<int>): (k: int)
    requires keys != {}
    ensures k in keys && forall j :: j in keys ==> j <= k
  {
    GreatestExists(keys);
    var k :| k in keys && NoneAbove(keys, k);
    k
  }

  lemma {:induction false} LeastExists(keys: set<int>)
    requires keys != {}
    ensures exists k :: k in keys && NoneBelow(keys, k)
    decreases |keys|
  {
    EmptyOrNot(keys);
    var first :| first in keys;
    var rest := keys - {first};
    if rest == {} {
      assert keys == {first};
      assert NoneBelow(keys, first);
    } else {
      LeastExists(rest);
      var other :| other in rest && NoneBelow(rest, other);
      var found := if first < other then first else other;
      forall j | j in keys ensures found <= j {
        assert j != first ==> j in rest;
      }
      assert NoneBelow(keys, found);
    }
  }

  lemma MembersSnoc<T>(xs: seq<T>)
    requires xs != []
    ensures Members(xs) == Members(xs[..|xs| - 1]) + {xs[|xs| - 1]}
  {
    assert xs == xs[..|xs| - 1] + [xs[|xs| - 1]];
  }

  lemma LastIsGreatest(xs: seq<int>)
    requires Increasing(xs) && xs != []
    ensures Members(xs) != {} && Greatest(Members(xs)) == xs[|xs| - 1]
    ensures Members(xs[..|xs| - 1]) == Members(xs) - {xs[|xs| - 1]}
  {
    var n := |xs| - 1;
    assert xs[n] in Members(xs);
    MembersSnoc(xs);
    assert xs[n] !in Members(xs[..n]);
  }

  /** A set of numbers in ascending order. */
  ghost function Ascending(keys: set<int>): seq<int>
    decreases |keys|
  {
    if keys == {} then [] else Ascending(keys - {Greatest(keys)}) + [Greatest(keys)]
  }

  lemma {:induction false} AscendingIsUnique(xs: seq<int>)
    requires Increasing(xs)
    ensures xs == Ascending(Members(xs))
  {
    if xs != [] {
      var n := |xs| - 1;
      LastIsGreatest(xs);
      AscendingIsUnique(xs[..n]);
      assert xs == xs[..n] + [xs[n]];
    } else {
      assert Members(xs) == {};
    }
  }

  lemma {:induction false} AscendingHas(keys: set<int>)
    ensures Members(Ascending(keys)) == keys
    decreases |keys|
  {
    if keys != {} {
      var top := Greatest(keys);
      AscendingHas(keys - {top});
      assert Members(Ascending(keys - {top}) + [top]) == Members(Ascending(keys - {top})) + {top};
    } else {
      assert Members<int>([]) == {};
    }
  }

  /** Each number once, in ascending order. */
  method Sort(keys: set<int>) returns (sorted: seq<int>)
    ensures Increasing(sorted) && Members(sorted) == keys
  {
    var rest := keys;
    sorted := [];
    while rest != {}
      invariant rest <= keys && Members(sorted) == keys - rest
      invariant Increasing(sorted)
      invariant forall i, k :: 0 <= i < |sorted| && k in rest ==> sorted[i] < k
    {
      LeastExists(rest);
      var least :| least in rest && NoneBelow(rest, least);
      assert Members(sorted + [least]) == Members(sorted) + {least};
      sorted, rest := sorted + [least], rest - {least};
    }
  }
}

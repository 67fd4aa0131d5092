/**
 Small notions shared by several components.
 */
module Collections {
  datatype Option<T> = None | Some(value: T)

  ghost predicate Distinct<T>(s: seq<T>) {
    forall i, j :: 0 <= i < j < |s| ==> s[i] != s[j]
  }

  // The natural numbers below n.
  function Indices(n: nat): (r: set<nat>)
    ensures |r| == n
    ensures forall i: nat :: i in r <==> i < n
  {
    if n == 0 then {} else Indices(n - 1) + {n - 1}
  }

  // The next element of a range over a map, in any order.
  method Pick<T>(s: set<T>) returns (x: T)
    requires s != {}
    ensures x in s
  {
    x :| x in s;
  }

  lemma SubsetSize<T>(a: set<T>, b: set<T>)
    requires a <= b
    ensures |a| <= |b|
  {
    assert b == a + (b - a);
  }

  // A list without repetitions has as many elements as places.
  lemma {:induction false} DistinctSize<T>(s: seq<T>, all: set<T>)
    requires Distinct(s) && all == set x | x in s
    ensures |all| == |s|
  {
    if s != [] {
      var front, last := s[..|s| - 1], s[|s| - 1];
      var less := set x | x in front;
      DistinctSize(front, less);
      assert s == front + [last];
      assert last !in less;
      assert all == less + {last};
    }
  }

  // A list without repetitions counts every element once.
  lemma {:induction false} OnceOrNever<T>(s: seq<T>, x: T)
    requires Distinct(s)
    ensures multiset(s)[x] == if x in s then 1 else 0
  {
    if s != [] {
      var rest := s[..|s| - 1];
      OnceOrNever(rest, x);
      assert s == rest + [s[|s| - 1]];
      assert forall i :: 0 <= i < |rest| ==> rest[i] == s[i];
    }
  }
}

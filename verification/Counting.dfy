/**
 Counting positions of a sequence by value, and summing numbers over a list of distinct groups.
 */
module Counting {
  import opened Collections

  // How many of the positions below n are in the set.
  ghost function CountBelow(at: set<nat>, n: nat): nat {
    if n == 0 then 0 else CountBelow(at, n - 1) + if n - 1 in at then 1 else 0
  }

  // How many of them hold g.
  ghost function CountOf(s: seq<int>, at: set<nat>, g: int, n: nat): nat
    requires n <= |s|
  {
    if n == 0 then 0 else CountOf(s, at, g, n - 1) + if n - 1 in at && s[n - 1] == g then 1 else 0
  }

  lemma {:induction false} CountSame(s: seq<int>, at: set<nat>, s': seq<int>, at': set<nat>, g: int, n: nat)
    requires n <= |s| && n <= |s'|
    requires forall i: nat :: i < n ==> (i in at && s[i] == g <==> i in at' && s'[i] == g)
    ensures CountOf(s, at, g, n) == CountOf(s', at', g, n)
  {
    if n > 0 {
      CountSame(s, at, s', at', g, n - 1);
    }
  }

  lemma {:induction false} CountOneMore(s: seq<int>, at: set<nat>, s': seq<int>, at': set<nat>, g: int, n: nat, k: nat)
    requires n <= |s| && n <= |s'| && k < n && !(k in at && s[k] == g) && k in at' && s'[k] == g
    requires forall i: nat :: i < n && i != k ==> (i in at && s[i] == g <==> i in at' && s'[i] == g)
    ensures CountOf(s', at', g, n) == CountOf(s, at, g, n) + 1
  {
    if k == n - 1 {
      CountSame(s, at, s', at', g, n - 1);
    } else {
      CountOneMore(s, at, s', at', g, n - 1, k);
    }
  }

  lemma {:induction false} CountAtMost(s: seq<int>, at: set<nat>, s': seq<int>, at': set<nat>, g: int, n: nat)
    requires n <= |s| && n <= |s'|
    requires forall i: nat :: i < n && i in at && s[i] == g ==> i in at' && s'[i] == g
    ensures CountOf(s, at, g, n) <= CountOf(s', at', g, n)
  {
    if n > 0 {
      CountAtMost(s, at, s', at', g, n - 1);
    }
  }

  lemma {:induction false} CountBelowSize(at: set<nat>, n: nat)
    requires forall i: nat :: i in at ==> i < n
    ensures CountBelow(at, n) == |at|
  {
    if n > 0 {
      if n - 1 in at {
        CountBelowSize(at - {n - 1}, n - 1);
        CountBelowSame(at, at - {n - 1}, n - 1);
        assert at == (at - {n - 1}) + {n - 1};
      } else {
        CountBelowSize(at, n - 1);
      }
    } else {
      assert at == {};
    }
  }

  lemma {:induction false} CountBelowSame(a: set<nat>, b: set<nat>, n: nat)
    requires forall i: nat :: i < n ==> (i in a <==> i in b)
    ensures CountBelow(a, n) == CountBelow(b, n)
  {
    if n > 0 {
      CountBelowSame(a, b, n - 1);
    }
  }

  // ---------------------------------------------------------------------------------------
  // Sums over groups
  // ---------------------------------------------------------------------------------------

  ghost predicate Defined(t: seq<int>, f: map<int, int>) {
    forall j :: 0 <= j < |t| ==> t[j] in f
  }

  // The sum of f over the groups of t from k on.
  ghost function Sum(t: seq<int>, k: nat, f: map<int, int>): int
    requires k <= |t| && Defined(t, f)
    decreases |t| - k
  {
    if k == |t| then 0 else f[t[k]] + Sum(t, k + 1, f)
  }

  lemma {:induction false} SumSame(t: seq<int>, k: nat, f: map<int, int>, g: map<int, int>)
    requires k <= |t| && Defined(t, f) && Defined(t, g) && forall j :: k <= j < |t| ==> f[t[j]] == g[t[j]]
    ensures Sum(t, k, f) == Sum(t, k, g)
    decreases |t| - k
  {
    if k < |t| {
      SumSame(t, k + 1, f, g);
    }
  }

  lemma {:induction false} SumAtMost(t: seq<int>, k: nat, f: map<int, int>, g: map<int, int>)
    requires k <= |t| && Defined(t, f) && Defined(t, g) && forall j :: k <= j < |t| ==> f[t[j]] <= g[t[j]]
    ensures Sum(t, k, f) <= Sum(t, k, g)
    decreases |t| - k
  {
    if k < |t| {
      SumAtMost(t, k + 1, f, g);
    }
  }

  lemma {:induction false} SumAdds(t: seq<int>, k: nat, f: map<int, int>, g: map<int, int>, h: map<int, int>)
    requires k <= |t| && Defined(t, f) && Defined(t, g) && Defined(t, h)
    requires forall j :: k <= j < |t| ==> h[t[j]] == f[t[j]] + g[t[j]]
    ensures Sum(t, k, h) == Sum(t, k, f) + Sum(t, k, g)
    decreases |t| - k
  {
    if k < |t| {
      SumAdds(t, k + 1, f, g, h);
    }
  }

  // One group's number grows by one.
  lemma {:induction false} SumOneMore(t: seq<int>, k: nat, f: map<int, int>, g: map<int, int>, m: nat)
    requires Distinct(t) && k <= m < |t| && Defined(t, f) && Defined(t, g) && g[t[m]] == f[t[m]] + 1
    requires forall j :: 0 <= j < |t| && j != m ==> f[t[j]] == g[t[j]]
    ensures Sum(t, k, g) == Sum(t, k, f) + 1
    decreases |t| - k
  {
    if k == m {
      SumSame(t, k + 1, f, g);
    } else {
      SumOneMore(t, k + 1, f, g, m);
    }
  }

  lemma {:induction false} SumConstant(t: seq<int>, k: nat, f: map<int, int>, c: int)
    requires k <= |t| && Defined(t, f) && forall j :: k <= j < |t| ==> f[t[j]] == c
    ensures Sum(t, k, f) == (|t| - k) * c
    decreases |t| - k
  {
    if k < |t| {
      SumConstant(t, k + 1, f, c);
    }
  }

  ghost function Counts(s: seq<int>, at: set<nat>, t: seq<int>, n: nat): map<int, int>
    requires n <= |s|
  {
    map g | g in t :: CountOf(s, at, g, n)
  }

  // Positions that hold one of the groups, counted by group.
  lemma {:induction false} SumOfCounts(s: seq<int>, at: set<nat>, t: seq<int>, n: nat)
    requires Distinct(t) && n <= |s| && forall i: nat :: i < n && i in at ==> s[i] in t
    ensures Sum(t, 0, Counts(s, at, t, n)) == CountBelow(at, n)
  {
    if n == 0 {
      SumConstant(t, 0, Counts(s, at, t, 0), 0);
    } else {
      SumOfCounts(s, at, t, n - 1);
      if n - 1 in at {
        var m :| 0 <= m < |t| && t[m] == s[n - 1];
        SumOneMore(t, 0, Counts(s, at, t, n - 1), Counts(s, at, t, n), m);
      } else {
        SumSame(t, 0, Counts(s, at, t, n - 1), Counts(s, at, t, n));
      }
    }
  }
}

/**
 The invariant of the backtracking search in src/porcupine/checker.go, on values: which calls
 are linearized, which candidates have failed at each level of the stack, and what the cache
 of (linearized, state) pairs says.
 */
module Search {
  import opened Collections
  import opened Linearizability
  import opened Bitset

  datatype Entry<I, O> =
    | CallEntry(input: I, id: nat, time: int)
    | ReturnEntry(output: O, id: nat, time: int)

  // A history to check: its operations, its entries in order, and where each operation's call
  // and return stand among them.
  datatype Problem<!S, !I, !O> = Problem(
    model: Model<S, I, O>,
    ops: seq<Operation<I, O>>,
    entries: seq<Entry<I, O>>,
    calls: seq<nat>,
    rets: seq<nat>)
  {
    ghost predicate OperationAt(i: nat)
      requires i < |ops| && |calls| == |ops| && |rets| == |ops|
    {
      && calls[i] < rets[i] < |entries|
      && entries[calls[i]].CallEntry? && entries[calls[i]].id == i && entries[calls[i]].input == ops[i].input
      && entries[rets[i]].ReturnEntry? && entries[rets[i]].id == i && entries[rets[i]].output == ops[i].output
    }

    ghost predicate EntryAt(x: nat)
      requires x < |entries| && |calls| == |ops| && |rets| == |ops|
    {
      && entries[x].id < |ops|
      && x == if entries[x].CallEntry? then calls[entries[x].id] else rets[entries[x].id]
    }

    // Every operation has one call, and one return after it.
    ghost predicate WellFormed() {
      && |calls| == |ops| && |rets| == |ops| && |entries| == 2 * |ops|
      && (forall i: nat :: i < |ops| ==> OperationAt(i))
      && (forall x: nat :: x < |entries| ==> EntryAt(x))
    }

    // Operation a's return stands before operation b's call.
    function Before(): Order {
      (a: nat, b: nat) => a < |rets| && b < |calls| && rets[a] < calls[b]
    }

    function Rest(done: set<nat>): (r: set<nat>)
      ensures forall i: nat :: i in r <==> i < |ops| && i !in done
    {
      Indices(|ops|) - done
    }

    ghost predicate CanFinish(done: set<nat>, s: S) {
      Completes(model, ops, Before(), Rest(done), s)
    }

    // Putting i next leads nowhere.
    ghost predicate Failed(done: set<nat>, s: S, i: nat)
      requires i < |ops|
    {
      Step(model, ops, s, i).0 ==> !CanFinish(done + {i}, Step(model, ops, s, i).1)
    }

    // -------------------------------------------------------------------------------------
    // The list of entries still to linearize
    // -------------------------------------------------------------------------------------

    function LiveBelow(done: set<nat>, n: nat): (r: seq<nat>)
      requires n <= |entries|
    {
      if n == 0 then []
      else LiveBelow(done, n - 1) + if entries[n - 1].id in done then [] else [n - 1]
    }

    function Live(done: set<nat>): seq<nat> {
      LiveBelow(done, |entries|)
    }

    // The first e live entries are calls, and each of them has failed as the next operation.
    ghost predicate Scanned(done: set<nat>, s: S, e: nat) {
      && e <= |Live(done)|
      && forall y: nat :: y < e ==> FailedAt(done, s, Live(done)[y])
    }

    ghost predicate FailedAt(done: set<nat>, s: S, x: nat) {
      x < |entries| && entries[x].CallEntry? && entries[x].id < |ops| && Failed(done, s, entries[x].id)
    }
  }

  ghost predicate Increasing(s: seq<nat>) {
    forall a, b :: 0 <= a < b < |s| ==> s[a] < s[b]
  }

  lemma {:induction false} LiveBelowIs<S, I, O>(p: Problem<S, I, O>, done: set<nat>, n: nat)
    requires n <= |p.entries|
    ensures Increasing(p.LiveBelow(done, n))
    ensures forall x: nat :: x in p.LiveBelow(done, n) <==> x < n && p.entries[x].id !in done
  {
    if n > 0 {
      LiveBelowIs(p, done, n - 1);
      var before := p.LiveBelow(done, n - 1);
      assert forall k :: 0 <= k < |before| ==> before[k] in before;
    }
  }

  // The live entries are exactly those of operations not yet linearized, in original order.
  lemma LiveIs<S, I, O>(p: Problem<S, I, O>, done: set<nat>)
    ensures Increasing(p.Live(done))
    ensures forall x: nat :: x in p.Live(done) <==> x < |p.entries| && p.entries[x].id !in done
    ensures forall k :: 0 <= k < |p.Live(done)| ==>
            p.Live(done)[k] < |p.entries| && p.entries[p.Live(done)[k]].id !in done
  {
    LiveBelowIs(p, done, |p.entries|);
    assert forall k :: 0 <= k < |p.Live(done)| ==> p.Live(done)[k] in p.Live(done);
  }

  lemma FrontIs(a: seq<nat>)
    requires Increasing(a) && a != []
    ensures forall x: nat :: x in a[..|a| - 1] <==> x in a && x < a[|a| - 1]
  {
  }

  lemma SameEmpty(a: seq<nat>, b: seq<nat>)
    requires forall x: nat :: x in a <==> x in b
    ensures a == [] <==> b == []
  {
    assert |a| > 0 ==> a[0] in b;
    assert |b| > 0 ==> b[0] in a;
  }

  lemma SameLast(a: seq<nat>, b: seq<nat>)
    requires Increasing(a) && Increasing(b) && a != [] && b != []
    requires a[|a| - 1] in b && b[|b| - 1] in a
    ensures a[|a| - 1] == b[|b| - 1]
  {
  }

  lemma {:induction false} IncreasingUnique(a: seq<nat>, b: seq<nat>)
    requires Increasing(a) && Increasing(b)
    requires forall x: nat :: x in a <==> x in b
    ensures a == b
    decreases |a|
  {
    SameEmpty(a, b);
    if a != [] {
      var m, n := |a| - 1, |b| - 1;
      assert a[m] in a && b[n] in b;
      SameLast(a, b);
      FrontIs(a);
      FrontIs(b);
      forall x: nat ensures x in a[..m] <==> x in b[..n] {
        assert x in a[..m] <==> x in a && x < a[m];
        assert x in b[..n] <==> x in b && x < b[n];
      }
      IncreasingUnique(a[..m], b[..n]);
      assert a == a[..m] + [a[m]] && b == b[..n] + [b[n]];
    }
  }

  // ---------------------------------------------------------------------------------------
  // One level of the search
  // ---------------------------------------------------------------------------------------

  // A live call with only calls before it may come next in real time.
  lemma CallIsFirst<S, I, O>(p: Problem<S, I, O>, done: set<nat>, s: S, e: nat)
    requires p.WellFormed() && p.Scanned(done, s, e)
    requires e < |p.Live(done)|
    requires p.Live(done)[e] < |p.entries| && p.entries[p.Live(done)[e]].CallEntry?
    ensures First(p.Before(), p.Rest(done), p.entries[p.Live(done)[e]].id)
  {
    var live := p.Live(done);
    LiveIs(p, done);
    assert p.EntryAt(live[e]);
    var i := p.entries[live[e]].id;
    assert forall y: nat :: y < e ==> p.FailedAt(done, s, live[y]);
    forall j: nat | j in p.Rest(done) ensures !p.Before()(j, i) {
      assert p.OperationAt(j);
      assert p.rets[j] in live;
      var y: nat :| y < |live| && live[y] == p.rets[j];
      assert e <= y;
    }
  }

  // A live return with only failed calls before it means the level is a dead end.
  lemma ReturnIsStuck<S, I, O>(p: Problem<S, I, O>, done: set<nat>, s: S, e: nat)
    requires p.WellFormed() && p.Scanned(done, s, e)
    requires e < |p.Live(done)|
    requires p.Live(done)[e] < |p.entries| && p.entries[p.Live(done)[e]].ReturnEntry?
    ensures !p.CanFinish(done, s)
  {
    var live := p.Live(done);
    LiveIs(p, done);
    assert p.EntryAt(live[e]);
    var j := p.entries[live[e]].id;
    assert j in p.Rest(done);
    forall i: nat | First(p.Before(), p.Rest(done), i) && Step(p.model, p.ops, s, i).0
      ensures !Completes(p.model, p.ops, p.Before(), p.Rest(done) - {i}, Step(p.model, p.ops, s, i).1)
    {
      assert p.OperationAt(i);
      assert p.calls[i] in live;
      var y: nat :| y < |live| && live[y] == p.calls[i];
      assert !p.Before()(j, i);
      assert y < e;
      assert p.FailedAt(done, s, live[y]);
      assert p.Rest(done + {i}) == p.Rest(done) - {i};
    }
  }

  // ---------------------------------------------------------------------------------------
  // The stack of calls
  // ---------------------------------------------------------------------------------------

  function Done(path: seq<nat>): set<nat> {
    set i | i in path
  }

  // The linearized operations in order, the states around them, and how far each level's list
  // of live entries has been scanned.
  datatype Trail<!S> = Trail(path: seq<nat>, states: seq<S>, at: seq<nat>) {
    predicate Shape() {
      |states| == |path| + 1 && |at| == |path| + 1
    }

    function Depth(): nat {
      |path|
    }

    function DoneAt(k: nat): set<nat>
      requires k <= |path|
    {
      Done(path[..k])
    }
  }

  // The k-th linearized operation is the live call where that level's scan stands.
  ghost predicate Linked<S, I, O>(p: Problem<S, I, O>, t: Trail<S>, k: nat)
    requires t.Shape() && k < |t.path|
  {
    && t.path[k] < |p.ops| && t.path[k] < |p.calls|
    && t.at[k] < |p.Live(t.DoneAt(k))| && p.Live(t.DoneAt(k))[t.at[k]] == p.calls[t.path[k]]
    && Step(p.model, p.ops, t.states[k], t.path[k]) == (true, t.states[k + 1])
  }

  ghost predicate TrailOk<S, I, O>(p: Problem<S, I, O>, t: Trail<S>) {
    && t.Shape() && t.states[0] == p.model.init
    && (forall k: nat :: k < |t.path| ==> Linked(p, t, k))
    && (forall k: nat :: k <= |t.path| ==> p.Scanned(t.DoneAt(k), t.states[k], t.at[k]))
  }

  function Pushed<S>(t: Trail<S>, i: nat, s: S): Trail<S> {
    Trail(t.path + [i], t.states + [s], t.at + [0])
  }

  function Skipped<S>(t: Trail<S>): Trail<S>
    requires t.Shape()
  {
    t.(at := t.at[t.Depth() := t.at[t.Depth()] + 1])
  }

  function Popped<S>(t: Trail<S>): Trail<S>
    requires t.Shape() && t.path != []
  {
    var d := t.Depth() - 1;
    Skipped(Trail(t.path[..d], t.states[..d + 1], t.at[..d + 1]))
  }

  // The entry the scan looks at.
  ghost predicate LooksAt<S, I, O>(p: Problem<S, I, O>, t: Trail<S>, x: nat) {
    && t.Shape() && x < |p.entries|
    && t.at[t.Depth()] < |p.Live(Done(t.path))|
    && p.Live(Done(t.path))[t.at[t.Depth()]] == x
  }

  lemma StartIsOk<S, I, O>(p: Problem<S, I, O>)
    ensures TrailOk(p, Trail([], [p.model.init], [0]))
  {
  }

  lemma PushKeeps<S, I, O>(p: Problem<S, I, O>, t: Trail<S>, i: nat, s: S)
    requires p.WellFormed() && TrailOk(p, t) && i < |p.ops| && LooksAt(p, t, p.calls[i])
    requires Step(p.model, p.ops, t.states[t.Depth()], i) == (true, s)
    ensures TrailOk(p, Pushed(t, i, s))
  {
    var u := Pushed(t, i, s);
    assert t.path[..t.Depth()] == t.path;
    forall k: nat | k <= t.Depth() ensures u.DoneAt(k) == t.DoneAt(k) {
      assert u.path[..k] == t.path[..k];
    }
    forall k: nat | k < |u.path| ensures Linked(p, u, k) {
      if k < t.Depth() {
        assert Linked(p, t, k);
      }
    }
  }

  lemma SkipKeeps<S, I, O>(p: Problem<S, I, O>, t: Trail<S>, i: nat)
    requires p.WellFormed() && TrailOk(p, t) && i < |p.ops| && LooksAt(p, t, p.calls[i])
    requires p.Failed(Done(t.path), t.states[t.Depth()], i)
    ensures TrailOk(p, Skipped(t))
  {
    var u, d := Skipped(t), t.Depth();
    assert t.path[..d] == t.path;
    assert p.OperationAt(i);
    assert p.FailedAt(Done(t.path), t.states[d], p.calls[i]);
    forall k: nat | k <= d ensures p.Scanned(u.DoneAt(k), u.states[k], u.at[k]) {
      assert p.Scanned(t.DoneAt(k), t.states[k], t.at[k]);
    }
    forall k: nat | k < d ensures Linked(p, u, k) {
      assert Linked(p, t, k);
    }
  }

  lemma CutKeeps<S, I, O>(p: Problem<S, I, O>, t: Trail<S>, d: nat)
    requires TrailOk(p, t) && d <= t.Depth()
    ensures TrailOk(p, Trail(t.path[..d], t.states[..d + 1], t.at[..d + 1]))
  {
    var u := Trail(t.path[..d], t.states[..d + 1], t.at[..d + 1]);
    forall k: nat | k <= d ensures u.DoneAt(k) == t.DoneAt(k) {
      assert u.path[..k] == t.path[..k];
    }
    forall k: nat | k < d ensures Linked(p, u, k) {
      assert Linked(p, t, k);
    }
  }

  lemma PopKeeps<S, I, O>(p: Problem<S, I, O>, t: Trail<S>, x: nat)
    requires p.WellFormed() && TrailOk(p, t) && t.path != []
    requires LooksAt(p, t, x) && p.entries[x].ReturnEntry?
    ensures !p.CanFinish(Done(t.path), t.states[t.Depth()])
    ensures TrailOk(p, Popped(t))
  {
    var d := t.Depth() - 1;
    assert t.path[..d + 1] == t.path;
    ReturnIsStuck(p, Done(t.path), t.states[d + 1], t.at[d + 1]);
    CutKeeps(p, t, d);
    var u := Trail(t.path[..d], t.states[..d + 1], t.at[..d + 1]);
    assert Linked(p, t, d);
    var i := t.path[d];
    assert t.path == t.path[..d] + [i];
    assert Done(t.path) == Done(u.path) + {i};
    assert p.OperationAt(i);
    SkipKeeps(p, u, i);
  }

  lemma StuckAtTheBottom<S, I, O>(p: Problem<S, I, O>, t: Trail<S>, x: nat)
    requires p.WellFormed() && TrailOk(p, t) && t.path == []
    requires LooksAt(p, t, x) && p.entries[x].ReturnEntry?
    ensures !p.CanFinish({}, p.model.init)
  {
    assert Done(t.path) == {} && t.DoneAt(0) == {};
    ReturnIsStuck(p, {}, t.states[0], t.at[0]);
  }

  lemma NothingLeft<S, I, O>(p: Problem<S, I, O>, done: set<nat>, s: S)
    requires p.WellFormed() && p.Live(done) == []
    ensures p.CanFinish(done, s)
  {
    LiveIs(p, done);
    forall i: nat ensures i !in p.Rest(done) {
      if i < |p.ops| {
        assert p.OperationAt(i);
        assert p.calls[i] !in p.Live(done);
      }
    }
    assert p.Rest(done) == {};
  }

  lemma OneCallBack<S, I, O>(p: Problem<S, I, O>, done: set<nat>, s: S, i: nat)
    requires i < |p.ops| && First(p.Before(), p.Rest(done), i)
    requires Step(p.model, p.ops, s, i).0 && p.CanFinish(done + {i}, Step(p.model, p.ops, s, i).1)
    ensures p.CanFinish(done, s)
  {
    assert p.Rest(done + {i}) == p.Rest(done) - {i};
  }

  lemma LevelBack<S, I, O>(p: Problem<S, I, O>, t: Trail<S>, k: nat)
    requires p.WellFormed() && t.Shape() && k < |t.path| && Linked(p, t, k)
    requires p.Scanned(t.DoneAt(k), t.states[k], t.at[k]) && p.CanFinish(t.DoneAt(k + 1), t.states[k + 1])
    ensures p.CanFinish(t.DoneAt(k), t.states[k])
  {
    var i, done := t.path[k], t.DoneAt(k);
    assert p.OperationAt(i);
    CallIsFirst(p, done, t.states[k], t.at[k]);
    assert t.path[..k + 1] == t.path[..k] + [i];
    assert t.DoneAt(k + 1) == done + {i};
    OneCallBack(p, done, t.states[k], i);
  }

  // With nothing left the operations on the stack are a linearization.
  lemma {:induction false} PathFinishes<S, I, O>(p: Problem<S, I, O>, t: Trail<S>, k: nat)
    requires p.WellFormed() && TrailOk(p, t) && k <= t.Depth() && p.Live(Done(t.path)) == []
    ensures p.CanFinish(t.DoneAt(k), t.states[k])
    decreases t.Depth() - k
  {
    if k == t.Depth() {
      assert t.path[..k] == t.path;
      NothingLeft(p, Done(t.path), t.states[k]);
    } else {
      PathFinishes(p, t, k + 1);
      LevelBack(p, t, k);
    }
  }

  // ---------------------------------------------------------------------------------------
  // The cache
  // ---------------------------------------------------------------------------------------

  // The words after setting the bits of the path, starting from none.
  function Marks(blank: Words, path: seq<nat>): (w: Words)
    requires MarksFit(blank, path)
    ensures |w| == |blank|
  {
    if path == [] then blank else WithBit(Marks(blank, path[..|path| - 1]), path[|path| - 1])
  }

  ghost predicate MarksFit(blank: Words, path: seq<nat>) {
    forall x :: 0 <= x < |path| ==> Fits(blank, path[x])
  }

  lemma {:induction false} MarksAre(blank: Words, n: nat, path: seq<nat>, q: nat)
    requires Blank(blank, n) && MarksFit(blank, path) && Fits(blank, q)
    ensures Bit(Marks(blank, path), q) <==> q in path
  {
    if path != [] {
      var front, last := path[..|path| - 1], path[|path| - 1];
      assert path == front + [last];
      MarksAre(blank, n, front, q);
      SetAddsPosition(Marks(blank, front), last, q);
    }
  }

  // The operations whose bit is set.
  ghost function Marked(w: Words, n: nat): set<nat> {
    set i | i in Indices(n) && Fits(w, i) && Bit(w, i)
  }

  lemma MarkedIsDone(blank: Words, n: nat, path: seq<nat>)
    requires Blank(blank, n) && MarksFit(blank, path) && forall x :: 0 <= x < |path| ==> path[x] < n
    ensures Marked(Marks(blank, path), n) == Done(path)
  {
    forall i: nat | i < n ensures Fits(blank, i) && (Bit(Marks(blank, path), i) <==> i in path) {
      assert Fits(blank, i);
      MarksAre(blank, n, path, i);
    }
  }

  // A cached pair is on the current path, or known to be a dead end.
  ghost predicate OnPath<S>(blank: Words, t: Trail<S>, c: (Words, S)) {
    t.Shape() && MarksFit(blank, t.path) && exists k: nat :: k <= t.Depth() && PathPair(blank, t, k) == c
  }

  ghost function PathPair<S>(blank: Words, t: Trail<S>, k: nat): (Words, S)
    requires t.Shape() && MarksFit(blank, t.path) && k <= t.Depth()
  {
    (Marks(blank, t.path[..k]), t.states[k])
  }

  ghost predicate DeadEnd<S, I, O>(p: Problem<S, I, O>, c: (Words, S)) {
    !p.CanFinish(Marked(c.0, |p.ops|), c.1)
  }

  ghost predicate CacheOk<S, I, O>(p: Problem<S, I, O>, blank: Words, t: Trail<S>, cache: set<(Words, S)>) {
    && Blank(blank, |p.ops|)
    && forall c :: c in cache ==> OnPath(blank, t, c) || DeadEnd(p, c)
  }

  // The operations below n, none twice.
  ghost predicate NoRepeats(path: seq<nat>, n: nat) {
    Distinct(path) && forall k :: 0 <= k < |path| ==> path[k] < n
  }

  lemma TrailHasNoRepeats<S, I, O>(p: Problem<S, I, O>, t: Trail<S>)
    requires p.WellFormed() && TrailOk(p, t)
    ensures NoRepeats(t.path, |p.ops|)
  {
    forall k: nat | k < |t.path| ensures t.path[k] < |p.ops| && t.path[k] !in t.path[..k] {
      assert Linked(p, t, k);
      assert p.OperationAt(t.path[k]);
      LiveIs(p, t.DoneAt(k));
    }
    forall j, k | 0 <= j < k < |t.path| ensures t.path[j] != t.path[k] {
      assert t.path[..k][j] == t.path[j];
    }
  }

  lemma DoneSize(path: seq<nat>, n: nat, k: nat)
    requires NoRepeats(path, n) && k <= |path|
    ensures |Done(path[..k])| == k
  {
    DistinctSize(path[..k], Done(path[..k]));
  }

  lemma DoneBelow(path: seq<nat>, n: nat, k: nat)
    requires NoRepeats(path, n) && k <= |path|
    ensures Done(path[..k]) <= Indices(n)
  {
    forall i | i in Done(path[..k]) ensures i in Indices(n) {
      var j :| 0 <= j < k && path[j] == i;
    }
  }

  lemma MarkedOnPath(blank: Words, path: seq<nat>, n: nat, k: nat)
    requires Blank(blank, n) && NoRepeats(path, n) && MarksFit(blank, path) && k <= |path|
    ensures Marked(Marks(blank, path[..k]), n) == Done(path[..k])
  {
    MarkedIsDone(blank, n, path[..k]);
  }

  lemma MarkedOnNext(blank: Words, path: seq<nat>, i: nat, n: nat)
    requires Blank(blank, n) && NoRepeats(path + [i], n) && MarksFit(blank, path + [i])
    ensures Marked(Marks(blank, path + [i]), n) == Done(path) + {i}
    ensures |Marked(Marks(blank, path + [i]), n)| == |path| + 1
  {
    MarkedIsDone(blank, n, path + [i]);
    DoneOfMore(path, i, n);
  }

  lemma DoneOfMore(path: seq<nat>, i: nat, n: nat)
    requires NoRepeats(path + [i], n)
    ensures Done(path + [i]) == Done(path) + {i} && |Done(path + [i])| == |path| + 1
  {
    var more := path + [i];
    assert more[..|more|] == more;
    DoneSize(more, n, |more|);
  }

  // A cached pair with the marks of the next level is a dead end.
  lemma CachedIsDeadEnd<S, I, O>(p: Problem<S, I, O>, blank: Words, t: Trail<S>, i: nat, c: (Words, S))
    requires NoRepeats(t.path, |p.ops|) && NoRepeats(t.path + [i], |p.ops|)
    requires Blank(blank, |p.ops|) && (OnPath(blank, t, c) || DeadEnd(p, c))
    requires MarksFit(blank, t.path + [i]) && c.0 == Marks(blank, t.path + [i])
    ensures !p.CanFinish(Done(t.path) + {i}, c.1)
  {
    MarkedOnNext(blank, t.path, i, |p.ops|);
    NotOnPath(blank, t, |p.ops|, c, |t.path| + 1);
  }

  // A pair equal to a cached one can be skipped: no linearization is lost.
  lemma HitIsDeadEnd<S(!new), I(!new), O(!new)>(p: Problem<S, I, O>, done: set<nat>, s: S, c: S)
    requires EqualIsEquality(p.model) && p.model.equal(s, c) && !p.CanFinish(done, c)
    ensures !p.CanFinish(done, s)
  {
    if p.CanFinish(done, s) {
      EqualCompletes(p.model, p.ops, p.Before(), p.Rest(done), s, c);
    }
  }

  // A pair with more marks than the path is not on it.
  lemma NotOnPath<S>(blank: Words, t: Trail<S>, n: nat, c: (Words, S), size: nat)
    requires Blank(blank, n) && NoRepeats(t.path, n) && |Marked(c.0, n)| == size > |t.path|
    ensures !OnPath(blank, t, c)
  {
    if OnPath(blank, t, c) {
      var k: nat :| k <= t.Depth() && PathPair(blank, t, k) == c;
      MarkedOnPath(blank, t.path, n, k);
      DoneSize(t.path, n, k);
    }
  }

  lemma PushKeepsCache<S, I, O>(p: Problem<S, I, O>, blank: Words, t: Trail<S>, cache: set<(Words, S)>, i: nat, s: S)
    requires t.Shape() && CacheOk(p, blank, t, cache) && MarksFit(blank, t.path) && Fits(blank, i)
    ensures MarksFit(blank, t.path + [i])
    ensures CacheOk(p, blank, Pushed(t, i, s), cache + {(Marks(blank, t.path + [i]), s)})
  {
    var u, d := Pushed(t, i, s), t.Depth();
    forall c | c in cache ensures OnPath(blank, u, c) || DeadEnd(p, c) {
      if OnPath(blank, t, c) {
        var k: nat :| k <= d && PathPair(blank, t, k) == c;
        assert u.path[..k] == t.path[..k];
        assert PathPair(blank, u, k) == c;
      }
    }
    assert u.path[..d + 1] == u.path;
    assert PathPair(blank, u, d + 1) == (Marks(blank, t.path + [i]), s);
  }

  lemma SkipKeepsCache<S, I, O>(p: Problem<S, I, O>, blank: Words, t: Trail<S>, cache: set<(Words, S)>)
    requires t.Shape() && CacheOk(p, blank, t, cache)
    ensures CacheOk(p, blank, Skipped(t), cache)
  {
    forall c | c in cache ensures OnPath(blank, Skipped(t), c) || DeadEnd(p, c) {
      if OnPath(blank, t, c) {
        var k: nat :| k <= t.Depth() && PathPair(blank, t, k) == c;
        assert PathPair(blank, Skipped(t), k) == c;
      }
    }
  }

  lemma PairAfterPop<S>(blank: Words, t: Trail<S>, c: (Words, S), k: nat)
    requires t.Shape() && MarksFit(blank, t.path) && k < t.Depth() && PathPair(blank, t, k) == c
    ensures OnPath(blank, Popped(t), c)
  {
    var u := Popped(t);
    assert u.path[..k] == t.path[..k];
    assert PathPair(blank, u, k) == c;
  }

  lemma PopKeepsCache<S, I, O>(p: Problem<S, I, O>, blank: Words, t: Trail<S>, cache: set<(Words, S)>)
    requires t.Shape() && NoRepeats(t.path, |p.ops|) && t.path != [] && CacheOk(p, blank, t, cache)
    requires !p.CanFinish(Done(t.path), t.states[t.Depth()])
    ensures CacheOk(p, blank, Popped(t), cache)
  {
    var d := t.Depth();
    forall c | c in cache ensures OnPath(blank, Popped(t), c) || DeadEnd(p, c) {
      if OnPath(blank, t, c) {
        var k: nat :| k <= d && PathPair(blank, t, k) == c;
        if k == d {
          MarkedOnPath(blank, t.path, |p.ops|, d);
          assert t.path[..d] == t.path;
        } else {
          PairAfterPop(blank, t, c, k);
        }
      }
    }
  }

  // ---------------------------------------------------------------------------------------
  // Only finitely many pairs can ever be cached
  // ---------------------------------------------------------------------------------------

  // The pairs that k linearized operations can lead to.
  ghost function PairsAt<S, I, O>(p: Problem<S, I, O>, blank: Words, k: nat): set<(Words, S)> {
    if k == 0 then {(blank, p.model.init)} else PairsAfter(p, PairsAt(p, blank, k - 1))
  }

  ghost function PairsAfter<S, I, O>(p: Problem<S, I, O>, pairs: set<(Words, S)>): set<(Words, S)> {
    set c, i | c in pairs && i in Indices(|p.ops|) && Fits(c.0, i)
      :: (WithBit(c.0, i), Step(p.model, p.ops, c.1, i).1)
  }

  lemma PairIsAfter<S, I, O>(p: Problem<S, I, O>, pairs: set<(Words, S)>, c: (Words, S), i: nat)
    requires c in pairs && i < |p.ops| && Fits(c.0, i)
    ensures (WithBit(c.0, i), Step(p.model, p.ops, c.1, i).1) in PairsAfter(p, pairs)
  {
    assert i in Indices(|p.ops|);
  }

  ghost function Union<T>(sets: seq<set<T>>): set<T> {
    if sets == [] then {} else Union(sets[..|sets| - 1]) + sets[|sets| - 1]
  }

  lemma {:induction false} InUnion<T>(sets: seq<set<T>>, k: nat, x: T)
    requires k < |sets| && x in sets[k]
    ensures x in Union(sets)
  {
    if k < |sets| - 1 {
      InUnion(sets[..|sets| - 1], k, x);
    }
  }

  // Every pair the search can cache.
  ghost function AllPairs<S, I, O>(p: Problem<S, I, O>, blank: Words): set<(Words, S)> {
    Union(seq(|p.ops| + 1, (j: nat) => PairsAt(p, blank, j)))
  }

  lemma InAllPairs<S, I, O>(p: Problem<S, I, O>, blank: Words, k: nat, c: (Words, S))
    requires k <= |p.ops| && c in PairsAt(p, blank, k)
    ensures c in AllPairs(p, blank)
  {
    InUnion(seq(|p.ops| + 1, (j: nat) => PairsAt(p, blank, j)), k, c);
  }

  ghost predicate StepsOf<S, I, O>(p: Problem<S, I, O>, t: Trail<S>) {
    && t.Shape() && t.states[0] == p.model.init
    && forall k: nat :: k < |t.path| ==>
         t.path[k] < |p.ops| && Step(p.model, p.ops, t.states[k], t.path[k]).1 == t.states[k + 1]
  }

  lemma MarksOfPrefix(blank: Words, path: seq<nat>, k: nat)
    requires MarksFit(blank, path) && 0 < k <= |path|
    ensures Marks(blank, path[..k]) == WithBit(Marks(blank, path[..k - 1]), path[k - 1])
  {
    assert path[..k][..k - 1] == path[..k - 1];
  }

  lemma {:induction false} PathPairsAreThere<S, I, O>(p: Problem<S, I, O>, blank: Words, t: Trail<S>, k: nat)
    requires StepsOf(p, t) && MarksFit(blank, t.path) && k <= t.Depth()
    ensures PathPair(blank, t, k) in PairsAt(p, blank, k)
  {
    if k > 0 {
      PathPairsAreThere(p, blank, t, k - 1);
      var c, i := PathPair(blank, t, k - 1), t.path[k - 1];
      MarksOfPrefix(blank, t.path, k);
      PairIsAfter(p, PairsAt(p, blank, k - 1), c, i);
    }
  }

  lemma TrailSteps<S, I, O>(p: Problem<S, I, O>, t: Trail<S>)
    requires TrailOk(p, t)
    ensures StepsOf(p, t)
  {
    forall k: nat | k < |t.path|
      ensures t.path[k] < |p.ops| && Step(p.model, p.ops, t.states[k], t.path[k]).1 == t.states[k + 1]
    {
      assert Linked(p, t, k);
    }
  }

  lemma PathPairIsKnown<S, I, O>(p: Problem<S, I, O>, blank: Words, t: Trail<S>)
    requires StepsOf(p, t) && NoRepeats(t.path, |p.ops|) && MarksFit(blank, t.path)
    ensures (Marks(blank, t.path), t.states[t.Depth()]) in AllPairs(p, blank)
  {
    var d := t.Depth();
    DoneSize(t.path, |p.ops|, d);
    DoneBelow(t.path, |p.ops|, d);
    SubsetSize(t.DoneAt(d), Indices(|p.ops|));
    PathPairsAreThere(p, blank, t, d);
    InAllPairs(p, blank, d, PathPair(blank, t, d));
    assert t.path[..d] == t.path;
  }
}

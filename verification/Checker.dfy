/**
 The linearizability checker of src/porcupine/checker.go: a doubly linked list of calls and
 returns that is edited in place and restored, a bit set of linearized calls, a cache keyed by
 hash, and the backtracking loop over them.
 */
module Checker {
  import opened Linearizability
  import opened Bitset
  import opened Search

  datatype Value<I, O> = Nothing | Input(input: I) | Output(output: O)

  class Node<I, O> {
    const value: Value<I, O>
    const matching: Node?<I, O>
    const id: int
    var next: Node?<I, O>
    var prev: Node?<I, O>

    constructor (value: Value<I, O>, matching: Node?<I, O>, id: int)
      ensures this.value == value && this.matching == matching && this.id == id
      ensures next == null && prev == null
    {
      this.value := value;
      this.matching := matching;
      this.id := id;
      next, prev := null, null;
    }
  }

  // ---------------------------------------------------------------------------------------
  // The linked list
  // ---------------------------------------------------------------------------------------

  ghost function Without<T>(s: seq<T>, k: nat): seq<T>
    requires k < |s|
  {
    s[..k] + s[k + 1..]
  }

  ghost predicate DistinctNodes<I, O>(s: seq<Node<I, O>>) {
    forall j, k :: 0 <= j < k < |s| ==> s[j] != s[k]
  }

  // The nodes of s are linked both ways in this order.
  ghost predicate Chain<I, O>(s: seq<Node<I, O>>)
    reads s
  {
    && s != [] && DistinctNodes(s)
    && (forall k :: 0 <= k < |s| - 1 ==> s[k].next == s[k + 1])
    && (forall k :: 0 < k < |s| ==> s[k].prev == s[k - 1])
    && s[|s| - 1].next == null
  }

  ghost function NextIn<I, O>(s: seq<Node<I, O>>, k: nat): Node?<I, O> {
    if k + 1 < |s| then s[k + 1] else null
  }

  method Unlink<I, O>(x: Node<I, O>, ghost s: seq<Node<I, O>>, ghost k: nat)
    requires Chain(s) && 0 < k < |s| && s[k] == x
    modifies s
    ensures Chain(Without(s, k))
    ensures x.next == old(x.next) && x.prev == old(x.prev)
  {
    ghost var r := Without(s, k);
    assert x.prev == s[k - 1] && x.next == NextIn(s, k);
    x.prev.next := x.next;
    if x.next != null {
      x.next.prev := x.prev;
    }
    forall j | 0 <= j < |r| - 1 ensures r[j].next == r[j + 1] {
      var i := if j < k then j else j + 1;
      assert r[j] == s[i] && old(s[i].next) == s[i + 1];
    }
    forall j | 0 < j < |r| ensures r[j].prev == r[j - 1] {
      var i := if j < k then j else j + 1;
      assert r[j] == s[i] && old(s[i].prev) == s[i - 1];
    }
  }

  method Relink<I, O>(x: Node<I, O>, ghost s: seq<Node<I, O>>, ghost k: nat)
    requires 0 < k < |s| && s[k] == x && DistinctNodes(s) && Chain(Without(s, k))
    requires x.prev == s[k - 1] && x.next == NextIn(s, k)
    modifies s
    ensures Chain(s)
    ensures x.next == old(x.next) && x.prev == old(x.prev)
  {
    ghost var r := Without(s, k);
    x.prev.next := x;
    if x.next != null {
      x.next.prev := x;
    }
    forall j | 0 <= j < |s| - 1 ensures s[j].next == s[j + 1] {
      if j != k && j != k - 1 {
        var i := if j < k then j else j - 1;
        assert r[i] == s[j] && r[i + 1] == s[j + 1] && old(r[i].next) == r[i + 1];
      }
    }
    forall j | 0 < j < |s| ensures s[j].prev == s[j - 1] {
      if j != k && j != k + 1 {
        var i := if j < k then j else j - 1;
        assert r[i] == s[j] && r[i - 1] == s[j - 1] && old(r[i].prev) == r[i - 1];
      }
    }
    assert k < |s| - 1 ==> s[|s| - 1] == r[|r| - 1];
  }

  // The list after taking out positions a and b.
  ghost function Lifted<T>(s: seq<T>, a: nat, b: nat): seq<T>
    requires a < b < |s|
  {
    Without(Without(s, a), b - 1)
  }

  // What a node points at: next and previous.
  type Link<!I, !O> = (Node?<I, O>, Node?<I, O>)

  ghost function LinkOf<I, O>(x: Node<I, O>): Link<I, O>
    reads x
  {
    (x.next, x.prev)
  }

  // The removed pair still points at its neighbours of the time it was removed.
  ghost predicate Parked<I, O>(s: seq<Node<I, O>>, a: nat, b: nat, call: Link<I, O>, ret: Link<I, O>)
    requires 0 < a < b < |s|
  {
    && call == (NextIn(s, a), s[a - 1])
    && ret == (NextIn(Without(s, a), b - 1), Without(s, a)[b - 2])
  }

  lemma WithoutNodes<I, O>(s: seq<Node<I, O>>, a: nat, b: nat)
    requires DistinctNodes(s) && a < b < |s|
    ensures s[a] !in Without(s, a) && Without(s, a)[b - 1] == s[b]
    ensures forall x :: x in Without(s, a) ==> x in s
  {
  }

  method Lift<I, O>(entry: Node<I, O>, ghost s: seq<Node<I, O>>, ghost a: nat, ghost b: nat)
    requires Chain(s) && 0 < a < b < |s| && s[a] == entry && s[b] == entry.matching
    modifies s
    ensures Chain(Lifted(s, a, b)) && Parked(s, a, b, LinkOf(s[a]), LinkOf(s[b]))
  {
    ghost var r := Without(s, a);
    LinksAre(s, a);
    WithoutNodes(s, a, b);
    Unlink(entry, s, a);
    UnlinkMatch(entry, s, a, r, b - 1);
  }

  lemma LinksAre<I, O>(s: seq<Node<I, O>>, k: nat)
    requires Chain(s) && 0 < k < |s|
    ensures DistinctNodes(s) && LinkOf(s[k]) == (NextIn(s, k), s[k - 1])
  {
  }

  // Take the match out of a list that its call has left.
  method UnlinkMatch<I, O>(entry: Node<I, O>, ghost s: seq<Node<I, O>>, ghost a: nat, ghost r: seq<Node<I, O>>,
                           ghost k: nat)
    requires a < |s| && r == Without(s, a) && entry !in r
    requires Chain(r) && 0 < k < |r| && r[k] == entry.matching
    modifies s
    ensures Chain(Without(r, k)) && LinkOf(r[k]) == (NextIn(r, k), r[k - 1])
    ensures LinkOf(entry) == old(LinkOf(entry))
  {
    var m := entry.matching;
    assert m.prev == r[k - 1] && m.next == NextIn(r, k);
    Unlink(m, r, k);
  }

  // The entry and its match were the last pair taken out of s.
  ghost predicate LastLifted<I, O>(entry: Node<I, O>, s: seq<Node<I, O>>, a: nat, b: nat)
    reads s
  {
    && 0 < a < b < |s| && DistinctNodes(s) && s[a] == entry && s[b] == entry.matching
    && Chain(Lifted(s, a, b)) && Parked(s, a, b, LinkOf(s[a]), LinkOf(s[b]))
  }

  method Unlift<I, O>(entry: Node<I, O>, ghost s: seq<Node<I, O>>, ghost a: nat, ghost b: nat)
    requires LastLifted(entry, s, a, b)
    modifies s
    ensures Chain(s)
  {
    var m := entry.matching;
    ghost var r := Without(s, a);
    WithoutNodes(s, a, b);
    Relink(m, r, b - 1);
    Relink(entry, s, a);
  }

  method InsertBefore<I, O>(n: Node<I, O>, mark: Node?<I, O>, ghost s: seq<Node<I, O>>, ghost k: nat)
    returns (r: Node<I, O>)
    requires n !in s && n.next == null && n.prev == null
    requires if mark == null then s == [] && k == 0 else Chain(s) && k < |s| && s[k] == mark
    requires mark != null && k == 0 ==> mark.prev == null
    modifies n, s
    ensures r == n && Chain(s[..k] + [n] + s[k..])
    ensures k == 0 ==> n.prev == null
  {
    ghost var q := s[..k] + [n] + s[k..];
    if mark != null {
      var beforeMark := mark.prev;
      assert beforeMark == if k == 0 then null else s[k - 1];
      mark.prev := n;
      n.next := mark;
      if beforeMark != null {
        n.prev := beforeMark;
        beforeMark.next := n;
      }
      forall j | 0 <= j < |q| - 1 ensures q[j].next == q[j + 1] {
        if j < k - 1 {
          assert q[j] == s[j] && old(s[j].next) == s[j + 1];
        } else if j > k {
          assert q[j] == s[j - 1] && old(s[j - 1].next) == s[j];
        }
      }
      forall j | 0 < j < |q| ensures q[j].prev == q[j - 1] {
        if j < k {
          assert q[j] == s[j] && old(s[j].prev) == s[j - 1];
        } else if j > k + 1 {
          assert q[j] == s[j - 1] && old(s[j - 1].prev) == s[j - 2];
        }
      }
    }
    r := n;
  }

  method Length<I, O>(n: Node?<I, O>, ghost s: seq<Node<I, O>>) returns (l: nat)
    requires if n == null then s == [] else Chain(s) && s[0] == n
    ensures l == |s|
  {
    l := 0;
    var x := n;
    while x != null
      invariant l <= |s|
      invariant x == if l < |s| then s[l] else null
      decreases |s| - l
    {
      x := x.next;
      l := l + 1;
    }
  }

  // The first return of operation id at or after position x, or the end.
  function NextReturn<I, O>(h: seq<Entry<I, O>>, x: nat, id: nat): (r: nat)
    requires x <= |h|
    ensures x <= r <= |h|
    decreases |h| - x
  {
    if x == |h| || (h[x].ReturnEntry? && h[x].id == id) then x else NextReturn(h, x + 1, id)
  }

  // Node x of the list of entries i.. carries entry i + x, and a call's match is the next return
  // of its operation.
  ghost predicate NodeIs<I, O>(h: seq<Entry<I, O>>, i: nat, nodes: seq<Node<I, O>>, x: nat)
    requires x < |nodes| && i + |nodes| == |h|
  {
    var e, node := h[i + x], nodes[x];
    && node.id == e.id
    && match e
       case ReturnEntry(output, _, _) => node.value == Output(output) && node.matching == null
       case CallEntry(input, id, _) =>
         node.value == Input(input) && node.matching == NodeAt(h, i, nodes, NextReturn(h, i + x, id))
  }

  ghost function NodeAt<I, O>(h: seq<Entry<I, O>>, i: nat, nodes: seq<Node<I, O>>, q: nat): Node?<I, O>
    requires i <= q <= |h| && i + |nodes| == |h|
  {
    if q < |h| then nodes[q - i] else null
  }

  ghost predicate NodesAre<I, O>(h: seq<Entry<I, O>>, i: nat, nodes: seq<Node<I, O>>) {
    i + |nodes| == |h| && forall x: nat :: x < |nodes| ==> NodeIs(h, i, nodes, x)
  }

  lemma NodesAreAfter<I, O>(h: seq<Entry<I, O>>, i: nat, nodes: seq<Node<I, O>>, n: Node<I, O>)
    requires i < |h| && NodesAre(h, i + 1, nodes) && NodeIs(h, i, [n] + nodes, 0)
    ensures NodesAre(h, i, [n] + nodes)
  {
    forall x: nat | x < |nodes| + 1 ensures NodeIs(h, i, [n] + nodes, x) {
      if x > 0 {
        assert NodeIs(h, i + 1, nodes, x - 1);
      }
    }
  }

  // The map holds, for each operation whose return has been seen, the first of its returns.
  ghost predicate MatchesAre<I, O>(h: seq<Entry<I, O>>, i: nat, nodes: seq<Node<I, O>>, matches: map<nat, Node<I, O>>)
    requires i + |nodes| == |h|
  {
    && (forall id: nat :: id in matches <==> NextReturn(h, i, id) < |h|)
    && (forall id: nat :: id in matches ==> matches[id] == NodeAt(h, i, nodes, NextReturn(h, i, id)))
  }

  lemma MatchesAreAfter<I, O>(h: seq<Entry<I, O>>, i: nat, nodes: seq<Node<I, O>>, matches: map<nat, Node<I, O>>,
                              n: Node<I, O>)
    requires i < |h| && i + 1 + |nodes| == |h| && MatchesAre(h, i + 1, nodes, matches)
    ensures MatchesAre(h, i, [n] + nodes, if h[i].ReturnEntry? then matches[h[i].id := n] else matches)
  {
  }

  method MakeLinkedEntries<I, O>(h: seq<Entry<I, O>>) returns (root: Node?<I, O>, ghost nodes: seq<Node<I, O>>)
    ensures NodesAre(h, 0, nodes) && fresh(nodes)
    ensures if root == null then nodes == [] else Chain(nodes) && nodes[0] == root && root.prev == null
  {
    root, nodes := null, [];
    var matches: map<nat, Node<I, O>> := map[];
    var i: nat := |h|;
    while i > 0
      invariant NodesAre(h, i, nodes) && MatchesAre(h, i, nodes, matches) && fresh(nodes)
      invariant if root == null then nodes == [] else Chain(nodes) && nodes[0] == root && root.prev == null
    {
      i := i - 1;
      var elem := h[i];
      var entry: Node<I, O>;
      ghost var before := matches;
      if elem.ReturnEntry? {
        entry := new Node(Output(elem.output), null, elem.id);
        matches := matches[elem.id := entry];
      } else {
        entry := new Node(Input(elem.input), if elem.id in matches then matches[elem.id] else null, elem.id);
      }
      MatchesAreAfter(h, i, nodes, before, entry);
      assert NodeIs(h, i, [entry] + nodes, 0);
      var _ := InsertBefore(entry, root, nodes, 0);
      root := entry;
      assert nodes[..0] + [entry] + nodes[0..] == [entry] + nodes;
      NodesAreAfter(h, i, nodes, entry);
      nodes := [entry] + nodes;
    }
  }

  // ---------------------------------------------------------------------------------------
  // The list of a problem
  // ---------------------------------------------------------------------------------------

  ghost predicate Built<S, I, O>(p: Problem<S, I, O>, head: Node<I, O>, nodes: seq<Node<I, O>>) {
    NodesAre(p.entries, 0, nodes) && DistinctNodes(nodes) && head !in nodes
  }

  lemma {:induction false} ReturnIsNext<S, I, O>(p: Problem<S, I, O>, i: nat, x: nat)
    requires p.WellFormed() && i < |p.ops| && x <= p.rets[i]
    requires p.OperationAt(i)
    ensures NextReturn(p.entries, x, i) == p.rets[i]
    decreases p.rets[i] - x
  {
    assert p.EntryAt(x);
    if x < p.rets[i] {
      ReturnIsNext(p, i, x + 1);
    }
  }

  // The nodes of an operation's call and return.
  lemma OperationNodes<S, I, O>(p: Problem<S, I, O>, head: Node<I, O>, nodes: seq<Node<I, O>>, i: nat)
    requires p.WellFormed() && Built(p, head, nodes) && i < |p.ops|
    ensures p.OperationAt(i)
    ensures var call, ret := nodes[p.calls[i]], nodes[p.rets[i]];
            && call.id == i && call.value == Input(p.ops[i].input) && call.matching == ret
            && ret.value == Output(p.ops[i].output) && ret.matching == null
  {
    assert p.OperationAt(i);
    ReturnIsNext(p, i, p.calls[i]);
    assert NodeIs(p.entries, 0, nodes, p.calls[i]) && NodeIs(p.entries, 0, nodes, p.rets[i]);
  }

  // The sentinel and the nodes of the entries that are still live.
  ghost function ListAt<S, I, O>(p: Problem<S, I, O>, head: Node<I, O>, nodes: seq<Node<I, O>>, done: set<nat>)
    : (s: seq<Node<I, O>>)
    requires |nodes| == |p.entries|
    ensures |s| == |p.Live(done)| + 1 && s[0] == head
    ensures forall k :: 0 <= k < |s| ==> s[k] == head || s[k] in nodes
  {
    var live := p.Live(done);
    LiveIs(p, done);
    [head] + seq(|live|, k requires 0 <= k < |live| => nodes[live[k]])
  }

  lemma ListIsDistinct<S, I, O>(p: Problem<S, I, O>, head: Node<I, O>, nodes: seq<Node<I, O>>, done: set<nat>)
    requires Built(p, head, nodes)
    ensures DistinctNodes(ListAt(p, head, nodes, done))
  {
    LiveIs(p, done);
  }

  lemma NotInList<S, I, O>(p: Problem<S, I, O>, head: Node<I, O>, nodes: seq<Node<I, O>>, done: set<nat>, x: nat)
    requires Built(p, head, nodes) && x < |nodes| && p.entries[x].id in done
    ensures nodes[x] !in ListAt(p, head, nodes, done)
  {
    LiveIs(p, done);
  }

  // Both entries of a live operation are in the list, its call first.
  lemma PairIsLive<S, I, O>(p: Problem<S, I, O>, done: set<nat>, i: nat, a: nat) returns (b: nat)
    requires p.WellFormed() && i < |p.ops|
    requires a < |p.Live(done)| && p.Live(done)[a] == p.calls[i]
    ensures a < b < |p.Live(done)| && p.Live(done)[b] == p.rets[i]
  {
    LiveIs(p, done);
    assert p.OperationAt(i);
    assert p.rets[i] in p.Live(done);
    b :| b < |p.Live(done)| && p.Live(done)[b] == p.rets[i];
  }

  lemma WithoutIs(s: seq<nat>, k: nat)
    requires Increasing(s) && k < |s|
    ensures Increasing(Without(s, k))
    ensures forall x: nat :: x in Without(s, k) <==> x in s && x != s[k]
  {
    var r := Without(s, k);
    forall x: nat | x in s && x != s[k] ensures x in r {
      var y :| 0 <= y < |s| && s[y] == x;
      assert r[if y < k then y else y - 1] == x;
    }
  }

  lemma EntriesOfOperation<S, I, O>(p: Problem<S, I, O>, i: nat, x: nat)
    requires p.WellFormed() && i < |p.ops| && x < |p.entries|
    ensures p.entries[x].id == i <==> x == p.calls[i] || x == p.rets[i]
  {
    assert p.OperationAt(i) && p.EntryAt(x);
  }

  lemma LiftedIs(s: seq<nat>, a: nat, b: nat)
    requires Increasing(s) && a < b < |s|
    ensures Increasing(Lifted(s, a, b))
    ensures forall x: nat :: x in Lifted(s, a, b) <==> x in s && x != s[a] && x != s[b]
  {
    WithoutIs(s, a);
    WithoutIs(Without(s, a), b - 1);
  }

  lemma LiveLifted<S, I, O>(p: Problem<S, I, O>, done: set<nat>, i: nat, a: nat, b: nat)
    requires p.WellFormed() && i < |p.ops|
    requires a < b < |p.Live(done)| && p.Live(done)[a] == p.calls[i] && p.Live(done)[b] == p.rets[i]
    ensures p.Live(done + {i}) == Lifted(p.Live(done), a, b)
  {
    LiveIs(p, done);
    LiveIs(p, done + {i});
    LiftedIs(p.Live(done), a, b);
    forall x: nat ensures x in p.Live(done + {i}) <==> x in Lifted(p.Live(done), a, b) {
      if x < |p.entries| {
        EntriesOfOperation(p, i, x);
      }
    }
    IncreasingUnique(p.Live(done + {i}), Lifted(p.Live(done), a, b));
  }

  lemma ListLifted<S, I, O>(p: Problem<S, I, O>, head: Node<I, O>, nodes: seq<Node<I, O>>, done: set<nat>,
                            i: nat, a: nat, b: nat)
    requires p.WellFormed() && i < |p.ops| && |nodes| == |p.entries|
    requires a < b < |p.Live(done)| && p.Live(done)[a] == p.calls[i] && p.Live(done)[b] == p.rets[i]
    ensures ListAt(p, head, nodes, done + {i}) == Lifted(ListAt(p, head, nodes, done), a + 1, b + 1)
  {
    LiveLifted(p, done, i, a, b);
  }

  // ---------------------------------------------------------------------------------------
  // The list along the stack
  // ---------------------------------------------------------------------------------------

  ghost function Links<I, O>(nodes: seq<Node<I, O>>): (links: seq<Link<I, O>>)
    reads nodes
    ensures |links| == |nodes| && forall k :: 0 <= k < |nodes| ==> links[k] == LinkOf(nodes[k])
  {
    seq(|nodes|, k reads nodes requires 0 <= k < |nodes| => LinkOf(nodes[k]))
  }

  // The pair taken out at level k is parked between its neighbours of that level's list.
  ghost predicate ParkedAt<S, I, O>(p: Problem<S, I, O>, head: Node<I, O>, nodes: seq<Node<I, O>>,
                                    links: seq<Link<I, O>>,
                                    t: Trail<S>, ends: seq<nat>, k: nat)
    requires t.Shape() && |nodes| == |p.entries| && |links| == |nodes| && |ends| == |t.path| && k < |t.path|
  {
    var i, live := t.path[k], p.Live(t.DoneAt(k));
    && i < |p.ops| && i < |p.calls| && i < |p.rets| && p.calls[i] < |nodes| && p.rets[i] < |nodes|
    && t.at[k] < ends[k] < |live| && live[t.at[k]] == p.calls[i] && live[ends[k]] == p.rets[i]
    && Parked(ListAt(p, head, nodes, t.DoneAt(k)), t.at[k] + 1, ends[k] + 1, links[p.calls[i]], links[p.rets[i]])
  }

  ghost predicate AllParked<S, I, O>(p: Problem<S, I, O>, head: Node<I, O>, nodes: seq<Node<I, O>>,
                                     links: seq<Link<I, O>>, t: Trail<S>, ends: seq<nat>, d: nat)
  {
    && t.Shape() && |nodes| == |p.entries| && |links| == |nodes| && |ends| == |t.path| && d <= |t.path|
    && forall k: nat :: k < d ==> ParkedAt(p, head, nodes, links, t, ends, k)
  }

  // The list holds exactly the live entries in order, and every pair on the stack is parked.
  ghost predicate ListsOk<S, I, O>(p: Problem<S, I, O>, head: Node<I, O>, nodes: seq<Node<I, O>>, t: Trail<S>,
                                   ends: seq<nat>)
    reads head, nodes
  {
    && t.Shape() && Built(p, head, nodes)
    && Chain(ListAt(p, head, nodes, Done(t.path)))
    && AllParked(p, head, nodes, Links(nodes), t, ends, t.Depth())
  }

  // The links of linearized operations are as they were.
  ghost predicate LinksStay<S, I, O>(p: Problem<S, I, O>, done: set<nat>, was: seq<Link<I, O>>, now: seq<Link<I, O>>) {
    && |was| == |p.entries| && |now| == |p.entries|
    && forall x: nat :: x < |p.entries| && p.entries[x].id in done ==> now[x] == was[x]
  }

  lemma StayParked<S, I, O>(p: Problem<S, I, O>, head: Node<I, O>, nodes: seq<Node<I, O>>, was: seq<Link<I, O>>,
                            now: seq<Link<I, O>>, t: Trail<S>, ends: seq<nat>, d: nat)
    requires p.WellFormed() && AllParked(p, head, nodes, was, t, ends, d) && LinksStay(p, Done(t.path[..d]), was, now)
    ensures AllParked(p, head, nodes, now, t, ends, d)
  {
    forall k: nat | k < d ensures ParkedAt(p, head, nodes, now, t, ends, k) {
      assert ParkedAt(p, head, nodes, was, t, ends, k);
      var i := t.path[k];
      assert i == t.path[..d][k];
      assert p.OperationAt(i);
    }
  }

  lemma ParkedAlike<S, I, O>(p: Problem<S, I, O>, head: Node<I, O>, nodes: seq<Node<I, O>>, links: seq<Link<I, O>>,
                             t: Trail<S>, ends: seq<nat>, u: Trail<S>, ends': seq<nat>, d: nat)
    requires AllParked(p, head, nodes, links, t, ends, d) && u.Shape() && |ends'| == |u.path| && d <= |u.path|
    requires u.path[..d] == t.path[..d] && ends'[..d] == ends[..d] && forall k :: 0 <= k < d ==> u.at[k] == t.at[k]
    ensures AllParked(p, head, nodes, links, u, ends', d)
  {
    forall k: nat | k < d ensures ParkedAt(p, head, nodes, links, u, ends', k) {
      assert ParkedAt(p, head, nodes, links, t, ends, k);
      assert u.path[k] == u.path[..d][k] && t.path[k] == t.path[..d][k];
      assert ends'[k] == ends'[..d][k] && ends[k] == ends[..d][k];
      assert u.path[..k] == u.path[..d][..k] && t.path[..k] == t.path[..d][..k];
    }
  }

  // Lift a pair out of the list of `done`: the links of `done` stay.
  method LiftAt<S, I, O>(ghost p: Problem<S, I, O>, ghost head: Node<I, O>, ghost nodes: seq<Node<I, O>>,
                         ghost done: set<nat>, entry: Node<I, O>, ghost a: nat, ghost b: nat)
    requires Built(p, head, nodes) && Chain(ListAt(p, head, nodes, done)) && 0 < a < b < |ListAt(p, head, nodes, done)|
    requires ListAt(p, head, nodes, done)[a] == entry && ListAt(p, head, nodes, done)[b] == entry.matching
    modifies head, nodes
    ensures Chain(Lifted(ListAt(p, head, nodes, done), a, b)) && LinksStay(p, done, old(Links(nodes)), Links(nodes))
    ensures Parked(ListAt(p, head, nodes, done), a, b, LinkOf(entry), LinkOf(ListAt(p, head, nodes, done)[b]))
  {
    Lift(entry, ListAt(p, head, nodes, done), a, b);
    forall x: nat | x < |p.entries| && p.entries[x].id in done ensures Links(nodes)[x] == old(Links(nodes)[x]) {
      NotInList(p, head, nodes, done, x);
    }
  }

  // Put the last pair taken out back into the list of `done`.
  method UnliftAt<S, I, O>(ghost p: Problem<S, I, O>, ghost head: Node<I, O>, ghost nodes: seq<Node<I, O>>,
                           ghost done: set<nat>, entry: Node<I, O>, ghost a: nat, ghost b: nat)
    requires Built(p, head, nodes) && LastLifted(entry, ListAt(p, head, nodes, done), a, b)
    modifies head, nodes
    ensures Chain(ListAt(p, head, nodes, done)) && LinksStay(p, done, old(Links(nodes)), Links(nodes))
  {
    Unlift(entry, ListAt(p, head, nodes, done), a, b);
    forall x: nat | x < |p.entries| && p.entries[x].id in done ensures Links(nodes)[x] == old(Links(nodes)[x]) {
      NotInList(p, head, nodes, done, x);
    }
  }

  lemma PlacesInList<S, I, O>(p: Problem<S, I, O>, head: Node<I, O>, nodes: seq<Node<I, O>>, done: set<nat>, i: nat,
                              a: nat, b: nat)
    requires p.WellFormed() && Built(p, head, nodes) && i < |p.ops|
    requires a < b < |p.Live(done)| && p.Live(done)[a] == p.calls[i] && p.Live(done)[b] == p.rets[i]
    ensures p.calls[i] < |nodes| && p.rets[i] < |nodes| && nodes[p.calls[i]].matching == nodes[p.rets[i]]
    ensures ListAt(p, head, nodes, done)[a + 1] == nodes[p.calls[i]]
    ensures ListAt(p, head, nodes, done)[b + 1] == nodes[p.rets[i]]
    ensures DistinctNodes(ListAt(p, head, nodes, done))
  {
    OperationNodes(p, head, nodes, i);
    ListIsDistinct(p, head, nodes, done);
  }

  method LiftOperation<S, I, O>(ghost p: Problem<S, I, O>, ghost head: Node<I, O>, ghost nodes: seq<Node<I, O>>,
                                ghost t: Trail<S>, ghost ends: seq<nat>, entry: Node<I, O>, ghost i: nat, ghost s: S)
    returns (ghost b: nat)
    requires p.WellFormed() && ListsOk(p, head, nodes, t, ends)
    requires i < |p.ops| && LooksAt(p, t, p.calls[i]) && entry == nodes[p.calls[i]]
    modifies head, nodes
    ensures ListsOk(p, head, nodes, Pushed(t, i, s), ends + [b])
  {
    ghost var a, was := t.at[t.Depth()], Links(nodes);
    b := PairIsLive(p, Done(t.path), i, a);
    PlacesInList(p, head, nodes, Done(t.path), i, a, b);
    LiftAt(p, head, nodes, Done(t.path), entry, a + 1, b + 1);
    PushedLists(p, head, nodes, was, Links(nodes), t, ends, i, b, s);
  }

  lemma PushedLists<S, I, O>(p: Problem<S, I, O>, head: Node<I, O>, nodes: seq<Node<I, O>>, was: seq<Link<I, O>>,
                             links: seq<Link<I, O>>, t: Trail<S>, ends: seq<nat>, i: nat, b: nat, s: S)
    requires p.WellFormed() && LinksStay(p, Done(t.path), was, links) && i < |p.ops| && LooksAt(p, t, p.calls[i])
    requires t.at[t.Depth()] < b < |p.Live(Done(t.path))| && p.Live(Done(t.path))[b] == p.rets[i]
    requires AllParked(p, head, nodes, was, t, ends, t.Depth()) && p.calls[i] < |nodes| && p.rets[i] < |nodes|
    requires Parked(ListAt(p, head, nodes, Done(t.path)), t.at[t.Depth()] + 1, b + 1, links[p.calls[i]],
                    links[p.rets[i]])
    ensures AllParked(p, head, nodes, links, Pushed(t, i, s), ends + [b], t.Depth() + 1)
    ensures ListAt(p, head, nodes, Done(Pushed(t, i, s).path))
            == Lifted(ListAt(p, head, nodes, Done(t.path)), t.at[t.Depth()] + 1, b + 1)
  {
    var u, d, more := Pushed(t, i, s), t.Depth(), ends + [b];
    ListLifted(p, head, nodes, Done(t.path), i, t.at[d], b);
    assert Done(u.path) == Done(t.path) + {i};
    assert t.path[..d] == t.path;
    assert u.path[..d] == t.path;
    StayParked(p, head, nodes, was, links, t, ends, d);
    ParkedAlike(p, head, nodes, links, t, ends, u, more, d);
    assert ParkedAt(p, head, nodes, links, u, more, d);
  }

  lemma ListBeforeTop<S, I, O>(p: Problem<S, I, O>, head: Node<I, O>, nodes: seq<Node<I, O>>, links: seq<Link<I, O>>,
                               t: Trail<S>, ends: seq<nat>, d: nat)
    requires p.WellFormed() && AllParked(p, head, nodes, links, t, ends, d + 1) && d + 1 == |t.path|
    ensures ParkedAt(p, head, nodes, links, t, ends, d)
    ensures ListAt(p, head, nodes, Done(t.path))
            == Lifted(ListAt(p, head, nodes, t.DoneAt(d)), t.at[d] + 1, ends[d] + 1)
  {
    assert ParkedAt(p, head, nodes, links, t, ends, d);
    var i, done := t.path[d], t.DoneAt(d);
    ListLifted(p, head, nodes, done, i, t.at[d], ends[d]);
    assert t.path == t.path[..d] + [i];
    assert Done(t.path) == done + {i};
  }

  lemma TopIsLastLifted<S, I, O>(p: Problem<S, I, O>, head: Node<I, O>, nodes: seq<Node<I, O>>, t: Trail<S>,
                                 ends: seq<nat>, d: nat)
    requires p.WellFormed() && ListsOk(p, head, nodes, t, ends) && d + 1 == |t.path|
    ensures ParkedAt(p, head, nodes, Links(nodes), t, ends, d)
    ensures LastLifted(nodes[p.calls[t.path[d]]], ListAt(p, head, nodes, t.DoneAt(d)), t.at[d] + 1, ends[d] + 1)
  {
    ListBeforeTop(p, head, nodes, Links(nodes), t, ends, d);
    PlacesInList(p, head, nodes, t.DoneAt(d), t.path[d], t.at[d], ends[d]);
  }

  method UnliftOperation<S, I, O>(ghost p: Problem<S, I, O>, ghost head: Node<I, O>, ghost nodes: seq<Node<I, O>>,
                                  ghost t: Trail<S>, ghost ends: seq<nat>, entry: Node<I, O>)
    requires p.WellFormed() && ListsOk(p, head, nodes, t, ends) && t.path != []
    requires IsTop(p, nodes, t, entry)
    modifies head, nodes
    ensures ListsOk(p, head, nodes, Popped(t), ends[..t.Depth() - 1])
  {
    UnliftTop(p, head, nodes, t, ends, entry, t.Depth() - 1);
  }

  method UnliftTop<S, I, O>(ghost p: Problem<S, I, O>, ghost head: Node<I, O>, ghost nodes: seq<Node<I, O>>,
                            ghost t: Trail<S>, ghost ends: seq<nat>, entry: Node<I, O>, ghost d: nat)
    requires p.WellFormed() && ListsOk(p, head, nodes, t, ends) && d + 1 == t.Depth() && IsTop(p, nodes, t, entry)
    modifies head, nodes
    ensures ListsOk(p, head, nodes, Popped(t), ends[..d])
  {
    EntryIsLastLifted(p, head, nodes, t, ends, entry, d);
    ListsAreParked(p, head, nodes, t, ends);
    UnliftParked(p, head, nodes, t, ends, entry, d);
  }

  // The same, knowing of the lists before only what is needed.
  method UnliftParked<S, I, O>(ghost p: Problem<S, I, O>, ghost head: Node<I, O>, ghost nodes: seq<Node<I, O>>,
                               ghost t: Trail<S>, ghost ends: seq<nat>, entry: Node<I, O>, ghost d: nat)
    requires p.WellFormed() && t.Shape() && Built(p, head, nodes) && d + 1 == t.Depth() && d < |ends|
    requires AllParked(p, head, nodes, Links(nodes), t, ends, t.Depth())
    requires LastLifted(entry, ListAt(p, head, nodes, t.DoneAt(d)), t.at[d] + 1, ends[d] + 1)
    modifies head, nodes
    ensures ListsOk(p, head, nodes, Popped(t), ends[..d])
  {
    ghost var was := Links(nodes);
    UnliftAt(p, head, nodes, t.DoneAt(d), entry, t.at[d] + 1, ends[d] + 1);
    ListsAfterPop(p, head, nodes, was, t, ends, d);
  }

  lemma EntryIsLastLifted<S, I, O>(p: Problem<S, I, O>, head: Node<I, O>, nodes: seq<Node<I, O>>, t: Trail<S>,
                                   ends: seq<nat>, entry: Node<I, O>, d: nat)
    requires p.WellFormed() && ListsOk(p, head, nodes, t, ends) && d + 1 == t.Depth() && IsTop(p, nodes, t, entry)
    ensures d < |t.at| && d < |ends|
    ensures LastLifted(entry, ListAt(p, head, nodes, t.DoneAt(d)), t.at[d] + 1, ends[d] + 1)
  {
    TopIsLastLifted(p, head, nodes, t, ends, d);
    assert entry == nodes[p.calls[t.path[d]]];
  }

  lemma ListsAreParked<S, I, O>(p: Problem<S, I, O>, head: Node<I, O>, nodes: seq<Node<I, O>>, t: Trail<S>,
                                ends: seq<nat>)
    requires ListsOk(p, head, nodes, t, ends)
    ensures t.Shape() && Built(p, head, nodes) && AllParked(p, head, nodes, Links(nodes), t, ends, t.Depth())
  {
  }

  lemma ListsAfterPop<S, I, O>(p: Problem<S, I, O>, head: Node<I, O>, nodes: seq<Node<I, O>>, was: seq<Link<I, O>>,
                               t: Trail<S>, ends: seq<nat>, d: nat)
    requires p.WellFormed() && d + 1 == t.Depth() && t.Shape() && Built(p, head, nodes)
    requires Chain(ListAt(p, head, nodes, t.DoneAt(d))) && LinksStay(p, t.DoneAt(d), was, Links(nodes))
    requires AllParked(p, head, nodes, was, t, ends, t.Depth())
    ensures ListsOk(p, head, nodes, Popped(t), ends[..d])
  {
    PoppedLists(p, head, nodes, was, Links(nodes), t, ends, d);
    PartsAreListsOk(p, head, nodes, Popped(t), ends[..d]);
  }

  lemma PartsAreListsOk<S, I, O>(p: Problem<S, I, O>, head: Node<I, O>, nodes: seq<Node<I, O>>, t: Trail<S>,
                                 ends: seq<nat>)
    requires Built(p, head, nodes) && Chain(ListAt(p, head, nodes, Done(t.path)))
    requires AllParked(p, head, nodes, Links(nodes), t, ends, t.Depth())
    ensures ListsOk(p, head, nodes, t, ends)
  {
  }

  // The call on top of the stack.
  ghost predicate IsTop<S, I, O>(p: Problem<S, I, O>, nodes: seq<Node<I, O>>, t: Trail<S>, entry: Node<I, O>)
    requires t.path != []
  {
    var i := t.path[|t.path| - 1];
    i < |p.calls| && p.calls[i] < |nodes| && entry == nodes[p.calls[i]]
  }

  lemma PoppedLists<S, I, O>(p: Problem<S, I, O>, head: Node<I, O>, nodes: seq<Node<I, O>>, was: seq<Link<I, O>>,
                             now: seq<Link<I, O>>, t: Trail<S>, ends: seq<nat>, d: nat)
    requires p.WellFormed() && d + 1 == t.Depth() && LinksStay(p, t.DoneAt(d), was, now)
    requires AllParked(p, head, nodes, was, t, ends, t.Depth())
    ensures AllParked(p, head, nodes, now, Popped(t), ends[..d], d)
  {
    StayParked(p, head, nodes, was, now, t, ends, d);
    ParkedAlike(p, head, nodes, now, t, ends, Popped(t), ends[..d], d);
  }

  // ---------------------------------------------------------------------------------------
  // The cache
  // ---------------------------------------------------------------------------------------

  // The bit set stored is a clone that nothing changes later, so its words are stored.
  datatype CacheEntry<!S> = CacheEntry(linearized: Words, state: S)

  type Cache<!S> = map<Word, seq<CacheEntry<S>>>

  function Bucket<S>(cache: Cache<S>, hash: Word): seq<CacheEntry<S>> {
    if hash in cache then cache[hash] else []
  }

  // The cache holds exactly these pairs, each under the hash of its words.
  ghost predicate CacheHolds<S>(cache: Cache<S>, pairs: set<(Words, S)>) {
    && (forall c :: c in pairs ==> CacheEntry(c.0, c.1) in Bucket(cache, HashOf(c.0)))
    && (forall hash: Word, e :: e in Bucket(cache, hash) ==> (e.linearized, e.state) in pairs)
  }

  ghost predicate Hits<S, I, O>(m: Model<S, I, O>, pairs: set<(Words, S)>, w: Words, s: S) {
    exists c :: c in pairs && c.0 == w && m.equal(s, c.1)
  }

  predicate Matches<S, I, O>(m: Model<S, I, O>, e: CacheEntry<S>, w: Words, s: S) {
    w == e.linearized && m.equal(s, e.state)
  }

  ghost predicate AnyMatches<S, I, O>(m: Model<S, I, O>, bucket: seq<CacheEntry<S>>, w: Words, s: S) {
    exists j :: 0 <= j < |bucket| && Matches(m, bucket[j], w, s)
  }

  // Looking only under the hash misses nothing.
  lemma BucketDecides<S, I, O>(m: Model<S, I, O>, cache: Cache<S>, pairs: set<(Words, S)>, w: Words, s: S)
    requires CacheHolds(cache, pairs)
    ensures Hits(m, pairs, w, s) <==> AnyMatches(m, Bucket(cache, HashOf(w)), w, s)
  {
    var bucket := Bucket(cache, HashOf(w));
    if Hits(m, pairs, w, s) {
      var c :| c in pairs && c.0 == w && m.equal(s, c.1);
      assert CacheEntry(c.0, c.1) in bucket;
      var j :| 0 <= j < |bucket| && bucket[j] == CacheEntry(c.0, c.1);
      assert Matches(m, bucket[j], w, s);
    }
    if AnyMatches(m, bucket, w, s) {
      var j :| 0 <= j < |bucket| && Matches(m, bucket[j], w, s);
      assert bucket[j] in bucket;
      assert (bucket[j].linearized, bucket[j].state) in pairs;
    }
  }

  method CacheContains<S, I, O>(m: Model<S, I, O>, cache: Cache<S>, linearized: array<Word>, state: S,
                                ghost pairs: set<(Words, S)>)
    returns (found: bool)
    requires CacheHolds(cache, pairs)
    ensures found <==> Hits(m, pairs, linearized[..], state)
  {
    var hash := Hash(linearized);
    var bucket := Bucket(cache, hash);
    BucketDecides(m, cache, pairs, linearized[..], state);
    for i := 0 to |bucket|
      invariant forall j :: 0 <= j < i ==> !Matches(m, bucket[j], linearized[..], state)
    {
      var same := Equals(linearized, bucket[i].linearized);
      if same && m.equal(state, bucket[i].state) {
        assert Matches(m, bucket[i], linearized[..], state);
        return true;
      }
    }
    return false;
  }

  method AddToCache<S>(cache: Cache<S>, linearized: array<Word>, state: S, ghost pairs: set<(Words, S)>)
    returns (r: Cache<S>)
    requires CacheHolds(cache, pairs)
    ensures CacheHolds(r, pairs + {(linearized[..], state)})
  {
    var hash := Hash(linearized);
    r := cache[hash := Bucket(cache, hash) + [CacheEntry(linearized[..], state)]];
    forall c | c in pairs + {(linearized[..], state)} ensures CacheEntry(c.0, c.1) in Bucket(r, HashOf(c.0)) {
      if c in pairs {
        assert CacheEntry(c.0, c.1) in Bucket(cache, HashOf(c.0));
      }
    }
    forall h: Word, e | e in Bucket(r, h) ensures (e.linearized, e.state) in pairs + {(linearized[..], state)} {
      assert e in Bucket(cache, h) || e == CacheEntry(linearized[..], state);
    }
  }

  // ---------------------------------------------------------------------------------------
  // The search
  // ---------------------------------------------------------------------------------------

  datatype CallsEntry<I, O, !S> = CallsEntry(entry: Node<I, O>, state: S)

  // The stack of calls is the trail without its current level.
  ghost predicate CallsAre<S, I, O>(p: Problem<S, I, O>, nodes: seq<Node<I, O>>, t: Trail<S>,
                                    calls: seq<CallsEntry<I, O, S>>)
  {
    && t.Shape() && |calls| == |t.path|
    && forall k: nat :: k < |t.path| ==> CallIs(p, nodes, t, calls[k], k)
  }

  ghost predicate CallIs<S, I, O>(p: Problem<S, I, O>, nodes: seq<Node<I, O>>, t: Trail<S>, c: CallsEntry<I, O, S>,
                                  k: nat)
    requires t.Shape() && k < |t.path|
  {
    && t.path[k] < |p.calls| && p.calls[t.path[k]] < |nodes|
    && c.entry == nodes[p.calls[t.path[k]]] && c.state == t.states[k]
  }

  // The scan has a live entry to look at, unless none is left.
  ghost predicate EntryIs<S, I, O>(p: Problem<S, I, O>, nodes: seq<Node<I, O>>, t: Trail<S>, entry: Node?<I, O>)
  {
    t.Shape() && |nodes| == |p.entries| &&
    (p.Live(Done(t.path)) == [] || Looking(p, nodes, t, entry))
  }

  ghost predicate Looking<S, I, O>(p: Problem<S, I, O>, nodes: seq<Node<I, O>>, t: Trail<S>, entry: Node?<I, O>)
    requires t.Shape() && |nodes| == |p.entries|
  {
    exists x: nat :: LooksAt(p, t, x) && entry == nodes[x]
  }

  ghost predicate MarksAreSet<S, I, O>(p: Problem<S, I, O>, blank: Words, t: Trail<S>, w: Words) {
    Blank(blank, |p.ops|) && MarksFit(blank, t.path) && w == Marks(blank, t.path)
  }
}

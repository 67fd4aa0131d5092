/**
 checkSingle (src/porcupine/checker.go): the local variables of its loop as an object, one
 method for each branch of the loop body, and the loop itself.
 */
module CheckSingle {
  import opened Linearizability
  import opened Bitset
  import opened Search
  import opened Checker

  // What the stack, the state and the cached pairs mean.
  ghost predicate SearchOk<S, I, O>(p: Problem<S, I, O>, blank: Words, nodes: seq<Node<I, O>>, t: Trail<S>,
                                    pairs: set<(Words, S)>, calls: seq<CallsEntry<I, O, S>>, state: S)
  {
    && TrailOk(p, t) && state == t.states[t.Depth()]
    && CacheOk(p, blank, t, pairs) && pairs <= AllPairs(p, blank)
    && CallsAre(p, nodes, t, calls)
  }

  lemma HeadNext<S, I, O>(p: Problem<S, I, O>, head: Node<I, O>, nodes: seq<Node<I, O>>, done: set<nat>)
    requires Built(p, head, nodes) && Chain(ListAt(p, head, nodes, done))
    ensures head.next == null <==> p.Live(done) == []
    ensures p.Live(done) != [] ==> p.Live(done)[0] < |nodes| && head.next == nodes[p.Live(done)[0]]
  {
    LiveIs(p, done);
    var list := ListAt(p, head, nodes, done);
    if p.Live(done) == [] {
      assert list[|list| - 1] == head;
    } else {
      assert list[0].next == list[0 + 1] && list[1] == nodes[p.Live(done)[0]];
    }
  }

  lemma NodeNext<S, I, O>(p: Problem<S, I, O>, head: Node<I, O>, nodes: seq<Node<I, O>>, done: set<nat>, k: nat)
    requires Built(p, head, nodes) && Chain(ListAt(p, head, nodes, done)) && k + 1 < |p.Live(done)|
    ensures p.Live(done)[k] < |nodes| && p.Live(done)[k + 1] < |nodes|
    ensures nodes[p.Live(done)[k]].next == nodes[p.Live(done)[k + 1]]
  {
    LiveIs(p, done);
    var list := ListAt(p, head, nodes, done);
    assert list[k + 1] == nodes[p.Live(done)[k]] && list[k + 2] == nodes[p.Live(done)[k + 1]];
    assert list[k + 1].next == list[k + 1 + 1];
  }

  // The entry looked at is a call with a match, or a return without one.
  lemma EntryKind<S, I, O>(p: Problem<S, I, O>, head: Node<I, O>, nodes: seq<Node<I, O>>, x: nat)
    requires p.WellFormed() && Built(p, head, nodes) && x < |p.entries|
    ensures p.EntryAt(x)
    ensures nodes[x].id == p.entries[x].id
    ensures nodes[x].matching != null <==> p.entries[x].CallEntry?
    ensures p.entries[x].CallEntry? ==> x == p.calls[p.entries[x].id]
  {
    assert p.EntryAt(x);
    var i := p.entries[x].id;
    OperationNodes(p, head, nodes, i);
    assert NodeIs(p.entries, 0, nodes, x);
  }

  lemma LooksAtNext<S, I, O>(p: Problem<S, I, O>, head: Node<I, O>, nodes: seq<Node<I, O>>, t: Trail<S>, i: nat)
    requires p.WellFormed() && Built(p, head, nodes) && t.Shape() && i < |p.ops| && LooksAt(p, t, p.calls[i])
    requires Chain(ListAt(p, head, nodes, Done(t.path)))
    ensures p.calls[i] < |nodes|
    ensures EntryIs(p, nodes, Skipped(t), nodes[p.calls[i]].next)
    ensures t.at[t.Depth()] + 1 < |p.Live(Done(t.path))|
  {
    var a := t.at[t.Depth()];
    var b := PairIsLive(p, Done(t.path), i, a);
    NodeNext(p, head, nodes, Done(t.path), a);
    LiveIs(p, Done(t.path));
    assert LooksAt(p, Skipped(t), p.Live(Done(t.path))[a + 1]);
  }

  lemma LooksAtFirst<S, I, O>(p: Problem<S, I, O>, head: Node<I, O>, nodes: seq<Node<I, O>>, t: Trail<S>)
    requires Built(p, head, nodes) && t.Shape() && t.at[t.Depth()] == 0
    requires Chain(ListAt(p, head, nodes, Done(t.path)))
    ensures EntryIs(p, nodes, t, head.next)
  {
    HeadNext(p, head, nodes, Done(t.path));
    LiveIs(p, Done(t.path));
    if p.Live(Done(t.path)) != [] {
      assert LooksAt(p, t, p.Live(Done(t.path))[0]);
    }
  }

  lemma SkipCalls<S, I, O>(p: Problem<S, I, O>, nodes: seq<Node<I, O>>, t: Trail<S>, calls: seq<CallsEntry<I, O, S>>)
    requires CallsAre(p, nodes, t, calls)
    ensures CallsAre(p, nodes, Skipped(t), calls)
  {
    forall k: nat | k < |t.path| ensures CallIs(p, nodes, Skipped(t), calls[k], k) {
      assert CallIs(p, nodes, t, calls[k], k);
    }
  }

  lemma PushCalls<S, I, O>(p: Problem<S, I, O>, nodes: seq<Node<I, O>>, t: Trail<S>, calls: seq<CallsEntry<I, O, S>>,
                           i: nat, s: S)
    requires CallsAre(p, nodes, t, calls) && i < |p.calls| && p.calls[i] < |nodes|
    ensures CallsAre(p, nodes, Pushed(t, i, s), calls + [CallsEntry(nodes[p.calls[i]], t.states[t.Depth()])])
  {
    var more := calls + [CallsEntry(nodes[p.calls[i]], t.states[t.Depth()])];
    forall k: nat | k <= |t.path| ensures CallIs(p, nodes, Pushed(t, i, s), more[k], k) {
      if k < |t.path| {
        assert CallIs(p, nodes, t, calls[k], k);
      }
    }
  }

  lemma PopCalls<S, I, O>(p: Problem<S, I, O>, nodes: seq<Node<I, O>>, t: Trail<S>, calls: seq<CallsEntry<I, O, S>>)
    requires CallsAre(p, nodes, t, calls) && t.path != []
    ensures CallsAre(p, nodes, Popped(t), calls[..|calls| - 1])
  {
    forall k: nat | k < |t.path| - 1 ensures CallIs(p, nodes, Popped(t), calls[k], k) {
      assert CallIs(p, nodes, t, calls[k], k);
    }
  }

  lemma NewPairIsMissing<S, I, O>(m: Model<S, I, O>, pairs: set<(Words, S)>, all: set<(Words, S)>, w: Words, s: S)
    requires m.equal(s, s) && !Hits(m, pairs, w, s) && (w, s) in all
    ensures all - (pairs + {(w, s)}) < all - pairs
  {
    assert (w, s).0 == w && m.equal(s, (w, s).1);
    assert (w, s) !in pairs;
    assert (w, s) in all - pairs;
  }

  lemma {:induction false} AllAreLive<S, I, O>(p: Problem<S, I, O>, n: nat)
    requires n <= |p.entries|
    ensures |p.LiveBelow({}, n)| == n
    ensures forall k :: 0 <= k < n ==> p.LiveBelow({}, n)[k] == k
  {
    if n > 0 {
      AllAreLive(p, n - 1);
    }
  }

  lemma StartList<S, I, O>(p: Problem<S, I, O>, head: Node<I, O>, nodes: seq<Node<I, O>>)
    requires NodesAre(p.entries, 0, nodes)
    ensures ListAt(p, head, nodes, {}) == [head] + nodes
  {
    AllAreLive(p, |p.entries|);
  }

  lemma StartListsOk<S, I, O>(p: Problem<S, I, O>, head: Node<I, O>, nodes: seq<Node<I, O>>)
    requires NodesAre(p.entries, 0, nodes) && Chain([head] + nodes)
    ensures ListsOk(p, head, nodes, Trail([], [p.model.init], [0]), [])
  {
    StartList(p, head, nodes);
    HeadIsApart(head, nodes);
    assert Done([]) == {};
  }

  lemma HeadIsApart<I, O>(head: Node<I, O>, nodes: seq<Node<I, O>>)
    requires DistinctNodes([head] + nodes)
    ensures DistinctNodes(nodes) && head !in nodes
  {
    var all := [head] + nodes;
    forall j, k | 0 <= j < k < |nodes| ensures nodes[j] != nodes[k] {
      assert all[j + 1] == nodes[j] && all[k + 1] == nodes[k];
    }
    forall k | 0 <= k < |nodes| ensures nodes[k] != head {
      assert all[0] == head && all[k + 1] == nodes[k];
    }
  }

  lemma StartEntry<S, I, O>(p: Problem<S, I, O>, nodes: seq<Node<I, O>>, entry: Node?<I, O>)
    requires NodesAre(p.entries, 0, nodes)
    requires entry == if nodes == [] then null else nodes[0]
    ensures EntryIs(p, nodes, Trail([], [p.model.init], [0]), entry)
  {
    AllAreLive(p, |p.entries|);
    assert Done([]) == {};
    if nodes != [] {
      assert LooksAt(p, Trail([], [p.model.init], [0]), 0);
    }
  }

  lemma StartSearchOk<S, I, O>(p: Problem<S, I, O>, nodes: seq<Node<I, O>>, blank: Words)
    requires Blank(blank, |p.ops|)
    ensures SearchOk(p, blank, nodes, Trail([], [p.model.init], [0]), {}, [], p.model.init)
    ensures MarksAreSet(p, blank, Trail([], [p.model.init], [0]), blank)
  {
    StartIsOk(p);
  }

  lemma SkipSearchOk<S, I, O>(p: Problem<S, I, O>, blank: Words, nodes: seq<Node<I, O>>, t: Trail<S>,
                              pairs: set<(Words, S)>, calls: seq<CallsEntry<I, O, S>>, state: S, i: nat)
    requires p.WellFormed() && SearchOk(p, blank, nodes, t, pairs, calls, state)
    requires i < |p.ops| && LooksAt(p, t, p.calls[i]) && p.Failed(Done(t.path), state, i)
    ensures SearchOk(p, blank, nodes, Skipped(t), pairs, calls, state)
  {
    SkipKeeps(p, t, i);
    SkipKeepsCache(p, blank, t, pairs);
    SkipCalls(p, nodes, t, calls);
  }

  lemma PushSearchOk<S, I, O>(p: Problem<S, I, O>, blank: Words, nodes: seq<Node<I, O>>, t: Trail<S>,
                              pairs: set<(Words, S)>, calls: seq<CallsEntry<I, O, S>>, state: S, i: nat, s: S)
    requires p.WellFormed() && SearchOk(p, blank, nodes, t, pairs, calls, state) && MarksFit(blank, t.path)
    requires i < |p.ops| && LooksAt(p, t, p.calls[i]) && Step(p.model, p.ops, state, i) == (true, s)
    requires p.calls[i] < |nodes|
    ensures MarksFit(blank, t.path + [i]) && Fits(blank, i)
    ensures Marks(blank, t.path + [i]) == WithBit(Marks(blank, t.path), i)
    ensures SearchOk(p, blank, nodes, Pushed(t, i, s), pairs + {(Marks(blank, t.path + [i]), s)},
                     calls + [CallsEntry(nodes[p.calls[i]], state)], s)
    ensures (Marks(blank, t.path + [i]), s) in AllPairs(p, blank)
  {
    PushKeeps(p, t, i, s);
    assert Fits(blank, i);
    PushKeepsCache(p, blank, t, pairs, i, s);
    PushCalls(p, nodes, t, calls, i, s);
    MarksOfPush(blank, t.path, i);
    TrailSteps(p, Pushed(t, i, s));
    TrailHasNoRepeats(p, Pushed(t, i, s));
    PathPairIsKnown(p, blank, Pushed(t, i, s));
  }

  lemma PopSearchOk<S, I, O>(p: Problem<S, I, O>, blank: Words, nodes: seq<Node<I, O>>, t: Trail<S>,
                             pairs: set<(Words, S)>, calls: seq<CallsEntry<I, O, S>>, state: S, x: nat)
    requires p.WellFormed() && SearchOk(p, blank, nodes, t, pairs, calls, state) && t.path != []
    requires LooksAt(p, t, x) && p.entries[x].ReturnEntry?
    ensures SearchOk(p, blank, nodes, Popped(t), pairs, calls[..|calls| - 1], t.states[t.Depth() - 1])
  {
    PopKeeps(p, t, x);
    TrailHasNoRepeats(p, t);
    PopKeepsCache(p, blank, t, pairs);
    PopCalls(p, nodes, t, calls);
  }

  lemma MarksOfPush(blank: Words, path: seq<nat>, i: nat)
    requires MarksFit(blank, path) && Fits(blank, i)
    ensures MarksFit(blank, path + [i]) && Marks(blank, path + [i]) == WithBit(Marks(blank, path), i)
  {
    assert (path + [i])[..|path|] == path;
  }

  // Mark the call as linearized, lift it, and go back to the first entry left.
  method TakeOut<S, I, O>(ghost p: Problem<S, I, O>, ghost blank: Words, head: Node<I, O>, ghost nodes: seq<Node<I, O>>,
                          ghost t: Trail<S>, ghost ends: seq<nat>, linearized: array<Word>, entry: Node<I, O>,
                          ghost i: nat, ghost s: S)
    returns (first: Node?<I, O>, ghost b: nat)
    requires p.WellFormed() && ListsOk(p, head, nodes, t, ends) && MarksAreSet(p, blank, t, linearized[..])
    requires i < |p.ops| && LooksAt(p, t, p.calls[i]) && entry == nodes[p.calls[i]]
    modifies linearized, head, nodes
    ensures MarksAreSet(p, blank, Pushed(t, i, s), linearized[..])
    ensures ListsOk(p, head, nodes, Pushed(t, i, s), ends + [b])
    ensures EntryIs(p, nodes, Pushed(t, i, s), first)
  {
    OperationNodes(p, head, nodes, i);
    SetMark(p, blank, linearized, t, entry.id, s);
    first, b := LiftOut(p, head, nodes, t, ends, entry, i, s);
  }

  method LiftOut<S, I, O>(ghost p: Problem<S, I, O>, head: Node<I, O>, ghost nodes: seq<Node<I, O>>, ghost t: Trail<S>,
                          ghost ends: seq<nat>, entry: Node<I, O>, ghost i: nat, ghost s: S)
    returns (first: Node?<I, O>, ghost b: nat)
    requires p.WellFormed() && ListsOk(p, head, nodes, t, ends)
    requires i < |p.ops| && LooksAt(p, t, p.calls[i]) && entry == nodes[p.calls[i]]
    modifies head, nodes
    ensures ListsOk(p, head, nodes, Pushed(t, i, s), ends + [b])
    ensures EntryIs(p, nodes, Pushed(t, i, s), first)
  {
    b := LiftOperation(p, head, nodes, t, ends, entry, i, s);
    LooksAtFirst(p, head, nodes, Pushed(t, i, s));
    first := head.next;
  }

  method SetMark<S, I, O>(ghost p: Problem<S, I, O>, ghost blank: Words, linearized: array<Word>, ghost t: Trail<S>,
                          i: nat, ghost s: S)
    requires MarksAreSet(p, blank, t, linearized[..]) && i < |p.ops|
    modifies linearized
    ensures MarksAreSet(p, blank, Pushed(t, i, s), linearized[..])
  {
    assert Fits(blank, i);
    MarksOfPush(blank, t.path, i);
    Set(linearized, i);
  }

  method ClearMark<S, I, O>(ghost p: Problem<S, I, O>, ghost blank: Words, linearized: array<Word>, ghost t: Trail<S>,
                            i: nat)
    requires p.WellFormed() && TrailOk(p, t) && MarksAreSet(p, blank, t, linearized[..])
    requires t.path != [] && i == t.path[t.Depth() - 1]
    modifies linearized
    ensures MarksAreSet(p, blank, Popped(t), linearized[..])
  {
    MarksOfPop(p, blank, t);
    Clear(linearized, i);
  }

  // ---------------------------------------------------------------------------------------
  // The loop
  // ---------------------------------------------------------------------------------------

  // The variables the loop assigns.
  datatype Vars<I, O, !S> = Vars(entry: Node?<I, O>, cache: Cache<S>, calls: seq<CallsEntry<I, O, S>>, state: S)

  ghost predicate LoopOk<S, I, O>(p: Problem<S, I, O>, blank: Words, head: Node<I, O>, nodes: seq<Node<I, O>>,
                                  linearized: Words, v: Vars<I, O, S>, t: Trail<S>, ends: seq<nat>,
                                  pairs: set<(Words, S)>)
    reads head, nodes
  {
    && SearchOk(p, blank, nodes, t, pairs, v.calls, v.state)
    && CacheHolds(v.cache, pairs) && EntryIs(p, nodes, t, v.entry)
    && MarksAreSet(p, blank, t, linearized)
    && ListsOk(p, head, nodes, t, ends)
  }

  lemma PartsAreLoopOk<S, I, O>(p: Problem<S, I, O>, blank: Words, head: Node<I, O>, nodes: seq<Node<I, O>>,
                                linearized: Words, v: Vars<I, O, S>, t: Trail<S>, ends: seq<nat>,
                                pairs: set<(Words, S)>)
    requires SearchOk(p, blank, nodes, t, pairs, v.calls, v.state)
    requires CacheHolds(v.cache, pairs) && EntryIs(p, nodes, t, v.entry)
    requires MarksAreSet(p, blank, t, linearized) && ListsOk(p, head, nodes, t, ends)
    ensures LoopOk(p, blank, head, nodes, linearized, v, t, ends, pairs)
  {
  }

  // The call of operation i is looked at.
  ghost predicate AtCall<S, I, O>(p: Problem<S, I, O>, nodes: seq<Node<I, O>>, t: Trail<S>, entry: Node?<I, O>,
                                  i: nat) {
    && i < |p.ops| && i < |p.calls| && LooksAt(p, t, p.calls[i])
    && p.calls[i] < |nodes| && entry == nodes[p.calls[i]]
  }

  // Move on: the call cannot come next.
  method Skip<S, I, O>(ghost p: Problem<S, I, O>, ghost blank: Words, ghost head: Node<I, O>,
                       ghost nodes: seq<Node<I, O>>,
                       ghost linearized: Words, v: Vars<I, O, S>, ghost t: Trail<S>, ghost ends: seq<nat>,
                       ghost pairs: set<(Words, S)>, ghost i: nat)
    returns (r: Vars<I, O, S>)
    requires p.WellFormed() && LoopOk(p, blank, head, nodes, linearized, v, t, ends, pairs)
    requires AtCall(p, nodes, t, v.entry, i) && p.Failed(Done(t.path), v.state, i)
    ensures LoopOk(p, blank, head, nodes, linearized, r, Skipped(t), ends, pairs)
    ensures t.at[t.Depth()] + 1 < |p.Live(Done(t.path))|
  {
    SkipSearchOk(p, blank, nodes, t, pairs, v.calls, v.state, i);
    LooksAtNext(p, head, nodes, t, i);
    SkipListsOk(p, head, nodes, t, ends);
    r := v.(entry := v.entry.next);
  }

  lemma SkipListsOk<S, I, O>(p: Problem<S, I, O>, head: Node<I, O>, nodes: seq<Node<I, O>>, t: Trail<S>, ends: seq<nat>)
    requires ListsOk(p, head, nodes, t, ends)
    ensures ListsOk(p, head, nodes, Skipped(t), ends)
  {
    ParkedAlike(p, head, nodes, Links(nodes), t, ends, Skipped(t), ends, t.Depth());
  }

  // Put the call next: cache the pair, push it on the stack, mark it and take it out.
  method Accept<S, I, O>(ghost p: Problem<S, I, O>, ghost blank: Words, head: Node<I, O>,
      ghost nodes: seq<Node<I, O>>, linearized: array<Word>, v: Vars<I, O, S>, ghost t: Trail<S>, ghost ends: seq<nat>,
      ghost pairs: set<(Words, S)>, ghost i: nat, newState: S, newLinearized: array<Word>)
    returns (r: Vars<I, O, S>, ghost b: nat)
    requires p.WellFormed() && LoopOk(p, blank, head, nodes, linearized[..], v, t, ends, pairs)
    requires AtCall(p, nodes, t, v.entry, i) && Step(p.model, p.ops, v.state, i) == (true, newState)
    requires newLinearized != linearized && MarksAreSet(p, blank, Pushed(t, i, newState), newLinearized[..])
    modifies linearized, head, nodes
    ensures LoopOk(p, blank, head, nodes, linearized[..], r, Pushed(t, i, newState), ends + [b],
                   pairs + {(newLinearized[..], newState)})
  {
    ghost var w := newLinearized[..];
    PushSearchOk(p, blank, nodes, t, pairs, v.calls, v.state, i, newState);
    var cache := AddToCache(v.cache, newLinearized, newState, pairs);
    var first;
    first, b := TakeOut(p, blank, head, nodes, t, ends, linearized, v.entry, i, newState);
    r := Vars(first, cache, v.calls + [CallsEntry(v.entry, v.state)], newState);
    PartsAreLoopOk(p, blank, head, nodes, linearized[..], r, Pushed(t, i, newState), ends + [b],
                   pairs + {(w, newState)});
  }

  // Is the pair that putting the call next would give already cached?
  method Lookup<S, I, O>(ghost p: Problem<S, I, O>, m: Model<S, I, O>, ghost blank: Words, linearized: array<Word>,
                         cache: Cache<S>, ghost t: Trail<S>, ghost pairs: set<(Words, S)>, id: nat, newState: S)
    returns (newLinearized: array<Word>, found: bool)
    requires MarksAreSet(p, blank, t, linearized[..]) && CacheHolds(cache, pairs) && id < |p.ops|
    ensures fresh(newLinearized) && MarksAreSet(p, blank, Pushed(t, id, newState), newLinearized[..])
    ensures found <==> Hits(m, pairs, newLinearized[..], newState)
  {
    newLinearized := Clone(linearized);
    SetMark(p, blank, newLinearized, t, id, newState);
    found := CacheContains(m, cache, newLinearized, newState, pairs);
  }

  lemma MissIsProgress<S(!new), I(!new), O(!new)>(p: Problem<S, I, O>, blank: Words, nodes: seq<Node<I, O>>,
                                                  t: Trail<S>,
      pairs: set<(Words, S)>, calls: seq<CallsEntry<I, O, S>>, state: S, i: nat, s: S, w: Words)
    requires p.WellFormed() && EqualIsEquality(p.model) && SearchOk(p, blank, nodes, t, pairs, calls, state)
    requires i < |p.ops| && LooksAt(p, t, p.calls[i]) && Step(p.model, p.ops, state, i) == (true, s)
    requires MarksAreSet(p, blank, Pushed(t, i, s), w) && !Hits(p.model, pairs, w, s)
    ensures AllPairs(p, blank) - (pairs + {(w, s)}) < AllPairs(p, blank) - pairs
  {
    PushKeeps(p, t, i, s);
    TrailSteps(p, Pushed(t, i, s));
    TrailHasNoRepeats(p, Pushed(t, i, s));
    PathPairIsKnown(p, blank, Pushed(t, i, s));
    assert p.model.equal(s, s);
    NewPairIsMissing(p.model, pairs, AllPairs(p, blank), w, s);
  }

  // The branch of the loop for a call entry.
  method TryCall<S(!new), I(!new), O(!new)>(ghost p: Problem<S, I, O>, m: Model<S, I, O>, ghost blank: Words,
      head: Node<I, O>, ghost nodes: seq<Node<I, O>>, linearized: array<Word>, v: Vars<I, O, S>, ghost t: Trail<S>,
      ghost ends: seq<nat>, ghost pairs: set<(Words, S)>, ghost i: nat)
    returns (r: Vars<I, O, S>, ghost t': Trail<S>, ghost ends': seq<nat>, ghost pairs': set<(Words, S)>)
    requires p.WellFormed() && p.model == m && EqualIsEquality(m)
    requires LoopOk(p, blank, head, nodes, linearized[..], v, t, ends, pairs) && AtCall(p, nodes, t, v.entry, i)
    modifies linearized, head, nodes
    ensures LoopOk(p, blank, head, nodes, linearized[..], r, t', ends', pairs')
    ensures || AllPairs(p, blank) - pairs' < AllPairs(p, blank) - pairs
            || (pairs' == pairs && t' == Skipped(t) && t.at[t.Depth()] + 1 < |p.Live(Done(t.path))|)
  {
    OperationNodes(p, head, nodes, i);
    var matching := v.entry.matching;
    var (ok, newState) := m.step(v.state, v.entry.value.input, matching.value.output);
    assert Step(m, p.ops, v.state, i) == (ok, newState);
    if ok {
      var newLinearized, found := Lookup(p, m, blank, linearized, v.cache, t, pairs, v.entry.id, newState);
      if !found {
        MissIsProgress(p, blank, nodes, t, pairs, v.calls, v.state, i, newState, newLinearized[..]);
        ghost var b;
        r, b := Accept(p, blank, head, nodes, linearized, v, t, ends, pairs, i, newState, newLinearized);
        t', ends', pairs' := Pushed(t, i, newState), ends + [b], pairs + {(newLinearized[..], newState)};
        return;
      }
      HitFails(p, blank, nodes, t, pairs, v.calls, v.state, i, newState);
    }
    r := Skip(p, blank, head, nodes, linearized[..], v, t, ends, pairs, i);
    t', ends', pairs' := Skipped(t), ends, pairs;
  }

  lemma HitFails<S(!new), I(!new), O(!new)>(p: Problem<S, I, O>, blank: Words, nodes: seq<Node<I, O>>, t: Trail<S>,
      pairs: set<(Words, S)>, calls: seq<CallsEntry<I, O, S>>, state: S, i: nat, s: S)
    requires p.WellFormed() && EqualIsEquality(p.model) && SearchOk(p, blank, nodes, t, pairs, calls, state)
    requires i < |p.ops| && LooksAt(p, t, p.calls[i]) && Step(p.model, p.ops, state, i) == (true, s)
    requires MarksFit(blank, t.path + [i]) && Hits(p.model, pairs, Marks(blank, t.path + [i]), s)
    ensures p.Failed(Done(t.path), state, i)
  {
    var c :| c in pairs && c.0 == Marks(blank, t.path + [i]) && p.model.equal(s, c.1);
    PushKeeps(p, t, i, s);
    TrailHasNoRepeats(p, t);
    TrailHasNoRepeats(p, Pushed(t, i, s));
    CachedIsDeadEnd(p, blank, t, i, c);
    HitIsDeadEnd(p, Done(t.path) + {i}, s, c.1);
  }

  // The branch of the loop for a return entry when the stack is not empty.
  method Backtrack<S, I, O>(ghost p: Problem<S, I, O>, ghost blank: Words, ghost head: Node<I, O>,
      ghost nodes: seq<Node<I, O>>, linearized: array<Word>, v: Vars<I, O, S>, ghost t: Trail<S>, ghost ends: seq<nat>,
      ghost pairs: set<(Words, S)>, ghost x: nat)
    returns (r: Vars<I, O, S>)
    requires p.WellFormed() && LoopOk(p, blank, head, nodes, linearized[..], v, t, ends, pairs)
    requires LooksAt(p, t, x) && p.entries[x].ReturnEntry? && v.calls != []
    modifies linearized, head, nodes
    ensures LoopOk(p, blank, head, nodes, linearized[..], r, Popped(t), ends[..|ends| - 1], pairs)
  {
    var callsTop := v.calls[|v.calls| - 1];
    ghost var d := t.Depth() - 1;
    assert CallIs(p, nodes, t, callsTop, d);
    PopSearchOk(p, blank, nodes, t, pairs, v.calls, v.state, x);
    var entry := PutBack(p, blank, head, nodes, linearized, callsTop.entry, t, ends);
    r := Vars(entry, v.cache, v.calls[..|v.calls| - 1], callsTop.state);
  }

  // Unmark the last call, unlift it, and look at the entry after it.
  method PutBack<S, I, O>(ghost p: Problem<S, I, O>, ghost blank: Words, ghost head: Node<I, O>,
      ghost nodes: seq<Node<I, O>>, linearized: array<Word>, entry: Node<I, O>, ghost t: Trail<S>, ghost ends: seq<nat>)
    returns (after: Node?<I, O>)
    requires p.WellFormed() && TrailOk(p, t) && MarksAreSet(p, blank, t, linearized[..]) && t.path != []
    requires ListsOk(p, head, nodes, t, ends)
    requires IsTop(p, nodes, t, entry)
    modifies linearized, head, nodes
    ensures MarksAreSet(p, blank, Popped(t), linearized[..])
    ensures ListsOk(p, head, nodes, Popped(t), ends[..t.Depth() - 1])
    ensures EntryIs(p, nodes, Popped(t), after)
  {
    ghost var d := t.Depth() - 1;
    assert Linked(p, t, d);
    OperationNodes(p, head, nodes, t.path[d]);
    ClearMark(p, blank, linearized, t, entry.id);
    UnliftOperation(p, head, nodes, t, ends, entry);
    PoppedLooksAtNext(p, head, nodes, t);
    after := entry.next;
  }

  lemma MarksOfPop<S, I, O>(p: Problem<S, I, O>, blank: Words, t: Trail<S>)
    requires p.WellFormed() && TrailOk(p, t) && Blank(blank, |p.ops|) && MarksFit(blank, t.path) && t.path != []
    ensures var d := t.Depth() - 1;
            Fits(blank, t.path[d]) && WithoutBit(Marks(blank, t.path), t.path[d]) == Marks(blank, t.path[..d])
  {
    var d := t.Depth() - 1;
    TrailHasNoRepeats(p, t);
    MarksAre(blank, |p.ops|, t.path[..d], t.path[d]);
    ClearUndoesSet(Marks(blank, t.path[..d]), t.path[d]);
  }

  lemma PoppedLooksAtNext<S, I, O>(p: Problem<S, I, O>, head: Node<I, O>, nodes: seq<Node<I, O>>, t: Trail<S>)
    requires p.WellFormed() && TrailOk(p, t) && t.path != [] && Built(p, head, nodes)
    requires Chain(ListAt(p, head, nodes, Done(Popped(t).path)))
    ensures Linked(p, t, t.Depth() - 1) && p.calls[t.path[t.Depth() - 1]] < |nodes|
    ensures EntryIs(p, nodes, Popped(t), nodes[p.calls[t.path[t.Depth() - 1]]].next)
  {
    var d := t.Depth() - 1;
    assert Linked(p, t, d);
    assert p.OperationAt(t.path[d]);
    LooksAtNext(p, head, nodes, Trail(t.path[..d], t.states[..d + 1], t.at[..d + 1]), t.path[d]);
  }

  lemma LooksAtSomething<S, I, O>(p: Problem<S, I, O>, head: Node<I, O>, nodes: seq<Node<I, O>>, t: Trail<S>,
                                  entry: Node?<I, O>) returns (x: nat)
    requires p.WellFormed() && Built(p, head, nodes) && Chain(ListAt(p, head, nodes, Done(t.path)))
    requires head.next != null && EntryIs(p, nodes, t, entry)
    ensures LooksAt(p, t, x) && entry == nodes[x]
    ensures entry != null && (entry.matching != null <==> p.entries[x].CallEntry?)
    ensures p.entries[x].CallEntry? ==> AtCall(p, nodes, t, entry, p.entries[x].id)
  {
    HeadNext(p, head, nodes, Done(t.path));
    x :| LooksAt(p, t, x) && entry == nodes[x];
    EntryKind(p, head, nodes, x);
  }

  // When not killed, true exactly when the operations can be linearized.
  method CheckSingle<S(!new), I(!new), O(!new)>(ghost p: Problem<S, I, O>, m: Model<S, I, O>, history: seq<Entry<I, O>>)
    returns (ok: bool)
    requires p.WellFormed() && p.model == m && p.entries == history && EqualIsEquality(m)
    ensures ok <==> p.CanFinish({}, m.init)
  {
    var entry, nodes := MakeLinkedEntries(history);
    var l := Length(entry, nodes);
    var n := l / 2;
    var linearized := NewBitset(n);
    var sentinel := new Node(Nothing, null, -1);
    var headEntry := InsertBefore(sentinel, entry, nodes, 0);
    assert nodes[..0] + [headEntry] + nodes[0..] == [headEntry] + nodes;
    StartListsOk(p, headEntry, nodes);
    StartEntry(p, nodes, entry);
    StartSearchOk(p, nodes, linearized[..]);
    ok := SearchLoop(p, m, headEntry, nodes, linearized, Vars(entry, map[], [], m.init));
  }

  method SearchLoop<S(!new), I(!new), O(!new)>(ghost p: Problem<S, I, O>, m: Model<S, I, O>, headEntry: Node<I, O>,
      ghost nodes: seq<Node<I, O>>, linearized: array<Word>, start: Vars<I, O, S>)
    returns (ok: bool)
    requires p.WellFormed() && p.model == m && EqualIsEquality(m)
    requires LoopOk(p, linearized[..], headEntry, nodes, linearized[..], start, Trail([], [m.init], [0]), [], {})
    modifies linearized, headEntry, nodes
    ensures ok <==> p.CanFinish({}, m.init)
  {
    ghost var blank := linearized[..];
    var v := start;
    ghost var t, ends, pairs := Trail([], [m.init], [0]), [], {};
    while headEntry.next != null
      invariant LoopOk(p, blank, headEntry, nodes, linearized[..], v, t, ends, pairs)
      decreases AllPairs(p, blank) - pairs, |t.path|, |p.Live(Done(t.path))| - t.at[t.Depth()]
    {
      ghost var x := LooksAtSomething(p, headEntry, nodes, t, v.entry);
      if v.entry.matching != null {
        v, t, ends, pairs := TryCall(p, m, blank, headEntry, nodes, linearized, v, t, ends, pairs, p.entries[x].id);
      } else {
        if |v.calls| == 0 {
          StuckAtTheBottom(p, t, x);
          return false;
        }
        v := Backtrack(p, blank, headEntry, nodes, linearized, v, t, ends, pairs, x);
        t, ends := Popped(t), ends[..|ends| - 1];
      }
    }
    HeadNext(p, headEntry, nodes, Done(t.path));
    PathFinishes(p, t, 0);
    assert t.DoneAt(0) == {};
    return true;
  }
}

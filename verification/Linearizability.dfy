/**
 What it means for a history to be linearizable (src/porcupine/model.go), in two forms shown
 to be the same: some permutation of the operations respects real time and is accepted step
 by step by the model; and a search that always picks an operation no other remaining one
 finished before can be carried through to the end.
 */
module Linearizability {
  import opened Collections

  datatype Operation<I, O> = Operation(clientId: int, input: I, call: int, output: O, ret: int)

  // The part of porcupine.Model the checker uses.
  datatype Model<!S, !I, !O> = Model(init: S, step: (S, I, O) -> (bool, S), equal: (S, S) -> bool)

  // Equal is an equality on states: reflexive, and no sequence of steps tells equal states apart.
  ghost predicate EqualIsEquality<S(!new), I(!new), O(!new)>(m: Model<S, I, O>) {
    && (forall s :: m.equal(s, s))
    && (forall s, t, i, o :: m.equal(s, t) ==> SameStep(m, s, t, i, o))
  }

  ghost predicate SameStep<S, I, O>(m: Model<S, I, O>, s: S, t: S, i: I, o: O) {
    && m.step(s, i, o).0 == m.step(t, i, o).0
    && (m.step(s, i, o).0 ==> m.equal(m.step(s, i, o).1, m.step(t, i, o).1))
  }

  // Operation a returned before operation b was called.
  type Order = (nat, nat) -> bool

  function Step<S, I, O>(m: Model<S, I, O>, ops: seq<Operation<I, O>>, s: S, i: nat): (bool, S)
    requires i < |ops|
  {
    m.step(s, ops[i].input, ops[i].output)
  }

  // No operation of `rest` returned before i was called.
  ghost predicate First(before: Order, rest: set<nat>, i: nat) {
    i in rest && forall j: nat :: j in rest ==> !before(j, i)
  }

  // From state s the operations of `rest` can be ordered to the end.
  ghost predicate Completes<S, I, O>(m: Model<S, I, O>, ops: seq<Operation<I, O>>, before: Order, rest: set<nat>, s: S)
    requires forall i: nat :: i in rest ==> i < |ops|
    decreases |rest|
  {
    rest == {} ||
    exists i: nat :: First(before, rest, i) && Step(m, ops, s, i).0
      && Completes(m, ops, before, rest - {i}, Step(m, ops, s, i).1)
  }

  // ---------------------------------------------------------------------------------------
  // The same in terms of permutations
  // ---------------------------------------------------------------------------------------

  ghost predicate Arranges(p: seq<nat>, rest: set<nat>) {
    && (forall x :: 0 <= x < |p| ==> p[x] in rest)
    && (forall i: nat :: i in rest ==> i in p)
    && (forall x, y :: 0 <= x < y < |p| ==> p[x] != p[y])
  }

  // No operation comes after one that was called only after it returned.
  ghost predicate RespectsTime(before: Order, p: seq<nat>) {
    forall x, y :: 0 <= x < y < |p| ==> !before(p[y], p[x])
  }

  ghost predicate Accepts<S, I, O>(m: Model<S, I, O>, ops: seq<Operation<I, O>>, p: seq<nat>, s: S)
    requires forall x :: 0 <= x < |p| ==> p[x] < |ops|
  {
    p == [] || (Step(m, ops, s, p[0]).0 && Accepts(m, ops, p[1..], Step(m, ops, s, p[0]).1))
  }

  ghost predicate Linearizes<S, I, O>(m: Model<S, I, O>, ops: seq<Operation<I, O>>, before: Order,
                                      rest: set<nat>, s: S, p: seq<nat>)
    requires forall i: nat :: i in rest ==> i < |ops|
  {
    Arranges(p, rest) && RespectsTime(before, p) && Accepts(m, ops, p, s)
  }

  ghost predicate SomeOrder<S, I, O>(m: Model<S, I, O>, ops: seq<Operation<I, O>>, before: Order, rest: set<nat>, s: S)
    requires forall i: nat :: i in rest ==> i < |ops|
  {
    exists p :: Linearizes(m, ops, before, rest, s, p)
  }

  lemma ArrangeNext(before: Order, rest: set<nat>, i: nat, q: seq<nat>)
    requires First(before, rest, i) && Arranges(q, rest - {i}) && RespectsTime(before, q)
    ensures Arranges([i] + q, rest) && RespectsTime(before, [i] + q)
  {
    var p := [i] + q;
    forall j: nat | j in rest ensures j in p {
      assert j == i || j in q;
    }
  }

  lemma {:induction false} CompletesHasOrder<S, I, O>(m: Model<S, I, O>, ops: seq<Operation<I, O>>, before: Order,
                                                     rest: set<nat>, s: S) returns (p: seq<nat>)
    requires forall i: nat :: i in rest ==> i < |ops|
    requires Completes(m, ops, before, rest, s)
    ensures Linearizes(m, ops, before, rest, s, p)
    decreases |rest|
  {
    p := [];
    if rest != {} {
      var i: nat :| First(before, rest, i) && Step(m, ops, s, i).0
        && Completes(m, ops, before, rest - {i}, Step(m, ops, s, i).1);
      var q := CompletesHasOrder(m, ops, before, rest - {i}, Step(m, ops, s, i).1);
      ArrangeNext(before, rest, i, q);
      p := [i] + q;
      assert p[1..] == q;
    }
  }

  lemma {:induction false} OrderCompletes<S, I, O>(m: Model<S, I, O>, ops: seq<Operation<I, O>>, before: Order,
                                                  rest: set<nat>, s: S, p: seq<nat>)
    requires forall i: nat :: i in rest ==> i < |ops| && !before(i, i)
    requires Linearizes(m, ops, before, rest, s, p)
    ensures Completes(m, ops, before, rest, s)
    decreases |p|
  {
    if p != [] {
      var i, q := p[0], p[1..];
      assert i in p;
      assert Arranges(q, rest - {i}) by {
        assert p == [i] + q;
      }
      OrderCompletes(m, ops, before, rest - {i}, Step(m, ops, s, i).1, q);
      assert First(before, rest, i);
    } else {
      assert rest == {};
    }
  }

  // No operation returns before its own call.
  ghost predicate Proper(before: Order, rest: set<nat>) {
    forall i: nat :: i in rest ==> !before(i, i)
  }

  lemma CompletesIffLinearizable<S, I, O>(m: Model<S, I, O>, ops: seq<Operation<I, O>>, before: Order,
                                          rest: set<nat>, s: S)
    requires Proper(before, rest) && forall i: nat :: i in rest ==> i < |ops|
    ensures Completes(m, ops, before, rest, s) <==> SomeOrder(m, ops, before, rest, s)
  {
    if Completes(m, ops, before, rest, s) {
      var p := CompletesHasOrder(m, ops, before, rest, s);
    }
    forall p | Linearizes(m, ops, before, rest, s, p) ensures Completes(m, ops, before, rest, s) {
      OrderCompletes(m, ops, before, rest, s, p);
    }
  }

  // Equal states complete alike.
  lemma {:induction false} EqualCompletes<S(!new), I(!new), O(!new)>(m: Model<S, I, O>, ops: seq<Operation<I, O>>,
                                                                    before: Order, rest: set<nat>, s: S, t: S)
    requires EqualIsEquality(m) && m.equal(s, t)
    requires forall i: nat :: i in rest ==> i < |ops|
    requires Completes(m, ops, before, rest, s)
    ensures Completes(m, ops, before, rest, t)
    decreases |rest|
  {
    if rest != {} {
      var i: nat :| First(before, rest, i) && Step(m, ops, s, i).0
        && Completes(m, ops, before, rest - {i}, Step(m, ops, s, i).1);
      assert SameStep(m, s, t, ops[i].input, ops[i].output);
      EqualCompletes(m, ops, before, rest - {i}, Step(m, ops, s, i).1, Step(m, ops, t, i).1);
    }
  }

  // ---------------------------------------------------------------------------------------
  // Histories with times
  // ---------------------------------------------------------------------------------------

  function RealTime<I, O>(ops: seq<Operation<I, O>>): Order {
    (a: nat, b: nat) => a < |ops| && b < |ops| && ops[a].ret < ops[b].call
  }

  // Some order of all operations respects real time and is accepted by the model.
  ghost predicate Linearizable<S, I, O>(m: Model<S, I, O>, ops: seq<Operation<I, O>>) {
    SomeOrder(m, ops, RealTime(ops), Indices(|ops|), m.init)
  }
}

/**
 The key/value model of src/models/kv.go and its by-key split: a history is linearizable
 against a store of many keys exactly when each key's part is linearizable against the model
 of a single value.
 */
module KvHistory {
  import opened Collections
  import opened Strings
  import opened Linearizability

  datatype KvInput = KvInput(op: nat, key: string, value: string)

  datatype KvOutput = KvOutput(value: string)

  type KvOperation = Operation<KvInput, KvOutput>

  // 0 is get, 1 put, 2 append, anything else append with return value.
  function StepValue(st: string, inp: KvInput, out: KvOutput): (bool, string) {
    if inp.op == 0 then (out.value == st, st)
    else if inp.op == 1 then (true, inp.value)
    else if inp.op == 2 then (true, st + inp.value)
    else (out.value == st, st + inp.value)
  }

  function OneValue(): Model<string, KvInput, KvOutput> {
    Model("", StepValue, (s: string, t: string) => s == t)
  }

  // The store the single value stands for: a map in which a missing key reads as "".
  type Store = map<string, string>

  function ValueOf(s: Store, key: string): string {
    if key in s then s[key] else ""
  }

  function StepStore(s: Store, inp: KvInput, out: KvOutput): (bool, Store) {
    var r := StepValue(ValueOf(s, inp.key), inp, out);
    (r.0, s[inp.key := r.1])
  }

  function WholeStore(): Model<Store, KvInput, KvOutput> {
    Model(map[], StepStore, (s: Store, t: Store) => s == t)
  }

  lemma OneValueIsEquality()
    ensures EqualIsEquality(OneValue())
  {
  }

  // ---------------------------------------------------------------------------------------
  // The split, on the operations of one history
  // ---------------------------------------------------------------------------------------

  ghost function OfKey(ops: seq<KvOperation>, rest: set<nat>, key: string): set<nat> {
    set i | i in rest && i < |ops| && ops[i].input.key == key
  }

  ghost predicate StoreCompletes(ops: seq<KvOperation>, rest: set<nat>, s: Store)
    requires forall i: nat :: i in rest ==> i < |ops|
  {
    Completes(WholeStore(), ops, RealTime(ops), rest, s)
  }

  ghost predicate KeyCompletes(ops: seq<KvOperation>, rest: set<nat>, key: string, v: string)
  {
    Completes(OneValue(), ops, RealTime(ops), OfKey(ops, rest, key), v)
  }

  // Linearizing i changes only the part of its own key.
  lemma OfKeyAfter(ops: seq<KvOperation>, rest: set<nat>, key: string, i: nat)
    requires i < |ops|
    ensures OfKey(ops, rest - {i}, key) == OfKey(ops, rest, key) - {i}
    ensures ops[i].input.key != key ==> OfKey(ops, rest - {i}, key) == OfKey(ops, rest, key)
  {
  }

  lemma {:induction false} WholeToKeys(ops: seq<KvOperation>, rest: set<nat>, s: Store, key: string)
    requires forall i: nat :: i in rest ==> i < |ops|
    requires StoreCompletes(ops, rest, s)
    ensures KeyCompletes(ops, rest, key, ValueOf(s, key))
    decreases |rest|
  {
    if rest == {} {
      assert OfKey(ops, rest, key) == {};
    } else {
      var before := RealTime(ops);
      var i: nat :| First(before, rest, i) && Step(WholeStore(), ops, s, i).0
                    && Completes(WholeStore(), ops, before, rest - {i}, Step(WholeStore(), ops, s, i).1);
      var s' := Step(WholeStore(), ops, s, i).1;
      WholeToKeys(ops, rest - {i}, s', key);
      OfKeyAfter(ops, rest, key, i);
      if ops[i].input.key == key {
        assert First(before, OfKey(ops, rest, key), i);
        assert Step(OneValue(), ops, ValueOf(s, key), i) == (true, ValueOf(s', key));
      } else {
        assert ValueOf(s', key) == ValueOf(s, key);
      }
    }
  }

  // Some operation returned no later than any other.
  lemma {:induction false} FirstToReturn(ops: seq<KvOperation>, rest: set<nat>) returns (x: nat)
    requires rest != {} && forall i: nat :: i in rest ==> i < |ops|
    ensures x in rest && forall j: nat :: j in rest ==> ops[x].ret <= ops[j].ret
    decreases |rest|
  {
    x :| x in rest;
    if rest != {x} {
      assert rest - {x} != {};
      var y := FirstToReturn(ops, rest - {x});
      if ops[y].ret < ops[x].ret {
        x := y;
      }
    }
  }

  lemma KeysStepOnce(ops: seq<KvOperation>, rest: set<nat>, s: Store, h: nat, key: string)
    requires forall i: nat :: i in rest ==> i < |ops|
    requires h in rest && Step(OneValue(), ops, ValueOf(s, ops[h].input.key), h).0
    requires KeyCompletes(ops, rest - {h}, ops[h].input.key, Step(OneValue(), ops, ValueOf(s, ops[h].input.key), h).1)
    requires KeyCompletes(ops, rest, key, ValueOf(s, key))
    ensures Step(WholeStore(), ops, s, h).0
    ensures KeyCompletes(ops, rest - {h}, key, ValueOf(Step(WholeStore(), ops, s, h).1, key))
  {
    OfKeyAfter(ops, rest, key, h);
  }

  ghost predicate AllKeysComplete(ops: seq<KvOperation>, rest: set<nat>, s: Store) {
    forall key: string :: KeyCompletes(ops, rest, key, ValueOf(s, key))
  }

  // The per-key orders can be merged without breaking real-time order.
  lemma {:induction false} KeysToWhole(ops: seq<KvOperation>, rest: set<nat>, s: Store)
    requires forall i: nat :: i in rest ==> i < |ops|
    requires AllKeysComplete(ops, rest, s)
    ensures StoreCompletes(ops, rest, s)
    decreases |rest|
  {
    if rest != {} {
      var before := RealTime(ops);
      var x := FirstToReturn(ops, rest);
      var key := ops[x].input.key;
      assert x in OfKey(ops, rest, key);
      assert KeyCompletes(ops, rest, key, ValueOf(s, key));
      var h: nat :| First(before, OfKey(ops, rest, key), h) && Step(OneValue(), ops, ValueOf(s, key), h).0
                    && Completes(OneValue(), ops, before, OfKey(ops, rest, key) - {h},
                                 Step(OneValue(), ops, ValueOf(s, key), h).1);
      OfKeyAfter(ops, rest, key, h);
      assert First(before, rest, h) by {
        assert !before(x, h);
      }
      forall k: string ensures KeyCompletes(ops, rest - {h}, k, ValueOf(Step(WholeStore(), ops, s, h).1, k)) {
        KeysStepOnce(ops, rest, s, h, k);
      }
      KeysStepOnce(ops, rest, s, h, key);
      KeysToWhole(ops, rest - {h}, Step(WholeStore(), ops, s, h).1);
    }
  }

  // ---------------------------------------------------------------------------------------
  // Sub-histories
  // ---------------------------------------------------------------------------------------

  // The operations of one key, in order.
  function ByKey(ops: seq<KvOperation>, key: string): seq<KvOperation> {
    if ops == [] then []
    else ByKey(ops[..|ops| - 1], key) + if ops[|ops| - 1].input.key == key then [ops[|ops| - 1]] else []
  }

  // Where they stand in the whole history.
  ghost function PlacesOf(ops: seq<KvOperation>, key: string): seq<nat> {
    if ops == [] then []
    else PlacesOf(ops[..|ops| - 1], key) + if ops[|ops| - 1].input.key == key then [|ops| - 1] else []
  }

  // sub is the part of ops at the places f, each place once.
  ghost predicate PartOf<I, O>(sub: seq<Operation<I, O>>, ops: seq<Operation<I, O>>, f: seq<nat>) {
    && |f| == |sub|
    && (forall j :: 0 <= j < |f| ==> f[j] < |ops| && sub[j] == ops[f[j]])
    && (forall j, k :: 0 <= j < k < |f| ==> f[j] < f[k])
  }

  lemma {:induction false} ByKeyIsPart(ops: seq<KvOperation>, key: string)
    ensures PartOf(ByKey(ops, key), ops, PlacesOf(ops, key))
    ensures forall i: nat :: i in PlacesOf(ops, key) <==> i < |ops| && ops[i].input.key == key
  {
    if ops != [] {
      var front := ops[..|ops| - 1];
      ByKeyIsPart(front, key);
      var f := PlacesOf(front, key);
      assert forall j :: 0 <= j < |f| ==> f[j] in f;
    }
  }

  ghost function Image(f: seq<nat>, q: set<nat>): set<nat> {
    set j | j in q && j < |f| :: f[j]
  }

  lemma ImageLess(f: seq<nat>, q: set<nat>, j: nat)
    requires j in q && j < |f| && forall a, b :: 0 <= a < b < |f| ==> f[a] < f[b]
    ensures Image(f, q - {j}) == Image(f, q) - {f[j]}
  {
  }

  lemma FirstInPart<I, O>(sub: seq<Operation<I, O>>, ops: seq<Operation<I, O>>, f: seq<nat>, q: set<nat>, j: nat)
    requires PartOf(sub, ops, f) && j in q && forall i: nat :: i in q ==> i < |sub|
    ensures First(RealTime(sub), q, j) <==> First(RealTime(ops), Image(f, q), f[j])
  {
    if First(RealTime(ops), Image(f, q), f[j]) {
      forall i: nat | i in q ensures !RealTime(sub)(i, j) {
        assert f[i] in Image(f, q);
      }
    }
  }

  lemma {:induction false} PartToWhole<S, I, O>(m: Model<S, I, O>, sub: seq<Operation<I, O>>, ops: seq<Operation<I, O>>,
                                               f: seq<nat>, q: set<nat>, s: S)
    requires PartOf(sub, ops, f) && forall i: nat :: i in q ==> i < |sub|
    requires Completes(m, sub, RealTime(sub), q, s)
    ensures Completes(m, ops, RealTime(ops), Image(f, q), s)
    decreases |q|
  {
    if q == {} {
      assert Image(f, q) == {};
    } else {
      var j: nat :| First(RealTime(sub), q, j) && Step(m, sub, s, j).0
                    && Completes(m, sub, RealTime(sub), q - {j}, Step(m, sub, s, j).1);
      PartToWhole(m, sub, ops, f, q - {j}, Step(m, sub, s, j).1);
      ImageLess(f, q, j);
      FirstInPart(sub, ops, f, q, j);
    }
  }

  lemma {:induction false} WholeToPart<S, I, O>(m: Model<S, I, O>, sub: seq<Operation<I, O>>, ops: seq<Operation<I, O>>,
                                               f: seq<nat>, q: set<nat>, s: S)
    requires PartOf(sub, ops, f) && forall i: nat :: i in q ==> i < |sub|
    requires Completes(m, ops, RealTime(ops), Image(f, q), s)
    ensures Completes(m, sub, RealTime(sub), q, s)
    decreases |q|
  {
    if q != {} {
      var any: nat :| any in q;
      assert f[any] in Image(f, q);
      var i: nat :| First(RealTime(ops), Image(f, q), i) && Step(m, ops, s, i).0
                    && Completes(m, ops, RealTime(ops), Image(f, q) - {i}, Step(m, ops, s, i).1);
      var j: nat :| j in q && f[j] == i;
      ImageLess(f, q, j);
      WholeToPart(m, sub, ops, f, q - {j}, Step(m, sub, s, j).1);
      FirstInPart(sub, ops, f, q, j);
    }
  }

  // No operation returns before it is called.
  ghost predicate Timely<I, O>(ops: seq<Operation<I, O>>) {
    forall i :: 0 <= i < |ops| ==> ops[i].call <= ops[i].ret
  }

  lemma LinearizableIsCompletes<S, I, O>(m: Model<S, I, O>, ops: seq<Operation<I, O>>)
    requires Timely(ops)
    ensures Linearizable(m, ops) <==> Completes(m, ops, RealTime(ops), Indices(|ops|), m.init)
  {
    CompletesIffLinearizable(m, ops, RealTime(ops), Indices(|ops|), m.init);
  }

  lemma KeyPartIsKey(ops: seq<KvOperation>, key: string)
    requires Timely(ops)
    ensures Timely(ByKey(ops, key))
    ensures Linearizable(OneValue(), ByKey(ops, key)) <==> KeyCompletes(ops, Indices(|ops|), key, "")
  {
    var sub, f := ByKey(ops, key), PlacesOf(ops, key);
    ByKeyIsPart(ops, key);
    var all := Indices(|sub|);
    assert Image(f, all) == OfKey(ops, Indices(|ops|), key);
    LinearizableIsCompletes(OneValue(), sub);
    if Completes(OneValue(), sub, RealTime(sub), all, "") {
      PartToWhole(OneValue(), sub, ops, f, all, "");
    }
    if KeyCompletes(ops, Indices(|ops|), key, "") {
      WholeToPart(OneValue(), sub, ops, f, all, "");
    }
  }

  ghost predicate EveryKeyLinearizable(ops: seq<KvOperation>) {
    forall i :: 0 <= i < |ops| ==> Linearizable(OneValue(), ByKey(ops, ops[i].input.key))
  }

  // Splitting by key keeps the verdict.
  lemma SplitByKey(ops: seq<KvOperation>)
    requires Timely(ops)
    ensures Linearizable(WholeStore(), ops) <==> EveryKeyLinearizable(ops)
  {
    var all := Indices(|ops|);
    LinearizableIsCompletes(WholeStore(), ops);
    if StoreCompletes(ops, all, map[]) {
      forall i | 0 <= i < |ops| ensures Linearizable(OneValue(), ByKey(ops, ops[i].input.key)) {
        WholeToKeys(ops, all, map[], ops[i].input.key);
        KeyPartIsKey(ops, ops[i].input.key);
      }
    }
    if EveryKeyLinearizable(ops) {
      forall key: string ensures KeyCompletes(ops, all, key, ValueOf(map[], key)) {
        UnusedOrLinearizable(ops, key);
      }
      KeysToWhole(ops, all, map[]);
    }
  }

  lemma UnusedOrLinearizable(ops: seq<KvOperation>, key: string)
    requires Timely(ops) && EveryKeyLinearizable(ops)
    ensures KeyCompletes(ops, Indices(|ops|), key, "")
  {
    if i :| 0 <= i < |ops| && ops[i].input.key == key {
      KeyPartIsKey(ops, key);
    } else {
      assert OfKey(ops, Indices(|ops|), key) == {};
    }
  }

  // ---------------------------------------------------------------------------------------
  // Partition
  // ---------------------------------------------------------------------------------------

  // The groups so far hold each key's operations in order.
  ghost predicate Grouped(m: map<string, seq<KvOperation>>, ops: seq<KvOperation>) {
    && (forall key :: key in m ==> m[key] == ByKey(ops, key) && m[key] != [])
    && (forall key :: key !in m ==> ByKey(ops, key) == [])
  }

  method Group(history: seq<KvOperation>) returns (m: map<string, seq<KvOperation>>)
    ensures Grouped(m, history)
  {
    m := map[];
    for n := 0 to |history|
      invariant Grouped(m, history[..n])
    {
      var key := history[n].input.key;
      assert history[..n + 1][..n] == history[..n];
      m := m[key := (if key in m then m[key] else []) + [history[n]]];
    }
    assert history[..|history|] == history;
  }

  // The parts are the groups of the keys that occur, in the order of the keys.
  ghost predicate PartsOf(history: seq<KvOperation>, ret: seq<seq<KvOperation>>, keys: seq<string>) {
    && Ascends(keys) && (forall key :: key in keys <==> ByKey(history, key) != [])
    && |ret| == |keys| && (forall j :: 0 <= j < |keys| ==> ret[j] == ByKey(history, keys[j]))
  }

  ghost predicate IsPartition(history: seq<KvOperation>, ret: seq<seq<KvOperation>>) {
    exists keys :: PartsOf(history, ret, keys)
  }

  // Where a key belongs among sorted ones; the library's sort ends in the same order.
  method PlaceFor(keys: seq<string>, key: string) returns (k: nat)
    ensures k <= |keys| && (forall j :: 0 <= j < k ==> Less(keys[j], key)) && (k < |keys| ==> !Less(keys[k], key))
  {
    k := 0;
    while k < |keys| && Less(keys[k], key)
      invariant k <= |keys| && forall j :: 0 <= j < k ==> Less(keys[j], key)
    {
      k := k + 1;
    }
  }

  lemma InsertAscends(keys: seq<string>, k: nat, key: string)
    requires Ascends(keys) && key !in keys && k <= |keys|
    requires (forall j :: 0 <= j < k ==> Less(keys[j], key)) && (k < |keys| ==> !Less(keys[k], key))
    ensures Ascends(keys[..k] + [key] + keys[k..])
  {
    forall j | k <= j < |keys|
      ensures Less(key, keys[j])
    {
      LessIsTotal(key, keys[k]);
      if k < j {
        LessIsTransitive(key, keys[k], keys[j]);
      }
    }
  }

  method SortedKeys(m: map<string, seq<KvOperation>>) returns (keys: seq<string>)
    ensures Ascends(keys) && forall key :: key in keys <==> key in m
  {
    keys := [];
    var left := m.Keys;
    while left != {}
      invariant left <= m.Keys && Ascends(keys)
      invariant forall key :: key in keys <==> key in m && key !in left
    {
      var key := Pick(left);
      var k := PlaceFor(keys, key);
      InsertAscends(keys, k, key);
      keys := keys[..k] + [key] + keys[k..];
      left := left - {key};
    }
  }

  method Partition(history: seq<KvOperation>) returns (ret: seq<seq<KvOperation>>)
    ensures IsPartition(history, ret)
  {
    var m := Group(history);
    var keys := SortedKeys(m);
    ret := [];
    for j := 0 to |keys|
      invariant |ret| == j && forall i :: 0 <= i < j ==> ret[i] == m[keys[i]]
    {
      ret := ret + [m[keys[j]]];
    }
    assert PartsOf(history, ret, keys);
  }

  lemma {:induction false} ByKeyUsed(ops: seq<KvOperation>, i: nat)
    requires i < |ops|
    ensures ByKey(ops, ops[i].input.key) != []
  {
    if i < |ops| - 1 {
      ByKeyUsed(ops[..|ops| - 1], i);
    }
  }

  // What Partition returns decides the whole history.
  lemma PartitionDecides(history: seq<KvOperation>, ret: seq<seq<KvOperation>>)
    requires Timely(history) && IsPartition(history, ret)
    ensures Linearizable(WholeStore(), history) <==> forall j :: 0 <= j < |ret| ==> Linearizable(OneValue(), ret[j])
  {
    SplitByKey(history);
    var keys :| PartsOf(history, ret, keys);
    if forall j :: 0 <= j < |ret| ==> Linearizable(OneValue(), ret[j]) {
      forall i | 0 <= i < |history| ensures Linearizable(OneValue(), ByKey(history, history[i].input.key)) {
        ByKeyUsed(history, i);
        var j :| 0 <= j < |keys| && keys[j] == history[i].input.key;
      }
    }
    if EveryKeyLinearizable(history) {
      forall j | 0 <= j < |ret| ensures Linearizable(OneValue(), ret[j]) {
        assert keys[j] in keys;
        ByKeyIsPart(history, keys[j]);
        var i := PlacesOf(history, keys[j])[0];
        assert history[i].input.key == keys[j];
      }
    }
  }
}

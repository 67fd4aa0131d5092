/**
 The data flow of a MapReduce job (src/mr/worker.go) and of the sequential program that
 specifies it (src/main/mrsequential.go): bucketing, sorting, grouping and reducing.
 */
module MapReduce {
  import opened Collections
  import opened FileNames
  import opened Strings

  datatype KeyValue = KeyValue(key: string, value: string)

  type Reducer = (string, seq<string>) -> string
  type Hash = string -> nat

  // ---------- What the output has to be ----------

  ghost predicate Enumerates<T>(s: seq<T>, all: set<T>) {
    Distinct(s) && all == set x | x in s
  }

  function KeysOf(kvs: seq<KeyValue>): set<string> {
    set kv | kv in kvs :: kv.key
  }

  function ValuesOf(kvs: seq<KeyValue>, key: string): seq<string> {
    if kvs == [] then []
    else
      var last := kvs[|kvs| - 1];
      ValuesOf(kvs[..|kvs| - 1], key) + if last.key == key then [last.value] else []
  }

  function LineFor(kvs: seq<KeyValue>, reduce: Reducer, key: string): string {
    key + " " + reduce(key, ValuesOf(kvs, key)) + "\n"
  }

  function Lines(keys: seq<string>, kvs: seq<KeyValue>, reduce: Reducer): (lines: seq<string>)
    ensures |lines| == |keys|
  {
    seq(|keys|, i requires 0 <= i < |keys| => LineFor(kvs, reduce, keys[i]))
  }

  // One line per distinct key, with the reduction of all its values.
  ghost predicate Reports(lines: seq<string>, kvs: seq<KeyValue>, reduce: Reducer) {
    exists keys :: Enumerates(keys, KeysOf(kvs)) && lines == Lines(keys, kvs, reduce)
  }

  // The same, with the keys in increasing order.
  ghost predicate ReportsInOrder(lines: seq<string>, kvs: seq<KeyValue>, reduce: Reducer) {
    exists keys :: Enumerates(keys, KeysOf(kvs)) && Ascends(keys) && lines == Lines(keys, kvs, reduce)
  }

  // The result does not depend on the order in which the values arrive.
  ghost predicate OrderFree(reduce: Reducer) {
    forall key, vs, ws :: multiset(vs) == multiset(ws) ==> reduce(key, vs) == reduce(key, ws)
  }

  // ---------- Sorting and grouping ----------

  predicate Ordered(kvs: seq<KeyValue>) {
    forall i, j :: 0 <= i < j < |kvs| ==> !Less(kvs[j].key, kvs[i].key)
  }

  // What the library sort leaves behind; it need not be stable.
  ghost predicate SortedFrom(sorted: seq<KeyValue>, kvs: seq<KeyValue>) {
    Ordered(sorted) && multiset(sorted) == multiset(kvs)
  }

  lemma Between(kvs: seq<KeyValue>, i: nat, j: nat, k: nat)
    requires Ordered(kvs) && i <= j <= k < |kvs| && kvs[i].key == kvs[k].key
    ensures kvs[j].key == kvs[i].key
  {
    LessIsTotal(kvs[j].key, kvs[i].key);
  }

  lemma {:induction false} ValuesOfConcat(a: seq<KeyValue>, b: seq<KeyValue>, key: string)
    ensures ValuesOf(a + b, key) == ValuesOf(a, key) + ValuesOf(b, key)
  {
    if b == [] {
      assert a + b == a;
    } else {
      assert (a + b)[..|a + b| - 1] == a + b[..|b| - 1];
      ValuesOfConcat(a, b[..|b| - 1], key);
    }
  }

  lemma {:induction false} NoValues(kvs: seq<KeyValue>, key: string)
    requires forall i :: 0 <= i < |kvs| ==> kvs[i].key != key
    ensures ValuesOf(kvs, key) == []
  {
    if kvs != [] {
      NoValues(kvs[..|kvs| - 1], key);
    }
  }

  // The group [i, j) is all of its key ...
  lemma RunIsAll(kvs: seq<KeyValue>, i: nat, j: nat, k: nat)
    requires Ordered(kvs) && i < j <= |kvs| && k < |kvs| && !(i <= k < j)
    requires kvs[j - 1].key == kvs[i].key
    requires i > 0 ==> kvs[i - 1].key != kvs[i].key
    requires j < |kvs| ==> kvs[j].key != kvs[i].key
    ensures kvs[k].key != kvs[i].key
  {
    if kvs[k].key == kvs[i].key {
      if k < i {
        Between(kvs, k, i - 1, i);
      } else {
        Between(kvs, i, j, k);
      }
    }
  }

  // ... so it holds every value, in order.
  lemma RunHasTheValues(kvs: seq<KeyValue>, i: nat, j: nat, key: string)
    requires i < j <= |kvs|
    requires forall k :: 0 <= k < i ==> kvs[k].key != key
    requires forall k :: j <= k < |kvs| ==> kvs[k].key != key
    ensures ValuesOf(kvs, key) == ValuesOf(kvs[i..j], key)
  {
    NoValues(kvs[..i], key);
    NoValues(kvs[j..], key);
    ValuesOfConcat(kvs[..i], kvs[i..j], key);
    ValuesOfConcat(kvs[..i] + kvs[i..j], kvs[j..], key);
    assert kvs[..i] + kvs[i..j] + kvs[j..] == kvs;
  }

  method CollectValues(kvs: seq<KeyValue>, i: nat, j: nat) returns (values: seq<string>)
    requires i < j <= |kvs| && forall k :: i <= k < j ==> kvs[k].key == kvs[i].key
    ensures values == ValuesOf(kvs[i..j], kvs[i].key)
  {
    values := [];
    assert kvs[i..i] == [];
    for k := i to j
      invariant values == ValuesOf(kvs[i..k], kvs[i].key)
    {
      values := values + [kvs[k].value];
      assert kvs[i..k + 1][..k - i] == kvs[i..k];
    }
  }

  // The two-pointer loop shared by the reduce task and the sequential program.
  method ReduceGroups(sorted: seq<KeyValue>, reduce: Reducer) returns (lines: seq<string>)
    requires Ordered(sorted)
    ensures ReportsInOrder(lines, sorted, reduce) && Reports(lines, sorted, reduce)
  {
    lines := [];
    ghost var keys: seq<string> := [];
    var i := 0;
    while i < |sorted|
      invariant 0 <= i <= |sorted|
      invariant 0 < i < |sorted| ==> sorted[i - 1].key != sorted[i].key
      invariant Enumerates(keys, KeysOf(sorted[..i])) && lines == Lines(keys, sorted, reduce)
      invariant Ascends(keys)
    {
      var j := i + 1;
      while j < |sorted| && sorted[j].key == sorted[i].key
        invariant i < j <= |sorted|
        invariant forall k :: i <= k < j ==> sorted[k].key == sorted[i].key
      {
        j := j + 1;
      }
      var values := CollectValues(sorted, i, j);
      var output := reduce(sorted[i].key, values);
      GroupValues(sorted, i, j);
      GroupKeys(sorted, i, j, keys);
      lines := lines + [sorted[i].key + " " + output + "\n"];
      keys := keys + [sorted[i].key];
      i := j;
    }
    assert sorted[..|sorted|] == sorted;
  }

  // Where a group starts and ends.
  ghost predicate IsGroup(sorted: seq<KeyValue>, i: nat, j: nat) {
    && i < j <= |sorted|
    && (forall k :: i <= k < j ==> sorted[k].key == sorted[i].key)
    && (i > 0 ==> sorted[i - 1].key != sorted[i].key)
    && (j < |sorted| ==> sorted[j].key != sorted[i].key)
  }

  lemma GroupValues(sorted: seq<KeyValue>, i: nat, j: nat)
    requires Ordered(sorted) && IsGroup(sorted, i, j)
    ensures ValuesOf(sorted, sorted[i].key) == ValuesOf(sorted[i..j], sorted[i].key)
    ensures forall k :: 0 <= k < i ==> sorted[k].key != sorted[i].key
  {
    forall k | 0 <= k < |sorted| && !(i <= k < j)
      ensures sorted[k].key != sorted[i].key
    {
      RunIsAll(sorted, i, j, k);
    }
    RunHasTheValues(sorted, i, j, sorted[i].key);
  }

  lemma GroupKeys(sorted: seq<KeyValue>, i: nat, j: nat, keys: seq<string>)
    requires Ordered(sorted) && IsGroup(sorted, i, j)
    requires forall k :: 0 <= k < i ==> sorted[k].key != sorted[i].key
    requires Enumerates(keys, KeysOf(sorted[..i]))
    ensures Enumerates(keys + [sorted[i].key], KeysOf(sorted[..j]))
    ensures forall a :: 0 <= a < |keys| ==> Less(keys[a], sorted[i].key)
  {
    var key := sorted[i].key;
    forall a | 0 <= a < |keys|
      ensures Less(keys[a], key) && keys[a] != key
    {
      assert keys[a] in keys;
      KeyIsBefore(sorted, i, keys[a]);
    }
    KeysOfRun(sorted, i, j);
    OneMore(keys, key, KeysOf(sorted[..i]));
  }

  lemma OneMore<T>(s: seq<T>, x: T, all: set<T>)
    requires Enumerates(s, all) && x !in s
    ensures Enumerates(s + [x], all + {x})
  {
    assert forall y :: y in s + [x] <==> y in s || y == x;
  }

  lemma KeyIsBefore(sorted: seq<KeyValue>, i: nat, key: string)
    requires Ordered(sorted) && i < |sorted| && key in KeysOf(sorted[..i])
    requires forall k :: 0 <= k < i ==> sorted[k].key != sorted[i].key
    ensures key != sorted[i].key && Less(key, sorted[i].key)
  {
    var k :| 0 <= k < i && sorted[..i][k].key == key;
    LessIsTotal(key, sorted[i].key);
  }

  lemma KeysOfRun(kvs: seq<KeyValue>, i: nat, j: nat)
    requires i < j <= |kvs| && forall k :: i <= k < j ==> kvs[k].key == kvs[i].key
    ensures KeysOf(kvs[..j]) == KeysOf(kvs[..i]) + {kvs[i].key}
  {
    forall key | key in KeysOf(kvs[..j])
      ensures key in KeysOf(kvs[..i]) + {kvs[i].key}
    {
      var k :| 0 <= k < j && kvs[..j][k].key == key;
      if k < i {
        assert kvs[..i][k] in kvs[..i];
      }
    }
    forall key | key in KeysOf(kvs[..i]) + {kvs[i].key}
      ensures key in KeysOf(kvs[..j])
    {
      if key == kvs[i].key {
        assert kvs[..j][i] in kvs[..j];
      } else {
        var k :| 0 <= k < i && kvs[..i][k].key == key;
        assert kvs[..j][k] in kvs[..j];
      }
    }
  }

  // ---------- Bucketing ----------

  function InBucket(kvs: seq<KeyValue>, hash: Hash, n: nat, b: nat): seq<KeyValue>
    requires n > 0
  {
    if kvs == [] then []
    else
      var last := kvs[|kvs| - 1];
      InBucket(kvs[..|kvs| - 1], hash, n, b) + if hash(last.key) % n == b then [last] else []
  }

  function Buckets(kvs: seq<KeyValue>, hash: Hash, n: nat): set<nat>
    requires n > 0
  {
    set kv | kv in kvs :: hash(kv.key) % n
  }

  // Files named after the task and the bucket, one for each bucket that gets a pair.
  ghost predicate Spread(names: seq<string>, files: map<string, seq<KeyValue>>,
                         kvs: seq<KeyValue>, task: nat, hash: Hash, n: nat)
    requires n > 0
  {
    && Distinct(names)
    && (forall name :: name in names <==> name in files)
    && (forall name :: name in files <==> HasBucket(name, kvs, task, hash, n))
    && (forall b: nat :: Name(task, b) in files ==> files[Name(task, b)] == InBucket(kvs, hash, n, b))
  }

  lemma {:induction false} EmptyBucket(kvs: seq<KeyValue>, hash: Hash, n: nat, b: nat)
    requires n > 0
    ensures InBucket(kvs, hash, n, b) == [] <==> b !in Buckets(kvs, hash, n)
  {
    if kvs != [] {
      var rest := kvs[..|kvs| - 1];
      EmptyBucket(rest, hash, n, b);
      assert kvs == rest + [kvs[|kvs| - 1]];
    }
  }

  // One more pair: its bucket is there, and only that bucket's file is longer.
  lemma BucketsMore(kvs: seq<KeyValue>, kv: KeyValue, hash: Hash, n: nat)
    requires n > 0
    ensures Buckets(kvs + [kv], hash, n) == Buckets(kvs, hash, n) + {hash(kv.key) % n}
  {
  }

  lemma InBucketMore(kvs: seq<KeyValue>, kv: KeyValue, hash: Hash, n: nat, b: nat)
    requires n > 0
    ensures InBucket(kvs + [kv], hash, n, b) == InBucket(kvs, hash, n, b) + if hash(kv.key) % n == b then [kv] else []
  {
    assert (kvs + [kv])[..|kvs|] == kvs;
  }

  ghost predicate HasBucket(name: string, kvs: seq<KeyValue>, task: nat, hash: Hash, n: nat)
    requires n > 0
  {
    exists b: nat :: b in Buckets(kvs, hash, n) && name == Name(task, b)
  }

  lemma HasBucketMore(name: string, kvs: seq<KeyValue>, kv: KeyValue, task: nat, hash: Hash, n: nat)
    requires n > 0
    ensures HasBucket(name, kvs + [kv], task, hash, n) <==>
            HasBucket(name, kvs, task, hash, n) || name == Name(task, hash(kv.key) % n)
  {
    BucketsMore(kvs, kv, hash, n);
  }

  lemma FileMore(files: map<string, seq<KeyValue>>, files': map<string, seq<KeyValue>>, kvs: seq<KeyValue>,
                 kv: KeyValue,
                 task: nat, hash: Hash, n: nat, b: nat)
    requires n > 0 && Name(task, b) in files'
    requires Name(task, b) in files <==> HasBucket(Name(task, b), kvs, task, hash, n)
    requires Name(task, b) in files ==> files[Name(task, b)] == InBucket(kvs, hash, n, b)
    requires var name := Name(task, hash(kv.key) % n);
             files' == files[name := (if name in files then files[name] else []) + [kv]]
    ensures files'[Name(task, b)] == InBucket(kvs + [kv], hash, n, b)
  {
    InBucketMore(kvs, kv, hash, n, b);
    if Name(task, b) == Name(task, hash(kv.key) % n) {
      NameIsInjective(task, b, task, hash(kv.key) % n);
    }
    EmptyBucket(kvs, hash, n, b);
  }

  lemma SpreadOne(names: seq<string>, files: map<string, seq<KeyValue>>, kvs: seq<KeyValue>, kv: KeyValue,
                  task: nat, hash: Hash, n: nat, names': seq<string>, files': map<string, seq<KeyValue>>)
    requires n > 0 && Spread(names, files, kvs, task, hash, n)
    requires var name := Name(task, hash(kv.key) % n);
             && names' == (if name in files then names else names + [name])
             && files' == files[name := (if name in files then files[name] else []) + [kv]]
    ensures Spread(names', files', kvs + [kv], task, hash, n)
  {
    forall other
      ensures other in files' <==> HasBucket(other, kvs + [kv], task, hash, n)
    {
      HasBucketMore(other, kvs, kv, task, hash, n);
    }
    forall b: nat | Name(task, b) in files'
      ensures files'[Name(task, b)] == InBucket(kvs + [kv], hash, n, b)
    {
      FileMore(files, files', kvs, kv, task, hash, n, b);
    }
  }

  lemma SpreadNone(task: nat, hash: Hash, n: nat)
    requires n > 0
    ensures Spread([], map[], [], task, hash, n)
  {
  }

  // A file is created when its first pair arrives.
  method WritePair(names: seq<string>, files: map<string, seq<KeyValue>>, ghost kvs: seq<KeyValue>, kv: KeyValue,
                   task: nat, hash: Hash, n: nat, ghost more: seq<KeyValue>)
    returns (names': seq<string>, files': map<string, seq<KeyValue>>)
    requires n > 0 && Spread(names, files, kvs, task, hash, n) && more == kvs + [kv]
    ensures Spread(names', files', more, task, hash, n)
  {
    names', files' := names, files;
    var name := Name(task, hash(kv.key) % n);
    if name !in files' {
      files' := files'[name := []];
      names' := names' + [name];
    }
    files' := files'[name := files'[name] + [kv]];
    SpreadOne(names, files, kvs, kv, task, hash, n, names', files');
  }

  // The map task's loop over the pairs it produced.
  method WriteBuckets(kvs: seq<KeyValue>, task: nat, hash: Hash, n: nat)
    returns (names: seq<string>, files: map<string, seq<KeyValue>>)
    requires n > 0
    ensures Spread(names, files, kvs, task, hash, n)
  {
    names, files := [], map[];
    SpreadNone(task, hash, n);
    assert kvs[..0] == [];
    for i := 0 to |kvs|
      invariant Spread(names, files, kvs[..i], task, hash, n)
    {
      names, files := WritePair(names, files, kvs[..i], kvs[i], task, hash, n, kvs[..i + 1]);
    }
    assert kvs[..|kvs|] == kvs;
  }
}

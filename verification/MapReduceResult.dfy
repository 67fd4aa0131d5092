/**
 Why splitting the work changes nothing: the lines of all reduce tasks together are those of
 the sequential program (src/mr/worker.go, src/main/mrsequential.go).
 */
module MapReduceResult {
  import opened Collections
  import opened FileNames
  import opened MapReduce
  import opened Strings

  function Flatten<T>(parts: seq<seq<T>>): seq<T> {
    if parts == [] then [] else Flatten(parts[..|parts| - 1]) + parts[|parts| - 1]
  }

  // The contents of the listed files, one after the other.
  function ReadAll(names: seq<string>, disk: map<string, seq<KeyValue>>): seq<KeyValue>
    requires forall name :: name in names ==> name in disk
  {
    if names == [] then [] else ReadAll(names[..|names| - 1], disk) + disk[names[|names| - 1]]
  }

  // The reduce task's reading loop; a missing file ends the worker.
  method ReadFiles(names: seq<string>, disk: map<string, seq<KeyValue>>) returns (r: Option<seq<KeyValue>>)
    ensures r.None? <==> exists name :: name in names && name !in disk
    ensures r.Some? ==> r.value == ReadAll(names, disk)
  {
    var kva: seq<KeyValue> := [];
    for i := 0 to |names|
      invariant forall name :: name in names[..i] ==> name in disk
      invariant kva == ReadAll(names[..i], disk)
    {
      if names[i] !in disk {
        return None;
      }
      kva := kva + disk[names[i]];
      assert names[..i + 1][..i] == names[..i];
    }
    assert names[..|names|] == names;
    return Some(kva);
  }

  // What a reduce task may write, given its file list, and what the sequential program may.
  ghost predicate ReduceWrites(out: seq<string>, names: seq<string>, disk: map<string, seq<KeyValue>>,
                               reduce: Reducer) {
    && (forall name :: name in names ==> name in disk)
    && exists sorted :: SortedFrom(sorted, ReadAll(names, disk)) && Reports(out, sorted, reduce)
  }

  ghost predicate SequentialWrites(out: seq<string>, runs: seq<seq<KeyValue>>, reduce: Reducer) {
    exists sorted :: SortedFrom(sorted, Flatten(runs)) && Reports(out, sorted, reduce)
  }

  // ---------- Only the multiset of pairs matters ----------

  lemma {:induction false} ValueCount(kvs: seq<KeyValue>, key: string, v: string)
    ensures multiset(ValuesOf(kvs, key))[v] == multiset(kvs)[KeyValue(key, v)]
  {
    if kvs != [] {
      var rest := kvs[..|kvs| - 1];
      ValueCount(rest, key, v);
      assert kvs == rest + [kvs[|kvs| - 1]];
    }
  }

  lemma SameValues(a: seq<KeyValue>, b: seq<KeyValue>, key: string)
    requires multiset(a) == multiset(b)
    ensures multiset(ValuesOf(a, key)) == multiset(ValuesOf(b, key))
  {
    forall v
      ensures multiset(ValuesOf(a, key))[v] == multiset(ValuesOf(b, key))[v]
    {
      ValueCount(a, key, v);
      ValueCount(b, key, v);
    }
  }

  lemma SameLines(a: seq<KeyValue>, b: seq<KeyValue>, reduce: Reducer, keys: seq<string>)
    requires OrderFree(reduce)
    requires forall key :: key in keys ==> multiset(ValuesOf(a, key)) == multiset(ValuesOf(b, key))
    ensures Lines(keys, a, reduce) == Lines(keys, b, reduce)
  {
    forall i | 0 <= i < |keys|
      ensures LineFor(a, reduce, keys[i]) == LineFor(b, reduce, keys[i])
    {
      assert keys[i] in keys;
    }
  }

  lemma SameKeys(a: seq<KeyValue>, b: seq<KeyValue>)
    requires multiset(a) == multiset(b)
    ensures KeysOf(a) == KeysOf(b)
  {
    assert forall kv :: kv in a <==> kv in multiset(a);
    assert forall kv :: kv in b <==> kv in multiset(b);
  }

  // ---------- One bucket ----------

  function KeysIn(kvs: seq<KeyValue>, hash: Hash, n: nat, b: nat): set<string>
    requires n > 0
  {
    set key | key in KeysOf(kvs) && hash(key) % n == b
  }

  lemma {:induction false} BucketValues(kvs: seq<KeyValue>, hash: Hash, n: nat, key: string)
    requires n > 0
    ensures ValuesOf(InBucket(kvs, hash, n, hash(key) % n), key) == ValuesOf(kvs, key)
  {
    if kvs != [] {
      var rest, last := kvs[..|kvs| - 1], kvs[|kvs| - 1];
      var mine := InBucket(rest, hash, n, hash(key) % n);
      BucketValues(rest, hash, n, key);
      if hash(last.key) % n == hash(key) % n {
        assert (mine + [last])[..|mine|] == mine;
      } else {
        assert mine + [] == mine && last.key != key;
      }
    }
  }

  lemma {:induction false} BucketMembers(kvs: seq<KeyValue>, hash: Hash, n: nat, b: nat, kv: KeyValue)
    requires n > 0
    ensures kv in InBucket(kvs, hash, n, b) <==> kv in kvs && hash(kv.key) % n == b
  {
    if kvs != [] {
      var rest := kvs[..|kvs| - 1];
      BucketMembers(rest, hash, n, b, kv);
      assert kvs == rest + [kvs[|kvs| - 1]];
    }
  }

  lemma BucketKeys(kvs: seq<KeyValue>, hash: Hash, n: nat, b: nat)
    requires n > 0
    ensures KeysOf(InBucket(kvs, hash, n, b)) == KeysIn(kvs, hash, n, b)
  {
    var mine := InBucket(kvs, hash, n, b);
    forall key | key in KeysOf(mine)
      ensures key in KeysIn(kvs, hash, n, b)
    {
      var kv :| kv in mine && kv.key == key;
      BucketMembers(kvs, hash, n, b, kv);
    }
    forall key | key in KeysIn(kvs, hash, n, b)
      ensures key in KeysOf(mine)
    {
      var kv :| kv in kvs && kv.key == key;
      BucketMembers(kvs, hash, n, b, kv);
    }
  }

  // The output reports on the pairs of the bucket, read in some order.
  ghost predicate FedBy(out: seq<string>, input: seq<KeyValue>, all: seq<KeyValue>, hash: Hash, n: nat, b: nat,
                        reduce: Reducer)
    requires n > 0
  {
    Reports(out, input, reduce) && multiset(input) == multiset(InBucket(all, hash, n, b))
  }

  // A reduce task over the pairs of its bucket, in any order, writes the lines of its keys.
  lemma OneBucket(out: seq<string>, input: seq<KeyValue>, all: seq<KeyValue>, hash: Hash, n: nat, b: nat,
                  reduce: Reducer)
    returns (keys: seq<string>)
    requires n > 0 && OrderFree(reduce) && FedBy(out, input, all, hash, n, b, reduce)
    ensures Enumerates(keys, KeysIn(all, hash, n, b)) && out == Lines(keys, all, reduce)
  {
    keys :| Enumerates(keys, KeysOf(input)) && out == Lines(keys, input, reduce);
    var mine := InBucket(all, hash, n, b);
    SameKeys(input, mine);
    BucketKeys(all, hash, n, b);
    forall key | key in keys
      ensures multiset(ValuesOf(input, key)) == multiset(ValuesOf(all, key))
    {
      assert key in KeysIn(all, hash, n, b);
      SameValues(input, mine, key);
      BucketValues(all, hash, n, key);
    }
    SameLines(input, all, reduce, keys);
  }

  // ---------- All buckets ----------

  function KeysOver(kvs: seq<KeyValue>, hash: Hash, n: nat, buckets: seq<nat>): set<string>
    requires n > 0
  {
    set key | key in KeysOf(kvs) && hash(key) % n in buckets
  }

  lemma Join(a: seq<string>, b: seq<string>, all: seq<KeyValue>, reduce: Reducer)
    ensures Lines(a + b, all, reduce) == Lines(a, all, reduce) + Lines(b, all, reduce)
  {
  }

  lemma JoinEnumerations<T>(a: seq<T>, b: seq<T>, s: set<T>, t: set<T>)
    requires Enumerates(a, s) && Enumerates(b, t) && s !! t
    ensures Enumerates(a + b, s + t)
  {
    forall i, j | 0 <= i < j < |a + b|
      ensures (a + b)[i] != (a + b)[j]
    {
      if i < |a| <= j {
        assert a[i] in s && b[j - |a|] in t;
      }
    }
    assert forall x :: x in a + b <==> x in a || x in b;
  }

  lemma OneMoreBucket(kvs: seq<KeyValue>, hash: Hash, n: nat, buckets: seq<nat>)
    requires n > 0 && |buckets| > 0 && Distinct(buckets)
    ensures var m := |buckets| - 1;
            && KeysOver(kvs, hash, n, buckets)
              == KeysOver(kvs, hash, n, buckets[..m]) + KeysIn(kvs, hash, n, buckets[m])
            && KeysOver(kvs, hash, n, buckets[..m]) !! KeysIn(kvs, hash, n, buckets[m])
  {
    var m := |buckets| - 1;
    assert buckets == buckets[..m] + [buckets[m]];
    assert buckets[m] !in buckets[..m];
  }

  lemma {:induction false} AllBuckets(outs: seq<seq<string>>, inputs: seq<seq<KeyValue>>, buckets: seq<nat>,
                                      all: seq<KeyValue>, hash: Hash, n: nat, reduce: Reducer)
    returns (keys: seq<string>)
    requires n > 0 && OrderFree(reduce) && |outs| == |inputs| == |buckets|
    requires Distinct(buckets)
    requires forall i :: 0 <= i < |outs| ==> FedBy(outs[i], inputs[i], all, hash, n, buckets[i], reduce)
    ensures Enumerates(keys, KeysOver(all, hash, n, buckets))
    ensures Flatten(outs) == Lines(keys, all, reduce)
    decreases |outs|
  {
    if outs == [] {
      keys := [];
    } else {
      var m := |outs| - 1;
      var front := AllBuckets(outs[..m], inputs[..m], buckets[..m], all, hash, n, reduce);
      var mine := OneBucket(outs[m], inputs[m], all, hash, n, buckets[m], reduce);
      keys := front + mine;
      Join(front, mine, all, reduce);
      OneMoreBucket(all, hash, n, buckets);
      JoinEnumerations(front, mine, KeysOver(all, hash, n, buckets[..m]), KeysIn(all, hash, n, buckets[m]));
    }
  }

  // ---------- Two enumerations of the same keys ----------

  lemma EnumerationIsTheSet<T>(s: seq<T>, all: set<T>)
    requires Enumerates(s, all)
    ensures multiset(s) == multiset(all)
  {
    forall x
      ensures multiset(s)[x] == multiset(all)[x]
    {
      OnceOrNever(s, x);
    }
  }

  lemma Without<T>(s: seq<T>, i: nat, rest: seq<T>)
    requires i < |s| && rest == s[..i] + s[i + 1..]
    ensures multiset(s) == multiset(rest) + multiset{s[i]}
  {
    assert s == s[..i] + [s[i]] + s[i + 1..];
  }

  lemma LinesWithout(keys: seq<string>, i: nat, rest: seq<string>, all: seq<KeyValue>, reduce: Reducer)
    requires i < |keys| && rest == keys[..i] + keys[i + 1..]
    ensures multiset(Lines(keys, all, reduce))
            == multiset(Lines(rest, all, reduce)) + multiset{LineFor(all, reduce, keys[i])}
  {
    var lines, fewer := Lines(keys, all, reduce), Lines(rest, all, reduce);
    assert fewer == lines[..i] + lines[i + 1..];
    Without(lines, i, fewer);
  }

  lemma Cancel<T>(a: multiset<T>, b: multiset<T>, c: multiset<T>)
    requires a + c == b + c
    ensures a == b
  {
    forall x
      ensures a[x] == b[x]
    {
      assert (a + c)[x] == (b + c)[x];
    }
  }

  lemma {:induction false} SameLineBags(a: seq<string>, b: seq<string>, all: seq<KeyValue>, reduce: Reducer)
    requires multiset(a) == multiset(b)
    ensures multiset(Lines(a, all, reduce)) == multiset(Lines(b, all, reduce))
    decreases |a|
  {
    if a == [] {
      assert |multiset(b)| == 0;
      assert b == [];
    } else {
      assert a[0] in multiset(b);
      var i :| 0 <= i < |b| && b[i] == a[0];
      var front, rest := a[..0] + a[1..], b[..i] + b[i + 1..];
      Without(a, 0, front);
      Without(b, i, rest);
      Cancel(multiset(front), multiset(rest), multiset{a[0]});
      SameLineBags(front, rest, all, reduce);
      LinesWithout(a, 0, front, all, reduce);
      LinesWithout(b, i, rest, all, reduce);
    }
  }

  // ---------- The input of a reduce task ----------

  function Spreads(runs: seq<seq<KeyValue>>, hash: Hash, n: nat, b: nat): (parts: seq<seq<KeyValue>>)
    requires n > 0
    ensures |parts| == |runs|
  {
    seq(|runs|, i requires 0 <= i < |runs| => InBucket(runs[i], hash, n, b))
  }

  lemma {:induction false} BucketOfConcat(a: seq<KeyValue>, c: seq<KeyValue>, hash: Hash, n: nat, b: nat)
    requires n > 0
    ensures InBucket(a + c, hash, n, b) == InBucket(a, hash, n, b) + InBucket(c, hash, n, b)
  {
    if c == [] {
      assert a + c == a;
    } else {
      assert (a + c)[..|a + c| - 1] == a + c[..|c| - 1];
      BucketOfConcat(a, c[..|c| - 1], hash, n, b);
    }
  }

  lemma {:induction false} BucketOfAll(runs: seq<seq<KeyValue>>, hash: Hash, n: nat, b: nat)
    requires n > 0
    ensures InBucket(Flatten(runs), hash, n, b) == Flatten(Spreads(runs, hash, n, b))
  {
    if runs != [] {
      var m := |runs| - 1;
      BucketOfAll(runs[..m], hash, n, b);
      BucketOfConcat(Flatten(runs[..m]), runs[m], hash, n, b);
      assert Spreads(runs, hash, n, b)[..m] == Spreads(runs[..m], hash, n, b);
    }
  }

  predicate AllBelow(order: seq<nat>, m: nat) {
    forall p :: 0 <= p < |order| ==> order[p] < m
  }

  function Gather(order: seq<nat>, parts: seq<seq<KeyValue>>): seq<KeyValue>
    requires AllBelow(order, |parts|)
  {
    if order == [] then [] else Gather(order[..|order| - 1], parts) + parts[order[|order| - 1]]
  }

  lemma {:induction false} GatherSplit(a: seq<nat>, c: seq<nat>, parts: seq<seq<KeyValue>>)
    requires AllBelow(a, |parts|) && AllBelow(c, |parts|)
    ensures Gather(a + c, parts) == Gather(a, parts) + Gather(c, parts)
  {
    if c == [] {
      assert a + c == a;
    } else {
      assert (a + c)[..|a + c| - 1] == a + c[..|c| - 1];
      GatherSplit(a, c[..|c| - 1], parts);
    }
  }

  lemma {:induction false} GatherFewer(order: seq<nat>, parts: seq<seq<KeyValue>>, m: nat)
    requires m <= |parts| && AllBelow(order, m)
    ensures Gather(order, parts) == Gather(order, parts[..m])
  {
    if order != [] {
      GatherFewer(order[..|order| - 1], parts, m);
    }
  }

  lemma GatherWithout(order: seq<nat>, p: nat, parts: seq<seq<KeyValue>>)
    requires p < |order| && AllBelow(order, |parts|)
    ensures multiset(Gather(order, parts))
            == multiset(Gather(order[..p] + order[p + 1..], parts)) + multiset(parts[order[p]])
  {
    var a, c := order[..p], order[p + 1..];
    assert order == a + [order[p]] + c;
    GatherSplit(a, [order[p]], parts);
    GatherSplit(a + [order[p]], c, parts);
    GatherSplit(a, c, parts);
    assert Gather([order[p]], parts) == parts[order[p]] by {
      assert [order[p]][..0] == [];
    }
  }

  // Every part that is not listed is empty.
  ghost predicate Covers(order: seq<nat>, parts: seq<seq<KeyValue>>) {
    forall i: nat :: i < |parts| && i !in order ==> parts[i] == []
  }

  // Reading every non-empty part once, in whatever order, reads everything.
  lemma {:induction false} GatherIsAll(order: seq<nat>, parts: seq<seq<KeyValue>>)
    requires Distinct(order) && AllBelow(order, |parts|) && Covers(order, parts)
    ensures multiset(Gather(order, parts)) == multiset(Flatten(parts))
    decreases |parts|
  {
    if parts != [] {
      var m: nat := |parts| - 1;
      if p: nat :| p < |order| && order[p] == m {
        var rest := order[..p] + order[p + 1..];
        GatherWithout(order, p, parts);
        StillCovers(order, p, parts);
        GatherFewer(rest, parts, m);
        GatherIsAll(rest, parts[..m]);
      } else {
        assert parts[m] == [];
        GatherFewer(order, parts, m);
        GatherIsAll(order, parts[..m]);
      }
    }
  }

  lemma StillCovers(order: seq<nat>, p: nat, parts: seq<seq<KeyValue>>)
    requires Distinct(order) && AllBelow(order, |parts|) && Covers(order, parts)
    requires p < |order| && order[p] == |parts| - 1
    ensures var rest := order[..p] + order[p + 1..];
            Distinct(rest) && AllBelow(rest, |parts| - 1) && Covers(rest, parts[..|parts| - 1])
  {
    var rest := order[..p] + order[p + 1..];
    assert forall k :: 0 <= k < |rest| ==> rest[k] == order[if k < p then k else k + 1];
    forall i: nat | i in order && i != order[p]
      ensures i in rest
    {
      var k :| 0 <= k < |order| && order[k] == i;
      assert rest[if k < p then k else k - 1] == i;
    }
  }

  // ---------- The whole job ----------

  // Each intermediate file of the bucket holds all that its map task has for it.
  ghost predicate Complete(disk: map<string, seq<KeyValue>>, runs: seq<seq<KeyValue>>, hash: Hash, n: nat, b: nat)
    requires n > 0
  {
    forall i: nat :: i < |runs| && b in Buckets(runs[i], hash, n) ==>
      Name(i, b) in disk && disk[Name(i, b)] == InBucket(runs[i], hash, n, b)
  }

  // The list names, once each, the files that the map tasks have for the bucket.
  ghost predicate Lists(order: seq<nat>, runs: seq<seq<KeyValue>>, hash: Hash, n: nat, b: nat)
    requires n > 0
  {
    && Distinct(order)
    && AllBelow(order, |runs|)
    && forall i: nat :: i < |runs| ==> (i in order <==> b in Buckets(runs[i], hash, n))
  }

  lemma {:induction false} ReadIsGather(order: seq<nat>, b: nat, disk: map<string, seq<KeyValue>>,
                                        parts: seq<seq<KeyValue>>)
    requires AllBelow(order, |parts|)
    requires forall k :: 0 <= k < |order| ==> Name(order[k], b) in disk && disk[Name(order[k], b)] == parts[order[k]]
    ensures forall name :: name in Named(order, b) ==> name in disk
    ensures ReadAll(Named(order, b), disk) == Gather(order, parts)
  {
    if order != [] {
      var m := |order| - 1;
      ReadIsGather(order[..m], b, disk, parts);
      assert Named(order, b)[..m] == Named(order[..m], b);
    }
  }

  lemma ReduceInput(order: seq<nat>, b: nat, runs: seq<seq<KeyValue>>, disk: map<string, seq<KeyValue>>, hash: Hash,
                    n: nat)
    requires n > 0 && Complete(disk, runs, hash, n, b) && Lists(order, runs, hash, n, b)
    ensures forall name :: name in Named(order, b) ==> name in disk
    ensures multiset(ReadAll(Named(order, b), disk)) == multiset(InBucket(Flatten(runs), hash, n, b))
  {
    var parts := Spreads(runs, hash, n, b);
    forall k | 0 <= k < |order|
      ensures Name(order[k], b) in disk && disk[Name(order[k], b)] == parts[order[k]]
    {
      assert order[k] in order;
    }
    ReadIsGather(order, b, disk, parts);
    forall i: nat | i < |parts| && i !in order
      ensures parts[i] == []
    {
      EmptyBucket(runs[i], hash, n, b);
    }
    GatherIsAll(order, parts);
    BucketOfAll(runs, hash, n, b);
  }

  // What one reduce task of the job wrote.
  ghost predicate Written(out: seq<string>, b: nat, runs: seq<seq<KeyValue>>, disk: map<string, seq<KeyValue>>,
                          hash: Hash, n: nat, reduce: Reducer)
    requires n > 0
  {
    exists order :: Lists(order, runs, hash, n, b) && ReduceWrites(out, Named(order, b), disk, reduce)
  }

  lemma WrittenIsReport(out: seq<string>, b: nat, runs: seq<seq<KeyValue>>, disk: map<string, seq<KeyValue>>,
                        hash: Hash, n: nat, reduce: Reducer) returns (input: seq<KeyValue>)
    requires n > 0 && Complete(disk, runs, hash, n, b) && Written(out, b, runs, disk, hash, n, reduce)
    ensures FedBy(out, input, Flatten(runs), hash, n, b, reduce)
  {
    var order :| Lists(order, runs, hash, n, b) && ReduceWrites(out, Named(order, b), disk, reduce);
    ReduceInput(order, b, runs, disk, hash, n);
    input :| SortedFrom(input, ReadAll(Named(order, b), disk)) && Reports(out, input, reduce);
  }

  lemma {:induction false} AllWritten(outs: seq<seq<string>>, buckets: seq<nat>, runs: seq<seq<KeyValue>>,
                                      disks: seq<map<string, seq<KeyValue>>>, hash: Hash, n: nat, reduce: Reducer)
    returns (inputs: seq<seq<KeyValue>>)
    requires n > 0 && |outs| == |buckets| == |disks|
    requires forall i :: 0 <= i < |outs| ==> Complete(disks[i], runs, hash, n, buckets[i])
    requires forall i :: 0 <= i < |outs| ==> Written(outs[i], buckets[i], runs, disks[i], hash, n, reduce)
    ensures |inputs| == |outs|
    ensures forall i :: 0 <= i < |outs| ==> FedBy(outs[i], inputs[i], Flatten(runs), hash, n, buckets[i], reduce)
    decreases |outs|
  {
    if outs == [] {
      inputs := [];
    } else {
      var m := |outs| - 1;
      var front := AllWritten(outs[..m], buckets[..m], runs, disks[..m], hash, n, reduce);
      var last := WrittenIsReport(outs[m], buckets[m], runs, disks[m], hash, n, reduce);
      inputs := front + [last];
    }
  }

  // The lines of all reduce tasks together are, as a multiset, those of the sequential program, if
  // each found its own files complete; what the others found does not matter.
  lemma JobIsSequential(outs: seq<seq<string>>, buckets: seq<nat>, runs: seq<seq<KeyValue>>,
                        disks: seq<map<string, seq<KeyValue>>>, hash: Hash, n: nat, reduce: Reducer,
                        lines: seq<string>)
    requires n > 0 && OrderFree(reduce)
    requires |outs| == |buckets| == |disks| && Enumerates(buckets, Buckets(Flatten(runs), hash, n))
    requires forall i :: 0 <= i < |outs| ==> Complete(disks[i], runs, hash, n, buckets[i])
    requires forall i :: 0 <= i < |outs| ==> Written(outs[i], buckets[i], runs, disks[i], hash, n, reduce)
    requires SequentialWrites(lines, runs, reduce)
    ensures multiset(Flatten(outs)) == multiset(lines)
  {
    var all := Flatten(runs);
    var inputs := AllWritten(outs, buckets, runs, disks, hash, n, reduce);
    var keys := AllBuckets(outs, inputs, buckets, all, hash, n, reduce);
    AllKeysAreIn(all, hash, n, buckets);
    var sorted :| SortedFrom(sorted, all) && Reports(lines, sorted, reduce);
    var keys' := WholeReport(lines, sorted, all, reduce);
    EnumerationIsTheSet(keys, KeysOf(all));
    EnumerationIsTheSet(keys', KeysOf(all));
    SameLineBags(keys, keys', all, reduce);
  }

  lemma AllKeysAreIn(all: seq<KeyValue>, hash: Hash, n: nat, buckets: seq<nat>)
    requires n > 0 && Enumerates(buckets, Buckets(all, hash, n))
    ensures KeysOver(all, hash, n, buckets) == KeysOf(all)
  {
    forall key | key in KeysOf(all)
      ensures hash(key) % n in buckets
    {
      assert hash(key) % n in Buckets(all, hash, n);
    }
  }

  lemma WholeReport(lines: seq<string>, sorted: seq<KeyValue>, all: seq<KeyValue>, reduce: Reducer)
    returns (keys: seq<string>)
    requires OrderFree(reduce) && Reports(lines, sorted, reduce) && multiset(sorted) == multiset(all)
    ensures Enumerates(keys, KeysOf(all)) && lines == Lines(keys, all, reduce)
  {
    keys :| Enumerates(keys, KeysOf(sorted)) && lines == Lines(keys, sorted, reduce);
    SameKeys(sorted, all);
    forall key | key in keys
      ensures multiset(ValuesOf(sorted, key)) == multiset(ValuesOf(all, key))
    {
      SameValues(sorted, all, key);
    }
    SameLines(sorted, all, reduce, keys);
  }

  // ---------- When the sequential output is determined at all ----------

  function Tagged(key: string, values: seq<string>): (kvs: seq<KeyValue>)
    ensures |kvs| == |values|
  {
    seq(|values|, i requires 0 <= i < |values| => KeyValue(key, values[i]))
  }

  lemma {:induction false} TaggedValues(key: string, values: seq<string>)
    ensures ValuesOf(Tagged(key, values), key) == values
  {
    if values != [] {
      var m := |values| - 1;
      TaggedValues(key, values[..m]);
      assert Tagged(key, values)[..m] == Tagged(key, values[..m]);
    }
  }

  lemma TaggedSorted(key: string, vs: seq<string>, ws: seq<string>)
    requires multiset(vs) == multiset(ws)
    ensures SortedFrom(Tagged(key, ws), Tagged(key, vs))
  {
    NotLessThanItself(key);
    var a, b := Tagged(key, ws), Tagged(key, vs);
    forall kv: KeyValue
      ensures multiset(a)[kv] == multiset(b)[kv]
    {
      if kv.key == key {
        TaggedValues(key, vs);
        TaggedValues(key, ws);
        ValueCount(a, key, kv.value);
        ValueCount(b, key, kv.value);
      }
    }
  }

  lemma OneKeyReport(key: string, vs: seq<string>, ws: seq<string>, reduce: Reducer)
    requires vs != [] && multiset(vs) == multiset(ws)
    ensures SequentialWrites([key + " " + reduce(key, ws) + "\n"], [Tagged(key, vs)], reduce)
  {
    var sorted := Tagged(key, ws);
    assert |multiset(vs)| == |multiset(ws)|;
    TaggedSorted(key, vs, ws);
    TaggedValues(key, ws);
    assert KeysOf(sorted) == {key} by {
      assert sorted[0] in sorted;
    }
    assert Enumerates([key], KeysOf(sorted));
    assert [key + " " + reduce(key, ws) + "\n"] == Lines([key], sorted, reduce);
    assert Flatten([Tagged(key, vs)]) == Tagged(key, vs) by {
      assert [Tagged(key, vs)][..0] == [];
    }
  }

  ghost predicate Determined(reduce: Reducer) {
    forall runs, a, b ::
      SequentialWrites(a, runs, reduce) && SequentialWrites(b, runs, reduce) ==> multiset(a) == multiset(b)
  }

  lemma SequentialIsOne(runs: seq<seq<KeyValue>>, a: seq<string>, b: seq<string>, reduce: Reducer)
    requires OrderFree(reduce) && SequentialWrites(a, runs, reduce) && SequentialWrites(b, runs, reduce)
    ensures multiset(a) == multiset(b)
  {
    var all := Flatten(runs);
    var s :| SortedFrom(s, all) && Reports(a, s, reduce);
    var t :| SortedFrom(t, all) && Reports(b, t, reduce);
    var keys := WholeReport(a, s, all, reduce);
    var keys' := WholeReport(b, t, all, reduce);
    EnumerationIsTheSet(keys, KeysOf(all));
    EnumerationIsTheSet(keys', KeysOf(all));
    SameLineBags(keys, keys', all, reduce);
  }

  // The sort is not stable, so the sequential program itself has one answer exactly when the
  // reduce function does not look at the order of its values.
  lemma DeterminedIffOrderFree(reduce: Reducer)
    ensures Determined(reduce) <==> OrderFree(reduce)
  {
    if OrderFree(reduce) {
      forall runs, a, b | SequentialWrites(a, runs, reduce) && SequentialWrites(b, runs, reduce)
        ensures multiset(a) == multiset(b)
      {
        SequentialIsOne(runs, a, b, reduce);
      }
    }
    if Determined(reduce) {
      forall key, vs, ws | multiset(vs) == multiset(ws)
        ensures reduce(key, vs) == reduce(key, ws)
      {
        SameReduction(key, vs, ws, reduce);
      }
    }
  }

  lemma SameReduction(key: string, vs: seq<string>, ws: seq<string>, reduce: Reducer)
    requires Determined(reduce) && multiset(vs) == multiset(ws)
    ensures reduce(key, vs) == reduce(key, ws)
  {
    assert |multiset(vs)| == |multiset(ws)|;
    if vs == [] {
      assert ws == [];
    } else {
      OneKeyReport(key, vs, vs, reduce);
      OneKeyReport(key, vs, ws, reduce);
      var a: string := key + " " + reduce(key, vs) + "\n";
      var b: string := key + " " + reduce(key, ws) + "\n";
      var la, lb: seq<string> := [a], [b];
      assert a in multiset(la) && multiset(la) == multiset(lb);
      assert a == b;
      assert reduce(key, vs) == a[|key| + 1..|a| - 1];
      assert reduce(key, ws) == b[|key| + 1..|b| - 1];
    }
  }
}

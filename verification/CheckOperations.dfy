/**
 checkOperations and checkParallel (src/porcupine/checker.go): entries sorted by time, one
 search for each partition, and the answers collected as they arrive.
 */
module CheckOperations {
  import opened Collections
  import opened Linearizability
  import opened Search
  import opened KvHistory
  import opened Strings
  import CheckSingle

  // Earlier first, and at the same time calls before returns.
  predicate EarlierThan<I, O>(a: Entry<I, O>, b: Entry<I, O>) {
    if a.time != b.time then a.time < b.time else a.CallEntry? && b.ReturnEntry?
  }

  function CallOf<I, O>(op: Operation<I, O>, id: nat): Entry<I, O> {
    CallEntry(op.input, id, op.call)
  }

  function ReturnOf<I, O>(op: Operation<I, O>, id: nat): Entry<I, O> {
    ReturnEntry(op.output, id, op.ret)
  }

  // Two entries for each operation, its call and its return.
  ghost predicate EntriesOf<I, O>(entries: seq<Entry<I, O>>, ops: seq<Operation<I, O>>, n: nat) {
    && n <= |ops| && |entries| == 2 * n
    && forall i: nat :: i < n ==> entries[2 * i] == CallOf(ops[i], i) && entries[2 * i + 1] == ReturnOf(ops[i], i)
  }

  method ListEntries<I, O>(history: seq<Operation<I, O>>) returns (entries: seq<Entry<I, O>>)
    ensures EntriesOf(entries, history, |history|)
  {
    entries := [];
    for id := 0 to |history|
      invariant EntriesOf(entries, history, id)
    {
      var elem := history[id];
      entries := entries + [CallOf(elem, id)];
      entries := entries + [ReturnOf(elem, id)];
    }
  }

  // What sort.Sort may leave: the same entries, each moved to its own place, none less than one
  // before it.
  ghost predicate SortedTo<I, O>(entries: seq<Entry<I, O>>, sorted: seq<Entry<I, O>>, place: seq<nat>, from: seq<nat>) {
    && |sorted| == |entries| && |place| == |entries| && |from| == |entries|
    && (forall x :: 0 <= x < |place| ==> place[x] < |sorted| && sorted[place[x]] == entries[x] && from[place[x]] == x)
    && (forall k :: 0 <= k < |from| ==> from[k] < |entries| && place[from[k]] == k)
    && (forall j, k :: 0 <= j < k < |sorted| ==> !EarlierThan(sorted[k], sorted[j]))
  }

  ghost predicate IsSortOf<I, O>(entries: seq<Entry<I, O>>, sorted: seq<Entry<I, O>>) {
    exists place, from :: SortedTo(entries, sorted, place, from)
  }

  // A sort that keeps the library's promise, and nothing more.
  ghost predicate Sorts<I(!new), O(!new)>(sort: seq<Entry<I, O>> -> seq<Entry<I, O>>) {
    forall entries :: IsSortOf(entries, sort(entries))
  }

  ghost predicate SortedEntriesOf<I(!new), O(!new)>(sorted: seq<Entry<I, O>>, history: seq<Operation<I, O>>) {
    exists entries :: EntriesOf(entries, history, |history|) && IsSortOf(entries, sorted)
  }

  method MakeEntries<I(!new), O(!new)>(history: seq<Operation<I, O>>, sort: seq<Entry<I, O>> -> seq<Entry<I, O>>)
    returns (sorted: seq<Entry<I, O>>)
    requires Sorts(sort)
    ensures SortedEntriesOf(sorted, history)
  {
    var entries := ListEntries(history);
    sorted := sort(entries);
    assert IsSortOf(entries, sorted);
  }

  ghost function ProblemOf<S, I, O>(m: Model<S, I, O>, ops: seq<Operation<I, O>>, sorted: seq<Entry<I, O>>,
                                    place: seq<nat>)
    : (p: Problem<S, I, O>)
    requires |place| == 2 * |ops|
  {
    Problem(m, ops, sorted,
            seq(|ops|, i requires 0 <= i < |ops| => place[2 * i]),
            seq(|ops|, i requires 0 <= i < |ops| => place[2 * i + 1]))
  }

  lemma SortedIsWellFormed<S, I, O>(m: Model<S, I, O>, ops: seq<Operation<I, O>>, entries: seq<Entry<I, O>>,
                                    sorted: seq<Entry<I, O>>, place: seq<nat>, from: seq<nat>)
    requires Timely(ops) && EntriesOf(entries, ops, |ops|) && SortedTo(entries, sorted, place, from)
    ensures ProblemOf(m, ops, sorted, place).WellFormed()
  {
    var p := ProblemOf(m, ops, sorted, place);
    forall i: nat | i < |ops| ensures p.OperationAt(i) {
      assert entries[2 * i] == CallOf(ops[i], i) && entries[2 * i + 1] == ReturnOf(ops[i], i);
      assert sorted[place[2 * i]] == entries[2 * i] && sorted[place[2 * i + 1]] == entries[2 * i + 1];
      assert EarlierThan(entries[2 * i], entries[2 * i + 1]);
    }
    forall x: nat | x < |sorted| ensures p.EntryAt(x) {
      var y := from[x];
      var i := y / 2;
      assert entries[2 * i] == CallOf(ops[i], i) && entries[2 * i + 1] == ReturnOf(ops[i], i);
      assert place[y] == x && sorted[x] == entries[y];
    }
  }

  // Among the sorted entries a's return stands before b's call exactly when a returned, by the
  // clock, strictly before b was called.
  lemma OrderIsRealTime<S, I, O>(m: Model<S, I, O>, ops: seq<Operation<I, O>>, entries: seq<Entry<I, O>>,
                                 sorted: seq<Entry<I, O>>, place: seq<nat>, from: seq<nat>, a: nat, b: nat)
    requires EntriesOf(entries, ops, |ops|) && SortedTo(entries, sorted, place, from)
    requires a < |ops| && b < |ops|
    ensures ProblemOf(m, ops, sorted, place).Before()(a, b) <==> RealTime(ops)(a, b)
  {
    var r, c := place[2 * a + 1], place[2 * b];
    assert sorted[r] == entries[2 * a + 1] == ReturnOf(ops[a], a);
    assert sorted[c] == entries[2 * b] == CallOf(ops[b], b);
    assert from[r] != from[c];
  }

  lemma SameTimeOrder<S, I, O>(m: Model<S, I, O>, ops: seq<Operation<I, O>>, before: Order, before': Order,
                               rest: set<nat>, s: S)
    requires forall i: nat :: i in rest ==> i < |ops|
    requires forall a: nat, b: nat :: a < |ops| && b < |ops| ==> before(a, b) == before'(a, b)
    requires SomeOrder(m, ops, before, rest, s)
    ensures SomeOrder(m, ops, before', rest, s)
  {
    var p :| Linearizes(m, ops, before, rest, s, p);
    assert Linearizes(m, ops, before', rest, s, p);
  }

  lemma SameOrders<S, I, O>(m: Model<S, I, O>, ops: seq<Operation<I, O>>, before: Order)
    requires forall a: nat, b: nat :: a < |ops| && b < |ops| ==> before(a, b) == RealTime(ops)(a, b)
    ensures SomeOrder(m, ops, before, Indices(|ops|), m.init) <==> Linearizable(m, ops)
  {
    if SomeOrder(m, ops, before, Indices(|ops|), m.init) {
      SameTimeOrder(m, ops, before, RealTime(ops), Indices(|ops|), m.init);
    }
    if Linearizable(m, ops) {
      SameTimeOrder(m, ops, RealTime(ops), before, Indices(|ops|), m.init);
    }
  }

  lemma CallsComeFirst<S, I, O>(p: Problem<S, I, O>, rest: set<nat>)
    requires p.WellFormed() && forall i: nat :: i in rest ==> i < |p.ops|
    ensures Proper(p.Before(), rest)
  {
    forall i: nat | i in rest ensures !p.Before()(i, i) {
      assert p.OperationAt(i);
    }
  }

  lemma CanFinishIsLinearizable<S, I, O>(p: Problem<S, I, O>)
    requires p.WellFormed()
    requires forall a: nat, b: nat :: a < |p.ops| && b < |p.ops| ==> p.Before()(a, b) == RealTime(p.ops)(a, b)
    ensures p.CanFinish({}, p.model.init) <==> Linearizable(p.model, p.ops)
  {
    var all, before := Indices(|p.ops|), p.Before();
    assert p.Rest({}) == all;
    CallsComeFirst(p, all);
    CompletesIffLinearizable(p.model, p.ops, before, all, p.model.init);
    SameOrders(p.model, p.ops, before);
  }

  lemma SortedDecides<S, I, O>(m: Model<S, I, O>, ops: seq<Operation<I, O>>, entries: seq<Entry<I, O>>,
                               sorted: seq<Entry<I, O>>, place: seq<nat>, from: seq<nat>)
    requires Timely(ops) && EntriesOf(entries, ops, |ops|) && SortedTo(entries, sorted, place, from)
    ensures ProblemOf(m, ops, sorted, place).WellFormed()
    ensures ProblemOf(m, ops, sorted, place).CanFinish({}, m.init) <==> Linearizable(m, ops)
  {
    var p := ProblemOf(m, ops, sorted, place);
    SortedIsWellFormed(m, ops, entries, sorted, place, from);
    forall a: nat, b: nat | a < |ops| && b < |ops| ensures p.Before()(a, b) == RealTime(ops)(a, b) {
      OrderIsRealTime(m, ops, entries, sorted, place, from, a, b);
    }
    CanFinishIsLinearizable(p);
  }

  // One partition: whatever order the sort leaves among equal entries, the search answers true
  // exactly when some permutation respects real time and is accepted step by step.
  method CheckPartition<S(!new), I(!new), O(!new)>(m: Model<S, I, O>, history: seq<Operation<I, O>>,
                                                   sorted: seq<Entry<I, O>>)
    returns (ok: bool)
    requires EqualIsEquality(m) && Timely(history) && SortedEntriesOf(sorted, history)
    ensures ok <==> Linearizable(m, history)
  {
    ghost var entries :| EntriesOf(entries, history, |history|) && IsSortOf(entries, sorted);
    ghost var place, from :| SortedTo(entries, sorted, place, from);
    SortedDecides(m, history, entries, sorted, place, from);
    ok := CheckSingle.CheckSingle(ProblemOf(m, history, sorted, place), m, sorted);
  }

  // ---------------------------------------------------------------------------------------
  // Collecting the answers
  // ---------------------------------------------------------------------------------------

  // What the select statement picks up next.
  datatype Arrival = Answer(partition: nat) | TimeOut

  // Pending stands for still waiting when nothing more arrives.
  datatype CheckResult = Unknown | Ok | Illegal | Pending

  // Each partition answers at most once.
  ghost predicate Arrivals(n: nat, arrivals: seq<Arrival>) {
    && (forall k :: 0 <= k < |arrivals| && arrivals[k].Answer? ==> arrivals[k].partition < n)
    && (forall j, k :: 0 <= j < k < |arrivals| && arrivals[j].Answer? ==> arrivals[j] != arrivals[k])
  }

  ghost function Answered(arrivals: seq<Arrival>): set<nat> {
    set a | a in arrivals && a.Answer? :: a.partition
  }

  lemma AnsweredGrows(n: nat, arrivals: seq<Arrival>, k: nat)
    requires Arrivals(n, arrivals) && k < |arrivals| && arrivals[k].Answer?
    ensures arrivals[k].partition !in Answered(arrivals[..k])
    ensures Answered(arrivals[..k + 1]) == Answered(arrivals[..k]) + {arrivals[k].partition}
  {
    assert arrivals[..k + 1] == arrivals[..k] + [arrivals[k]];
    assert forall a :: a in arrivals[..k] ==> exists j :: 0 <= j < k && arrivals[j] == a;
  }

  lemma AllAnswered(n: nat, answered: set<nat>)
    requires |answered| >= n && forall i: nat :: i in answered ==> i < n
    ensures answered == Indices(n)
  {
    assert answered <= Indices(n);
    if answered != Indices(n) {
      var i: nat :| i in Indices(n) && i !in answered;
      SubsetSize(answered, Indices(n) - {i});
    }
  }

  ghost predicate Good(verdicts: seq<bool>, answered: set<nat>) {
    forall i: nat :: i in answered && i < |verdicts| ==> verdicts[i]
  }

  lemma GoodGrows(verdicts: seq<bool>, answered: set<nat>, i: nat)
    requires i < |verdicts|
    ensures Good(verdicts, answered + {i}) <==> Good(verdicts, answered) && verdicts[i]
  {
    assert i in answered + {i};
  }

  // Not enough answers yet; with no partitions there never are.
  ghost predicate Undecided(verdicts: seq<bool>, computeInfo: bool, answered: set<nat>) {
    verdicts == [] || (|answered| < |verdicts| && (computeInfo || Good(verdicts, answered)))
  }

  // A decision on the first k arrivals stands.
  lemma Decided(verdicts: seq<bool>, computeInfo: bool, arrivals: seq<Arrival>, k: nat)
    requires k <= |arrivals| && verdicts != []
    requires |Answered(arrivals[..k])| >= |verdicts| || (!computeInfo && !Good(verdicts, Answered(arrivals[..k])))
    ensures !Undecided(verdicts, computeInfo, Answered(arrivals))
  {
    SubsetSize(Answered(arrivals[..k]), Answered(arrivals));
  }

  // The tally of the first k arrivals, all of them answers.
  ghost predicate Tally(verdicts: seq<bool>, arrivals: seq<Arrival>, k: nat, count: nat, ok: bool) {
    && k <= |arrivals| && count == |Answered(arrivals[..k])| && TimeOut !in arrivals[..k]
    && (forall i: nat :: i in Answered(arrivals[..k]) ==> i < |verdicts|)
    && (ok <==> Good(verdicts, Answered(arrivals[..k])))
  }

  lemma NextAnswer(verdicts: seq<bool>, arrivals: seq<Arrival>, k: nat, count: nat, ok: bool)
    requires Arrivals(|verdicts|, arrivals) && Tally(verdicts, arrivals, k, count, ok)
    requires k < |arrivals| && arrivals[k].Answer?
    ensures Tally(verdicts, arrivals, k + 1, count + 1, ok && verdicts[arrivals[k].partition])
  {
    AnsweredGrows(|verdicts|, arrivals, k);
    GoodGrows(verdicts, Answered(arrivals[..k]), arrivals[k].partition);
  }

  lemma AllGood(verdicts: seq<bool>, arrivals: seq<Arrival>, k: nat, count: nat)
    requires Tally(verdicts, arrivals, k, count, true) && count >= |verdicts|
    ensures forall i :: 0 <= i < |verdicts| ==> verdicts[i]
  {
    AllAnswered(|verdicts|, Answered(arrivals[..k]));
  }

  method Collect(verdicts: seq<bool>, computeInfo: bool, arrivals: seq<Arrival>) returns (result: CheckResult)
    requires Arrivals(|verdicts|, arrivals)
    ensures result == Ok ==> verdicts != [] && forall i :: 0 <= i < |verdicts| ==> verdicts[i]
    ensures result == Illegal ==> exists i :: 0 <= i < |verdicts| && !verdicts[i]
    ensures result == Unknown ==> TimeOut in arrivals
    ensures result == Pending <==> TimeOut !in arrivals && Undecided(verdicts, computeInfo, Answered(arrivals))
  {
    var ok, timedOut, count := true, false, 0;
    var k: nat := 0;
    assert Answered(arrivals[..0]) == {};
    while true
      invariant Tally(verdicts, arrivals, k, count, ok)
      invariant k > 0 ==> count < |verdicts| && (ok || computeInfo)
      decreases |arrivals| - k
    {
      if k == |arrivals| {
        assert arrivals[..k] == arrivals;
        return Pending;
      }
      if arrivals[k].TimeOut? {
        timedOut := true;
        break;
      }
      NextAnswer(verdicts, arrivals, k, count, ok);
      count := count + 1;
      ok := ok && verdicts[arrivals[k].partition];
      k := k + 1;
      if !ok && !computeInfo {
        Decided(verdicts, computeInfo, arrivals, k);
        break;
      }
      if count >= |verdicts| {
        Decided(verdicts, computeInfo, arrivals, k);
        if ok {
          AllGood(verdicts, arrivals, k, count);
        }
        break;
      }
    }
    if !ok {
      result := Illegal;
    } else if timedOut {
      result := Unknown;
    } else {
      result := Ok;
    }
  }

  // ---------------------------------------------------------------------------------------
  // The whole check, for the key/value model
  // ---------------------------------------------------------------------------------------

  function KeysOf(history: seq<KvOperation>): set<string> {
    set o | o in history :: o.input.key
  }

  lemma {:induction false} NoOperations(history: seq<KvOperation>, key: string)
    ensures ByKey(history, key) != [] <==> key in KeysOf(history)
  {
    if history != [] {
      var rest := history[..|history| - 1];
      NoOperations(rest, key);
      assert history == rest + [history[|history| - 1]];
    }
  }

  lemma AscendingIsDistinct(keys: seq<string>)
    requires Ascends(keys)
    ensures Distinct(keys)
  {
    forall i, j | 0 <= i < j < |keys| ensures keys[i] != keys[j] {
      NotLessThanItself(keys[i]);
    }
  }

  // One partition for each key.
  lemma PartitionSize(history: seq<KvOperation>, parts: seq<seq<KvOperation>>)
    requires IsPartition(history, parts)
    ensures |parts| == |KeysOf(history)|
  {
    var keys :| PartsOf(history, parts, keys);
    forall key ensures key in keys <==> key in KeysOf(history) {
      NoOperations(history, key);
    }
    AscendingIsDistinct(keys);
    DistinctSize(keys, KeysOf(history));
  }

  lemma {:induction false} PartIsTimely(history: seq<KvOperation>, key: string)
    requires Timely(history)
    ensures Timely(ByKey(history, key))
  {
    if history != [] {
      PartIsTimely(history[..|history| - 1], key);
    }
  }

  lemma PartsAreTimely(history: seq<KvOperation>, parts: seq<seq<KvOperation>>)
    requires Timely(history) && IsPartition(history, parts)
    ensures forall i :: 0 <= i < |parts| ==> Timely(parts[i])
  {
    var keys :| PartsOf(history, parts, keys);
    forall i | 0 <= i < |parts| ensures Timely(parts[i]) {
      PartIsTimely(history, keys[i]);
    }
  }

  method CheckPart(part: seq<KvOperation>, sort: seq<Entry<KvInput, KvOutput>> -> seq<Entry<KvInput, KvOutput>>)
    returns (ok: bool)
    requires Sorts(sort) && Timely(part)
    ensures ok <==> Linearizable(OneValue(), part)
  {
    OneValueIsEquality();
    var sorted := MakeEntries(part, sort);
    ok := CheckPartition(OneValue(), part, sorted);
  }

  // What each goroutine will answer.
  method CheckAll(parts: seq<seq<KvOperation>>, sort: seq<Entry<KvInput, KvOutput>> -> seq<Entry<KvInput, KvOutput>>)
    returns (verdicts: seq<bool>)
    requires Sorts(sort) && forall i :: 0 <= i < |parts| ==> Timely(parts[i])
    ensures |verdicts| == |parts| && forall i :: 0 <= i < |parts| ==>
            (verdicts[i] <==> Linearizable(OneValue(), parts[i]))
  {
    verdicts := [];
    for k := 0 to |parts|
      invariant |verdicts| == k && forall i :: 0 <= i < k ==> (verdicts[i] <==> Linearizable(OneValue(), parts[i]))
    {
      var ok := CheckPart(parts[k], sort);
      verdicts := verdicts + [ok];
    }
  }

  // Every partition has answered, and there was no timeout.
  ghost predicate AllIn(history: seq<KvOperation>, arrivals: seq<Arrival>) {
    TimeOut !in arrivals && |Answered(arrivals)| >= |KeysOf(history)|
  }

  // The verdict on a key/value history: what it says is true, and without a timeout a history that
  // is not empty gets exactly the verdict it deserves.  An empty one is waited for without end.
  method CheckKvOperations(history: seq<KvOperation>, verbose: bool, arrivals: seq<Arrival>,
                           sort: seq<Entry<KvInput, KvOutput>> -> seq<Entry<KvInput, KvOutput>>)
    returns (result: CheckResult)
    requires Timely(history) && Sorts(sort) && Arrivals(|KeysOf(history)|, arrivals)
    ensures result == Ok ==> Linearizable(WholeStore(), history)
    ensures result == Illegal ==> !Linearizable(WholeStore(), history)
    ensures result == Unknown ==> TimeOut in arrivals
    ensures history != [] && AllIn(history, arrivals) ==>
              result == if Linearizable(WholeStore(), history) then Ok else Illegal
    ensures history == [] && TimeOut !in arrivals ==> result == Pending
  {
    var parts := Partition(history);
    PartitionSize(history, parts);
    PartsAreTimely(history, parts);
    PartitionDecides(history, parts);
    var verdicts := CheckAll(parts, sort);
    result := Collect(verdicts, verbose, arrivals);
    if history != [] {
      assert history[0].input.key in KeysOf(history);
    }
  }
}

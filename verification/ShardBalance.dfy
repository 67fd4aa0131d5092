/**
 makeShardBalance (src/shardctrler/server.go), for any number of shards: a first pass keeps as
 many shards as possible where they are, a second hands the rest to the groups that have too
 few.  Proved: every group ends with the floor or the ceiling of the average, and no balanced
 assignment moves fewer shards.
 */
module ShardBalance {
  import opened Collections
  import opened Counting

  // ---------------------------------------------------------------------------------------
  // The two passes
  // ---------------------------------------------------------------------------------------

  // Shards kept by each group, how many groups may still keep one more than the floor, and the
  // shards that have to go.
  datatype Tally = Tally(cnt: map<int, int>, r: nat, excess: seq<nat>)

  function TallyOne(u: Tally, gid: int, i: nat, x: nat): Tally {
    if gid !in u.cnt then u.(excess := u.excess + [i])
    else if u.cnt[gid] < x then u.(cnt := u.cnt[gid := u.cnt[gid] + 1])
    else if u.cnt[gid] == x && u.r > 0 then u.(cnt := u.cnt[gid := u.cnt[gid] + 1], r := u.r - 1)
    else u.(excess := u.excess + [i])
  }

  // The first pass over the first i shards.
  function Tallied(was: seq<int>, groups: set<int>, x: nat, r: nat, i: nat): Tally
    requires i <= |was|
  {
    if i == 0 then Tally(map g | g in groups :: 0, r, [])
    else TallyOne(Tallied(was, groups, x, r, i - 1), was[i - 1], i - 1, x)
  }

  // The assignment, the stack of shards to hand out, and how many groups still get one more.
  datatype Filling = Filling(shards: seq<int>, stack: seq<nat>, r: nat)

  function Give(f: Filling, gid: int): Filling {
    if f.stack == [] || f.stack[|f.stack| - 1] >= |f.shards| then f
    else f.(shards := f.shards[f.stack[|f.stack| - 1] := gid], stack := f.stack[..|f.stack| - 1])
  }

  function GiveMany(f: Filling, gid: int, n: nat): Filling {
    if n == 0 then f else Give(GiveMany(f, gid, n - 1), gid)
  }

  function Deficit(c: int, x: nat): nat {
    if c < x then x - c else 0
  }

  function FillGroup(f: Filling, gid: int, c: int, x: nat): Filling {
    var f' := GiveMany(f, gid, Deficit(c, x));
    if c <= x && f'.r > 0 then Give(f', gid).(r := f'.r - 1) else f'
  }

  // The second pass over the first k groups.
  function Filled(f: Filling, t: seq<int>, cnt: map<int, int>, x: nat, k: nat): Filling
    requires k <= |t| && forall j :: 0 <= j < |t| ==> t[j] in cnt
  {
    if k == 0 then f else FillGroup(Filled(f, t, cnt, x, k - 1), t[k - 1], cnt[t[k - 1]], x)
  }

  // The groups in increasing order.
  ghost predicate Ascending(t: seq<int>, groups: set<int>) {
    && (forall j, k :: 0 <= j < k < |t| ==> t[j] < t[k])
    && (forall j :: 0 <= j < |t| ==> t[j] in groups)
    && (forall g :: g in groups ==> g in t)
  }

  ghost function Balanced(was: seq<int>, groups: set<int>, t: seq<int>): seq<int>
    requires Ascending(t, groups)
  {
    if groups == {} then seq(|was|, _ => 0)
    else
      var x, r := |was| / |groups|, |was| % |groups|;
      var u := Tallied(was, groups, x, r, |was|);
      TalliedKeys(was, groups, x, r, |was|);
      Filled(Filling(was, u.excess, u.r), t, u.cnt, x, |t|).shards
  }

  lemma {:induction false} TalliedKeys(was: seq<int>, groups: set<int>, x: nat, r: nat, i: nat)
    requires i <= |was|
    ensures Tallied(was, groups, x, r, i).cnt.Keys == groups
  {
    if i > 0 {
      TalliedKeys(was, groups, x, r, i - 1);
    }
  }

  lemma {:induction false} AscendingSize(t: seq<int>, groups: set<int>)
    requires Ascending(t, groups)
    ensures |t| == |groups|
  {
    if t == [] {
      forall g ensures g !in groups {
        assert g !in t;
      }
      assert groups == {};
    } else {
      var last := t[|t| - 1];
      assert last in t;
      forall g | g in groups - {last} ensures g in t[..|t| - 1] {
        assert g in t;
      }
      AscendingSize(t[..|t| - 1], groups - {last});
    }
  }

  lemma {:induction false} Largest(groups: set<int>) returns (g: int)
    requires groups != {}
    ensures g in groups && forall h :: h in groups ==> h <= g
    decreases |groups|
  {
    g := Some(groups);
    var rest := groups - {g};
    if rest != {} {
      var h := Largest(rest);
      assert forall y :: y in groups ==> y == g || y in rest;
      if h > g {
        g := h;
      }
    } else {
      assert forall y :: y in groups ==> y == g || y in rest;
    }
  }

  lemma Some<T>(s: set<T>) returns (x: T)
    requires s != {}
    ensures x in s
  {
    x :| x in s;
  }

  // Every set of groups can be listed in increasing order.
  lemma {:induction false} AscendingExists(groups: set<int>) returns (t: seq<int>)
    ensures Ascending(t, groups)
    decreases |groups|
  {
    t := [];
    if groups != {} {
      var g := Largest(groups);
      var front := AscendingExists(groups - {g});
      t := front + [g];
    }
  }

  // ---------------------------------------------------------------------------------------
  // The first pass
  // ---------------------------------------------------------------------------------------

  ghost function Kept(excess: seq<nat>, n: nat): set<nat> {
    set i: nat | i < n && i !in excess
  }

  // Shard j of group g had to go: g is full for good.
  ghost predicate Full(u: Tally, g: int, x: nat)
    requires g in u.cnt
  {
    u.cnt[g] > x || (u.cnt[g] == x && u.r == 0)
  }

  ghost predicate TallyCounts(u: Tally, was: seq<int>, x: nat, i: nat)
    requires i <= |was|
  {
    forall g :: g in u.cnt ==> CountedRight(u, was, x, i, g)
  }

  // What a group keeps is what it has, unless it is full.
  ghost predicate CountedRight(u: Tally, was: seq<int>, x: nat, i: nat, g: int)
    requires i <= |was| && g in u.cnt
  {
    && u.cnt[g] == CountOf(was, Kept(u.excess, i), g, i) && 0 <= u.cnt[g] <= x + 1
    && u.cnt[g] <= CountOf(was, Indices(|was|), g, i)
    && (u.cnt[g] == CountOf(was, Indices(|was|), g, i) || Full(u, g, x))
  }

  ghost predicate ExcessOk(u: Tally, was: seq<int>, x: nat, i: nat)
    requires i <= |was|
  {
    && (forall j, k :: 0 <= j < k < |u.excess| ==> u.excess[j] < u.excess[k])
    && (forall j :: 0 <= j < |u.excess| ==> u.excess[j] < i)
    && (forall j :: 0 <= j < |u.excess| && was[u.excess[j]] in u.cnt ==> Full(u, was[u.excess[j]], x))
    && (forall j: nat :: j < i && was[j] !in u.cnt ==> j in u.excess)
  }

  // Which groups keep more than the floor.
  ghost function OverMap(cnt: map<int, int>, x: nat): map<int, int> {
    map g | g in cnt :: if cnt[g] > x then 1 else 0
  }

  lemma KeptNext(was: seq<int>, excess: seq<nat>, i: nat, g: int, more: seq<nat>)
    requires i < |was| && (more == excess || more == excess + [i]) && forall j :: 0 <= j < |excess| ==> excess[j] < i
    ensures CountOf(was, Kept(more, i + 1), g, i + 1)
            == CountOf(was, Kept(excess, i), g, i) + if more == excess && was[i] == g then 1 else 0
  {
    assert more == excess ==> i !in excess;
    CountSame(was, Kept(excess, i), was, Kept(more, i + 1), g, i);
  }

  lemma TallyOneCounts(u: Tally, was: seq<int>, x: nat, i: nat)
    requires i < |was| && TallyCounts(u, was, x, i) && ExcessOk(u, was, x, i)
    ensures TallyCounts(TallyOne(u, was[i], i, x), was, x, i + 1)
  {
    var v := TallyOne(u, was[i], i, x);
    forall g | g in v.cnt ensures CountedRight(v, was, x, i + 1, g) {
      assert CountedRight(u, was, x, i, g);
      KeptNext(was, u.excess, i, g, v.excess);
    }
  }

  lemma TallyOneExcess(u: Tally, was: seq<int>, x: nat, i: nat)
    requires i < |was| && ExcessOk(u, was, x, i) && forall g :: g in u.cnt ==> u.cnt[g] <= x + 1
    ensures ExcessOk(TallyOne(u, was[i], i, x), was, x, i + 1)
  {
  }

  lemma TallyOneOver(u: Tally, gid: int, i: nat, x: nat, t: seq<int>)
    requires Distinct(t) && Defined(t, u.cnt) && forall g :: g in u.cnt ==> g in t
    ensures Defined(t, TallyOne(u, gid, i, x).cnt)
    ensures Sum(t, 0, OverMap(TallyOne(u, gid, i, x).cnt, x)) + TallyOne(u, gid, i, x).r
            == Sum(t, 0, OverMap(u.cnt, x)) + u.r
  {
    var v := TallyOne(u, gid, i, x);
    if gid in u.cnt && u.cnt[gid] == x && u.r > 0 {
      var m :| 0 <= m < |t| && t[m] == gid;
      SumOneMore(t, 0, OverMap(u.cnt, x), OverMap(v.cnt, x), m);
    } else {
      SumSame(t, 0, OverMap(u.cnt, x), OverMap(v.cnt, x));
    }
  }

  ghost predicate TallyOk(u: Tally, was: seq<int>, groups: set<int>, t: seq<int>, x: nat, r: nat, i: nat)
    requires i <= |was|
  {
    && u.cnt.Keys == groups && Defined(t, u.cnt) && TallyCounts(u, was, x, i) && ExcessOk(u, was, x, i)
    && Sum(t, 0, OverMap(u.cnt, x)) + u.r == r
  }

  lemma TallyOneOk(u: Tally, was: seq<int>, groups: set<int>, t: seq<int>, x: nat, r: nat, i: nat)
    requires i < |was| && Ascending(t, groups) && TallyOk(u, was, groups, t, x, r, i)
    ensures TallyOk(TallyOne(u, was[i], i, x), was, groups, t, x, r, i + 1)
  {
    assert forall g :: g in u.cnt ==> CountedRight(u, was, x, i, g);
    TallyOneCounts(u, was, x, i);
    TallyOneExcess(u, was, x, i);
    TallyOneOver(u, was[i], i, x, t);
  }

  lemma TallyStartsOk(was: seq<int>, groups: set<int>, t: seq<int>, x: nat, r: nat)
    requires Ascending(t, groups)
    ensures TallyOk(Tally(map g | g in groups :: 0, r, []), was, groups, t, x, r, 0)
  {
    var u := Tally(map g | g in groups :: 0, r, []);
    SumConstant(t, 0, OverMap(u.cnt, x), 0);
  }

  lemma {:induction false} TalliedOk(was: seq<int>, groups: set<int>, t: seq<int>, x: nat, r: nat, i: nat)
    requires i <= |was| && Ascending(t, groups)
    ensures TallyOk(Tallied(was, groups, x, r, i), was, groups, t, x, r, i)
  {
    if i == 0 {
      TallyStartsOk(was, groups, t, x, r);
    } else {
      TalliedOk(was, groups, t, x, r, i - 1);
      TalliedNext(was, groups, t, x, r, i);
    }
  }

  lemma TalliedNext(was: seq<int>, groups: set<int>, t: seq<int>, x: nat, r: nat, i: nat)
    requires 1 <= i <= |was| && Ascending(t, groups)
    requires TallyOk(Tallied(was, groups, x, r, i - 1), was, groups, t, x, r, i - 1)
    ensures TallyOk(Tallied(was, groups, x, r, i), was, groups, t, x, r, i)
  {
    TallyOneOk(Tallied(was, groups, x, r, i - 1), was, groups, t, x, r, i - 1);
  }

  // ---------------------------------------------------------------------------------------
  // The second pass
  // ---------------------------------------------------------------------------------------

  // What the groups from k on still need to reach the floor, and how many may get one more.
  ghost function NeedMap(cnt: map<int, int>, x: nat): map<int, int> {
    map g | g in cnt :: Deficit(cnt[g], x)
  }

  ghost function OpenMap(cnt: map<int, int>, x: nat): map<int, int> {
    map g | g in cnt :: if cnt[g] <= x then 1 else 0
  }

  // The stack is what is left of the excess; positions off it are settled.
  ghost predicate Stacked(f: Filling, was: seq<int>, excess: seq<nat>) {
    && |f.shards| == |was| && f.stack <= excess
    && (forall p: nat :: p < |was| && (p !in excess || p in f.stack) ==> f.shards[p] == was[p])
  }

  ghost function Settled(f: Filling): set<nat> {
    Kept(f.stack, |f.shards|)
  }

  ghost function Has(f: Filling, g: int): nat {
    CountOf(f.shards, Settled(f), g, |f.shards|)
  }

  // The excess in increasing order, all shards.
  ghost predicate ExcessList(excess: seq<nat>, n: nat) {
    && (forall j, k :: 0 <= j < k < |excess| ==> excess[j] < excess[k])
    && (forall j :: 0 <= j < |excess| ==> excess[j] < n)
  }

  // Handing one shard to gid changes nothing else.
  lemma GiveIs(f: Filling, was: seq<int>, excess: seq<nat>, gid: int)
    requires Stacked(f, was, excess) && ExcessList(excess, |was|) && f.stack != []
    ensures Stacked(Give(f, gid), was, excess) && |Give(f, gid).stack| == |f.stack| - 1 && Give(f, gid).r == f.r
    ensures forall g :: Has(Give(f, gid), g) == Has(f, g) + if g == gid then 1 else 0
  {
    var f', top := Give(f, gid), f.stack[|f.stack| - 1];
    assert top == excess[|f.stack| - 1];
    forall p: nat ensures p in f.stack <==> p in f'.stack || p == top {
      assert f.stack == f'.stack + [top];
    }
    assert top !in f'.stack;
    forall g ensures Has(f', g) == Has(f, g) + if g == gid then 1 else 0 {
      if g == gid {
        CountOneMore(f.shards, Settled(f), f'.shards, Settled(f'), g, |was|, top);
      } else {
        CountSame(f.shards, Settled(f), f'.shards, Settled(f'), g, |was|);
      }
    }
  }

  lemma {:induction false} GiveManyIs(f: Filling, was: seq<int>, excess: seq<nat>, gid: int, n: nat)
    requires Stacked(f, was, excess) && ExcessList(excess, |was|) && n <= |f.stack|
    ensures Stacked(GiveMany(f, gid, n), was, excess)
    ensures |GiveMany(f, gid, n).stack| == |f.stack| - n && GiveMany(f, gid, n).r == f.r
    ensures forall g :: Has(GiveMany(f, gid, n), g) == Has(f, g) + if g == gid then n else 0
  {
    if n > 0 {
      GiveManyIs(f, was, excess, gid, n - 1);
      GiveIs(GiveMany(f, gid, n - 1), was, excess, gid);
    }
  }

  // Enough shards for the groups from k on, and enough groups for the extra ones.
  ghost predicate Enough(f: Filling, t: seq<int>, cnt: map<int, int>, x: nat, k: nat)
    requires k <= |t| && Defined(t, cnt)
  {
    |f.stack| == Sum(t, k, NeedMap(cnt, x)) + f.r && f.r <= Sum(t, k, OpenMap(cnt, x))
  }

  // Groups before k have the floor or one more; the others have what they kept.
  ghost predicate Settling(f: Filling, t: seq<int>, cnt: map<int, int>, x: nat, k: nat)
    requires k <= |t| && Defined(t, cnt)
  {
    && (forall j :: 0 <= j < k ==> x <= Has(f, t[j]) <= x + 1)
    && (forall j :: k <= j < |t| ==> Has(f, t[j]) == cnt[t[j]])
  }

  ghost predicate FillOk(f: Filling, was: seq<int>, excess: seq<nat>, t: seq<int>, cnt: map<int, int>, x: nat, k: nat)
    requires k <= |t| && Defined(t, cnt)
  {
    Stacked(f, was, excess) && Enough(f, t, cnt, x, k) && Settling(f, t, cnt, x, k)
  }

  lemma {:induction false} SumIsNatural(t: seq<int>, k: nat, f: map<int, int>)
    requires k <= |t| && Defined(t, f) && forall j :: k <= j < |t| ==> f[t[j]] >= 0
    ensures Sum(t, k, f) >= 0
    decreases |t| - k
  {
    if k < |t| {
      SumIsNatural(t, k + 1, f);
    }
  }

  lemma FillGroupOk(f: Filling, was: seq<int>, excess: seq<nat>, t: seq<int>, cnt: map<int, int>, x: nat, k: nat)
    requires k < |t| && Distinct(t) && Defined(t, cnt) && ExcessList(excess, |was|)
    requires forall j :: 0 <= j < |t| ==> 0 <= cnt[t[j]] <= x + 1
    requires FillOk(f, was, excess, t, cnt, x, k)
    ensures Deficit(cnt[t[k]], x) + (if cnt[t[k]] <= x && f.r > 0 then 1 else 0) <= |f.stack|
    ensures FillOk(FillGroup(f, t[k], cnt[t[k]], x), was, excess, t, cnt, x, k + 1)
  {
    var gid, c := t[k], cnt[t[k]];
    SumIsNatural(t, k + 1, NeedMap(cnt, x));
    SumIsNatural(t, k + 1, OpenMap(cnt, x));
    var f' := GiveMany(f, gid, Deficit(c, x));
    GiveManyIs(f, was, excess, gid, Deficit(c, x));
    if c <= x && f'.r > 0 {
      GiveIs(f', was, excess, gid);
      MoreStays(Give(f', gid), was, excess, f'.r - 1);
    }
  }

  // The number of extra shards does not matter to what is settled.
  lemma MoreStays(f: Filling, was: seq<int>, excess: seq<nat>, r: nat)
    requires Stacked(f, was, excess)
    ensures Stacked(f.(r := r), was, excess) && forall g :: Has(f.(r := r), g) == Has(f, g)
  {
  }

  lemma {:induction false} FilledOk(f: Filling, was: seq<int>, excess: seq<nat>, t: seq<int>, cnt: map<int, int>,
                                    x: nat, k: nat)
    requires k <= |t| && Distinct(t) && Defined(t, cnt) && ExcessList(excess, |was|)
    requires forall j :: 0 <= j < |t| ==> 0 <= cnt[t[j]] <= x + 1
    requires FillOk(f, was, excess, t, cnt, x, 0)
    ensures FillOk(Filled(f, t, cnt, x, k), was, excess, t, cnt, x, k)
  {
    if k > 0 {
      FilledOk(f, was, excess, t, cnt, x, k - 1);
      FillGroupOk(Filled(f, t, cnt, x, k - 1), was, excess, t, cnt, x, k - 1);
    }
  }

  // ---------------------------------------------------------------------------------------
  // Between the passes
  // ---------------------------------------------------------------------------------------

  lemma KeptSize(excess: seq<nat>, n: nat)
    requires ExcessList(excess, n)
    ensures CountBelow(Kept(excess, n), n) + |excess| == n
  {
    var out := set i | i in excess;
    assert Kept(excess, n) == Indices(n) - out && out <= Indices(n);
    DistinctSize(excess, out);
    CountBelowSize(Kept(excess, n), n);
  }

  ghost function FloorMap(t: seq<int>, x: int): map<int, int> {
    map g | g in t :: x
  }

  lemma FloorSum(t: seq<int>, x: int)
    ensures Sum(t, 0, FloorMap(t, x)) == |t| * x
  {
    SumConstant(t, 0, FloorMap(t, x), x);
  }

  // Need and open places follow from what is kept.
  lemma NeedIs(t: seq<int>, cnt: map<int, int>, x: nat)
    requires Defined(t, cnt) && forall j :: 0 <= j < |t| ==> 0 <= cnt[t[j]] <= x + 1
    ensures Sum(t, 0, NeedMap(cnt, x)) + Sum(t, 0, cnt) == Sum(t, 0, FloorMap(t, x)) + Sum(t, 0, OverMap(cnt, x))
  {
    var total := map g | g in t && g in cnt :: x + OverMap(cnt, x)[g];
    forall j | 0 <= j < |t| ensures total[t[j]] == NeedMap(cnt, x)[t[j]] + cnt[t[j]] {
      var g := t[j];
      assert 0 <= cnt[g] <= x + 1;
      assert total[g] == x + if cnt[g] > x then 1 else 0;
      assert NeedMap(cnt, x)[g] == Deficit(cnt[g], x);
    }
    SumAdds(t, 0, NeedMap(cnt, x), cnt, total);
    SumAdds(t, 0, FloorMap(t, x), OverMap(cnt, x), total);
  }

  lemma OpenIs(t: seq<int>, cnt: map<int, int>, x: nat)
    requires Defined(t, cnt)
    ensures Sum(t, 0, OpenMap(cnt, x)) + Sum(t, 0, OverMap(cnt, x)) == |t|
  {
    SumAdds(t, 0, OpenMap(cnt, x), OverMap(cnt, x), FloorMap(t, 1));
    FloorSum(t, 1);
  }

  // What everything rests on: x is the floor, r the remainder, t the groups in order.
  ghost predicate Shares(n: nat, t: seq<int>, x: nat, r: nat) {
    t != [] && Distinct(t) && n == |t| * x + r && r < |t|
  }

  lemma OwnedByGroup(was: seq<int>, groups: set<int>, t: seq<int>, x: nat, r: nat, u: Tally, i: nat)
    requires Ascending(t, groups) && TallyOk(u, was, groups, t, x, r, |was|) && i < |was| && i !in u.excess
    ensures was[i] in t
  {
    assert was[i] in u.cnt;
    var g := was[i];
    assert g in groups;
  }

  lemma KeptTotal(was: seq<int>, groups: set<int>, t: seq<int>, x: nat, r: nat, u: Tally)
    requires Ascending(t, groups) && TallyOk(u, was, groups, t, x, r, |was|)
    ensures ExcessList(u.excess, |was|) && (forall j :: 0 <= j < |t| ==> 0 <= u.cnt[t[j]] <= x + 1)
    ensures Sum(t, 0, u.cnt) + |u.excess| == |was|
  {
    var kept := Kept(u.excess, |was|);
    KeptSize(u.excess, |was|);
    forall i: nat | i < |was| && i in kept ensures was[i] in t {
      OwnedByGroup(was, groups, t, x, r, u, i);
    }
    SumOfCounts(was, kept, t, |was|);
    forall j | 0 <= j < |t| ensures 0 <= u.cnt[t[j]] <= x + 1 && u.cnt[t[j]] == Counts(was, kept, t, |was|)[t[j]] {
      assert CountedRight(u, was, x, |was|, t[j]);
    }
    SumSame(t, 0, u.cnt, Counts(was, kept, t, |was|));
  }

  // ---------------------------------------------------------------------------------------
  // No shard that has to go comes home
  // ---------------------------------------------------------------------------------------

  // Handed-out shards went to a group, and not to the one they came from.
  ghost predicate HandedOut(f: Filling, was: seq<int>, excess: seq<nat>, t: seq<int>) {
    forall p: nat :: p in excess && p !in f.stack && p < |f.shards| && p < |was| ==>
      f.shards[p] in t && f.shards[p] != was[p]
  }

  ghost predicate NotHome(was: seq<int>, excess: seq<nat>, gid: int) {
    forall j :: 0 <= j < |excess| && excess[j] < |was| ==> was[excess[j]] != gid
  }

  lemma GiveHandsOut(f: Filling, was: seq<int>, excess: seq<nat>, t: seq<int>, gid: int)
    requires Stacked(f, was, excess) && ExcessList(excess, |was|) && HandedOut(f, was, excess, t) && f.stack != []
    requires gid in t && NotHome(was, excess, gid)
    ensures HandedOut(Give(f, gid), was, excess, t)
  {
    var f', top := Give(f, gid), f.stack[|f.stack| - 1];
    assert top == excess[|f.stack| - 1];
    assert f.stack == f'.stack + [top];
  }

  lemma {:induction false} GiveManyHandsOut(f: Filling, was: seq<int>, excess: seq<nat>, t: seq<int>, gid: int, n: nat)
    requires Stacked(f, was, excess) && ExcessList(excess, |was|) && HandedOut(f, was, excess, t) && n <= |f.stack|
    requires gid in t && (n > 0 ==> NotHome(was, excess, gid))
    ensures HandedOut(GiveMany(f, gid, n), was, excess, t)
  {
    if n > 0 {
      GiveManyHandsOut(f, was, excess, t, gid, n - 1);
      GiveManyIs(f, was, excess, gid, n - 1);
      GiveHandsOut(GiveMany(f, gid, n - 1), was, excess, t, gid);
    }
  }

  // A group that still gets shards did not have to give any up.
  lemma NeedyIsNotHome(u: Tally, was: seq<int>, x: nat, gid: int)
    requires ExcessOk(u, was, x, |was|) && gid in u.cnt && (u.cnt[gid] < x || (u.cnt[gid] <= x && u.r > 0))
    ensures NotHome(was, u.excess, gid)
  {
  }

  lemma FillGroupHandsOut(f: Filling, was: seq<int>, t: seq<int>, u: Tally, x: nat, k: nat)
    requires k < |t| && Distinct(t) && Defined(t, u.cnt) && ExcessOk(u, was, x, |was|) && ExcessList(u.excess, |was|)
    requires Stacked(f, was, u.excess) && HandedOut(f, was, u.excess, t) && f.r <= u.r
    requires Deficit(u.cnt[t[k]], x) + (if u.cnt[t[k]] <= x && f.r > 0 then 1 else 0) <= |f.stack|
    ensures HandedOut(FillGroup(f, t[k], u.cnt[t[k]], x), was, u.excess, t)
    ensures FillGroup(f, t[k], u.cnt[t[k]], x).r <= u.r
  {
    var gid, c := t[k], u.cnt[t[k]];
    var n := Deficit(c, x);
    if n > 0 || (c <= x && f.r > 0) {
      NeedyIsNotHome(u, was, x, gid);
    }
    GiveManyHandsOut(f, was, u.excess, t, gid, n);
    GiveManyIs(f, was, u.excess, gid, n);
    var f' := GiveMany(f, gid, n);
    if c <= x && f'.r > 0 {
      GiveHandsOut(f', was, u.excess, t, gid);
    }
  }

  lemma {:induction false} FilledHandsOut(was: seq<int>, t: seq<int>, u: Tally, x: nat, k: nat)
    requires k <= |t| && Distinct(t) && Defined(t, u.cnt) && ExcessOk(u, was, x, |was|) && ExcessList(u.excess, |was|)
    requires forall j :: 0 <= j < |t| ==> 0 <= u.cnt[t[j]] <= x + 1
    requires FillOk(Filling(was, u.excess, u.r), was, u.excess, t, u.cnt, x, 0)
    ensures HandedOut(Filled(Filling(was, u.excess, u.r), t, u.cnt, x, k), was, u.excess, t)
    ensures Filled(Filling(was, u.excess, u.r), t, u.cnt, x, k).r <= u.r
  {
    if k > 0 {
      var f0 := Filling(was, u.excess, u.r);
      FilledHandsOut(was, t, u, x, k - 1);
      FilledOk(f0, was, u.excess, t, u.cnt, x, k - 1);
      FillGroupOk(Filled(f0, t, u.cnt, x, k - 1), was, u.excess, t, u.cnt, x, k - 1);
      FillGroupHandsOut(Filled(f0, t, u.cnt, x, k - 1), was, t, u, x, k - 1);
    }
  }

  // ---------------------------------------------------------------------------------------
  // The result
  // ---------------------------------------------------------------------------------------

  lemma StartsOk(was: seq<int>, groups: set<int>, t: seq<int>, x: nat, r: nat, u: Tally)
    requires Ascending(t, groups) && Shares(|was|, t, x, r) && TallyOk(u, was, groups, t, x, r, |was|)
    ensures ExcessList(u.excess, |was|) && (forall j :: 0 <= j < |t| ==> 0 <= u.cnt[t[j]] <= x + 1)
    ensures FillOk(Filling(was, u.excess, u.r), was, u.excess, t, u.cnt, x, 0)
  {
    KeptTotal(was, groups, t, x, r, u);
    NeedIs(t, u.cnt, x);
    OpenIs(t, u.cnt, x);
    FloorSum(t, x);
    forall j | 0 <= j < |t| ensures Has(Filling(was, u.excess, u.r), t[j]) == u.cnt[t[j]] {
      assert CountedRight(u, was, x, |was|, t[j]);
    }
  }

  ghost function CountIn(s: seq<int>, g: int): nat {
    CountOf(s, Indices(|s|), g, |s|)
  }

  // Every shard has a group, and every group the floor of the average or one more.
  ghost predicate IsBalanced(s: seq<int>, t: seq<int>, x: nat) {
    && (forall p: nat :: p < |s| ==> s[p] in t)
    && (forall j :: 0 <= j < |t| ==> x <= CountIn(s, t[j]) <= x + 1)
  }

  // How many shards stay where they are.
  ghost function Staying(was: seq<int>, s: seq<int>): set<nat>
    requires |s| == |was|
  {
    set p: nat | p < |s| && s[p] == was[p]
  }

  // The stack ends empty, the result is balanced, and exactly the excess has moved.
  lemma ResultIs(was: seq<int>, groups: set<int>, t: seq<int>, x: nat, r: nat, u: Tally, f: Filling)
    requires Ascending(t, groups) && Shares(|was|, t, x, r) && TallyOk(u, was, groups, t, x, r, |was|)
    requires f == Filled(Filling(was, u.excess, u.r), t, u.cnt, x, |t|)
    ensures f.stack == [] && f.r == 0 && |f.shards| == |was|
    ensures IsBalanced(f.shards, t, x)
    ensures Staying(was, f.shards) == Kept(u.excess, |was|)
  {
    var f0 := Filling(was, u.excess, u.r);
    StartsOk(was, groups, t, x, r, u);
    FilledOk(f0, was, u.excess, t, u.cnt, x, |t|);
    FilledHandsOut(was, t, u, x, |t|);
    assert Settled(f) == Indices(|was|);
    forall p: nat | p < |was| ensures f.shards[p] in t && (f.shards[p] == was[p] <==> p !in u.excess) {
      if p !in u.excess {
        OwnedByGroup(was, groups, t, x, r, u, p);
      }
    }
  }

  // ---------------------------------------------------------------------------------------
  // No balanced assignment moves fewer shards
  // ---------------------------------------------------------------------------------------

  ghost function OwnedMap(was: seq<int>, t: seq<int>): map<int, int> {
    map g | g in t :: CountIn(was, g)
  }

  // What a group could keep at the floor, and whether it had more than that.
  ghost function CapMap(owned: map<int, int>, x: nat): map<int, int> {
    map g | g in owned :: if owned[g] < x then owned[g] else x
  }

  ghost function RichMap(owned: map<int, int>, x: nat): map<int, int> {
    map g | g in owned :: if owned[g] > x then 1 else 0
  }

  // The first pass keeps the cap everywhere, and one more for as many rich groups as allowed.
  lemma KeepsTheMost(was: seq<int>, groups: set<int>, t: seq<int>, x: nat, r: nat, u: Tally)
    requires Ascending(t, groups) && TallyOk(u, was, groups, t, x, r, |was|)
    ensures Sum(t, 0, u.cnt) == Sum(t, 0, CapMap(OwnedMap(was, t), x)) + (r - u.r)
    ensures u.r == 0 || Sum(t, 0, RichMap(OwnedMap(was, t), x)) <= r - u.r
  {
    var owned := OwnedMap(was, t);
    forall j | 0 <= j < |t|
      ensures u.cnt[t[j]] == CapMap(owned, x)[t[j]] + OverMap(u.cnt, x)[t[j]]
      ensures u.r > 0 ==> RichMap(owned, x)[t[j]] <= OverMap(u.cnt, x)[t[j]]
    {
      assert CountedRight(u, was, x, |was|, t[j]);
    }
    SumAdds(t, 0, CapMap(owned, x), OverMap(u.cnt, x), u.cnt);
    if u.r > 0 {
      SumAtMost(t, 0, RichMap(owned, x), OverMap(u.cnt, x));
    }
  }

  // In any balanced assignment the groups with one more than the floor are exactly r.
  lemma ExtraIsRemainder(s: seq<int>, t: seq<int>, x: nat, r: nat)
    requires Shares(|s|, t, x, r) && IsBalanced(s, t, x)
    ensures Sum(t, 0, ExtraMap(s, t, x)) == r
  {
    IndicesCount(|s|, |s|);
    SumOfCounts(s, Indices(|s|), t, |s|);
    FloorSum(t, x);
    SumAdds(t, 0, FloorMap(t, x), ExtraMap(s, t, x), Counts(s, Indices(|s|), t, |s|));
  }

  ghost function ExtraMap(s: seq<int>, t: seq<int>, x: nat): map<int, int> {
    map g | g in t :: CountIn(s, g) - x
  }

  lemma {:induction false} IndicesCount(m: nat, n: nat)
    requires n <= m
    ensures CountBelow(Indices(m), n) == n
  {
    if n > 0 {
      IndicesCount(m, n - 1);
    }
  }

  // What group g keeps under assignment s.
  ghost function StayMap(was: seq<int>, s: seq<int>, t: seq<int>): map<int, int>
    requires |s| == |was|
  {
    Counts(s, Staying(was, s), t, |s|)
  }

  lemma StayAtMost(was: seq<int>, s: seq<int>, g: int)
    requires |s| == |was|
    ensures CountOf(s, Staying(was, s), g, |s|) <= CountIn(was, g)
    ensures CountOf(s, Staying(was, s), g, |s|) <= CountIn(s, g)
  {
    CountAtMost(s, Staying(was, s), was, Indices(|was|), g, |s|);
    CountAtMost(s, Staying(was, s), s, Indices(|s|), g, |s|);
  }

  lemma StayingSum(was: seq<int>, s: seq<int>, t: seq<int>, x: nat)
    requires |s| == |was| && Distinct(t) && IsBalanced(s, t, x)
    ensures |Staying(was, s)| == Sum(t, 0, StayMap(was, s, t))
  {
    SumOfCounts(s, Staying(was, s), t, |s|);
    CountBelowSize(Staying(was, s), |s|);
  }

  // At most the cap, plus one for each group that gets one more.
  lemma StaysUpToExtra(was: seq<int>, s: seq<int>, t: seq<int>, x: nat, r: nat)
    requires |s| == |was| && Shares(|was|, t, x, r) && IsBalanced(s, t, x)
    ensures |Staying(was, s)| <= Sum(t, 0, CapMap(OwnedMap(was, t), x)) + r
  {
    var cap, stay := CapMap(OwnedMap(was, t), x), StayMap(was, s, t);
    var both := map g | g in t :: cap[g] + ExtraMap(s, t, x)[g];
    StayingSum(was, s, t, x);
    forall j | 0 <= j < |t| ensures stay[t[j]] <= both[t[j]] {
      StayAtMost(was, s, t[j]);
    }
    SumAtMost(t, 0, stay, both);
    SumAdds(t, 0, cap, ExtraMap(s, t, x), both);
    ExtraIsRemainder(s, t, x, r);
  }

  // At most the cap, plus one for each rich group.
  lemma StaysUpToRich(was: seq<int>, s: seq<int>, t: seq<int>, x: nat)
    requires |s| == |was| && Distinct(t) && IsBalanced(s, t, x)
    ensures |Staying(was, s)| <= Sum(t, 0, CapMap(OwnedMap(was, t), x)) + Sum(t, 0, RichMap(OwnedMap(was, t), x))
  {
    var cap, rich, stay := CapMap(OwnedMap(was, t), x), RichMap(OwnedMap(was, t), x), StayMap(was, s, t);
    var both := map g | g in t :: cap[g] + rich[g];
    StayingSum(was, s, t, x);
    forall j | 0 <= j < |t| ensures stay[t[j]] <= both[t[j]] {
      StayAtMost(was, s, t[j]);
    }
    SumAtMost(t, 0, stay, both);
    SumAdds(t, 0, cap, rich, both);
  }

  // ---------------------------------------------------------------------------------------
  // The theorem
  // ---------------------------------------------------------------------------------------

  lemma SharesOf(n: nat, groups: set<int>, t: seq<int>)
    requires Ascending(t, groups) && groups != {}
    ensures |t| == |groups| && |groups| > 0 && Shares(n, t, n / |groups|, n % |groups|)
  {
    AscendingSize(t, groups);
    var m := |groups|;
    assert n == m * (n / m) + n % m;
  }

  // For every previous assignment and every non-empty set of groups: balanced, nothing left over,
  // and no balanced assignment lets more shards stay.
  lemma BalanceIsBest(was: seq<int>, groups: set<int>, t: seq<int>, s: seq<int>)
    requires Ascending(t, groups) && groups != {}
    requires |s| == |was| && IsBalanced(s, t, |was| / |groups|)
    ensures |Balanced(was, groups, t)| == |was| && IsBalanced(Balanced(was, groups, t), t, |was| / |groups|)
    ensures |Staying(was, s)| <= |Staying(was, Balanced(was, groups, t))|
  {
    BalanceIsBalanced(was, groups, t);
    SharesOf(|was|, groups, t);
    var x, r := |was| / |groups|, |was| % |groups|;
    var u := Tallied(was, groups, x, r, |was|);
    TalliedOk(was, groups, t, x, r, |was|);
    KeepsTheMost(was, groups, t, x, r, u);
    StaysUpToExtra(was, s, t, x, r);
    StaysUpToRich(was, s, t, x);
  }

  // Balanced, and the shards that stay are exactly those the first pass let their groups keep.
  lemma BalanceIsBalanced(was: seq<int>, groups: set<int>, t: seq<int>)
    requires Ascending(t, groups) && groups != {}
    ensures |Balanced(was, groups, t)| == |was| && IsBalanced(Balanced(was, groups, t), t, |was| / |groups|)
    ensures Staying(was, Balanced(was, groups, t)) == Kept(TalliedAll(was, groups).excess, |was|)
    ensures |Staying(was, Balanced(was, groups, t))|
            == Sum(t, 0, TalliedAll(was, groups).cnt)
  {
    SharesOf(|was|, groups, t);
    var x, r := |was| / |groups|, |was| % |groups|;
    var u := Tallied(was, groups, x, r, |was|);
    TalliedOk(was, groups, t, x, r, |was|);
    ResultIs(was, groups, t, x, r, u, Filled(Filling(was, u.excess, u.r), t, u.cnt, x, |t|));
    KeptTotal(was, groups, t, x, r, u);
    KeptSize(u.excess, |was|);
    CountBelowSize(Kept(u.excess, |was|), |was|);
  }

  // The first pass over all the shards.
  ghost function TalliedAll(was: seq<int>, groups: set<int>): (u: Tally)
    requires groups != {}
    ensures u.cnt.Keys == groups
  {
    TalliedKeys(was, groups, |was| / |groups|, |was| % |groups|, |was|);
    Tallied(was, groups, |was| / |groups|, |was| % |groups|, |was|)
  }

  // ---------------------------------------------------------------------------------------
  // The same, for whoever only knows the set of groups
  // ---------------------------------------------------------------------------------------

  // Every shard has a group, and every group the floor of the average or one more.
  ghost predicate Fair(s: seq<int>, groups: set<int>)
    requires groups != {}
  {
    && (forall p: nat :: p < |s| ==> s[p] in groups)
    && (forall g :: g in groups ==> |s| / |groups| <= CountIn(s, g) <= |s| / |groups| + 1)
  }

  // Fair, and no fair assignment lets more shards stay.
  ghost predicate MovesLeast(s: seq<int>, was: seq<int>, groups: set<int>)
    requires groups != {} && |s| == |was|
  {
    Fair(s, groups) && forall o: seq<int> :: |o| == |was| && Fair(o, groups) ==> |Staying(was, o)| <= |Staying(was, s)|
  }

  // What makeShardBalance leaves: no group at all, or a fair share that moves as little as can be.
  ghost predicate Rebalanced(s: seq<int>, was: seq<int>, groups: set<int>) {
    && |s| == |was|
    && if groups == {} then forall p: nat :: p < |s| ==> s[p] == 0 else MovesLeast(s, was, groups)
  }

  lemma FairIsBalanced(s: seq<int>, groups: set<int>, t: seq<int>)
    requires Ascending(t, groups) && groups != {}
    ensures Fair(s, groups) <==> IsBalanced(s, t, |s| / |groups|)
  {
    forall g ensures g in groups <==> g in t {
    }
    if IsBalanced(s, t, |s| / |groups|) {
      forall g | g in groups ensures |s| / |groups| <= CountIn(s, g) <= |s| / |groups| + 1 {
        var j :| 0 <= j < |t| && t[j] == g;
      }
    }
  }

  lemma BalancedIsRebalanced(was: seq<int>, groups: set<int>, t: seq<int>)
    requires Ascending(t, groups)
    ensures Rebalanced(Balanced(was, groups, t), was, groups)
  {
    if groups != {} {
      BalanceIsBalanced(was, groups, t);
      FairIsBalanced(Balanced(was, groups, t), groups, t);
      forall o: seq<int> | |o| == |was| && Fair(o, groups)
        ensures |Staying(was, o)| <= |Staying(was, Balanced(was, groups, t))|
      {
        FairIsBalanced(o, groups, t);
        BalanceIsBest(was, groups, t, o);
      }
    }
  }

  // One assignment meets the contract for every order of the groups, and there is such an order.
  lemma OnlyBalanced(was: seq<int>, groups: set<int>, s: seq<int>)
    requires forall t :: Ascending(t, groups) ==> s == Balanced(was, groups, t)
    ensures Rebalanced(s, was, groups)
  {
    var t := AscendingExists(groups);
    BalancedIsRebalanced(was, groups, t);
  }
}

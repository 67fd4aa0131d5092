/**
 The shard controller (src/shardctrler/server.go): makeShardBalance as it changes the shard
 array in place, and the commands that append configurations.
 */
module ShardCtrler {
  import opened Collections
  import opened Counting
  import opened ShardBalance
  import opened ShardConfig

  // ---------------------------------------------------------------------------------------
  // makeShardBalance
  // ---------------------------------------------------------------------------------------

  function CountFor(cnt: map<int, int>, gid: int): int {
    if gid in cnt then cnt[gid] else 0
  }

  // The counts of the first pass; a group without an entry has kept nothing.
  ghost predicate SameCounts(cnt: map<int, int>, all: map<int, int>) {
    cnt.Keys <= all.Keys && forall g :: g in all ==> all[g] == CountFor(cnt, g)
  }

  method FindExcess(shards: array<int>, groups: set<int>, x: nat, remainder: nat)
    returns (cnt: map<int, int>, r: nat, excess: seq<nat>)
    ensures var u := Tallied(shards[..], groups, x, remainder, shards.Length);
            SameCounts(cnt, u.cnt) && r == u.r && excess == u.excess
  {
    cnt, r, excess := map[], remainder, [];
    for i := 0 to shards.Length
      invariant var u := Tallied(shards[..], groups, x, remainder, i);
                SameCounts(cnt, u.cnt) && r == u.r && excess == u.excess
    {
      TalliedKeys(shards[..], groups, x, remainder, i);
      var gid := shards[i];
      if gid in groups {
        if gid !in cnt {
          cnt := cnt[gid := 0];
        }
        if cnt[gid] >= x {
          if cnt[gid] == x {
            if r == 0 {
              excess := excess + [i];
            } else {
              cnt := cnt[gid := cnt[gid] + 1];
              r := r - 1;
            }
          } else {
            excess := excess + [i];
          }
        } else {
          cnt := cnt[gid := cnt[gid] + 1];
        }
      } else {
        excess := excess + [i];
      }
    }
  }

  // Groups with their counts, in increasing order of group.
  ghost predicate Pairs(t: seq<(int, int)>, groups: set<int>, cnt: map<int, int>) {
    && (forall j, k :: 0 <= j < k < |t| ==> t[j].0 < t[k].0)
    && (forall j :: 0 <= j < |t| ==> t[j].0 in groups && t[j].1 == CountFor(cnt, t[j].0))
    && (forall g :: g in groups ==> Listed(t, g))
  }

  ghost predicate Listed(t: seq<(int, int)>, g: int) {
    exists j :: 0 <= j < |t| && t[j].0 == g
  }

  // Where a group belongs among sorted ones; the library's sort ends in the same order.
  method PlaceFor(t: seq<(int, int)>, gid: int) returns (k: nat)
    requires forall j, k :: 0 <= j < k < |t| ==> t[j].0 < t[k].0
    ensures k <= |t| && (forall j :: 0 <= j < k ==> t[j].0 < gid) && (forall j :: k <= j < |t| ==> t[j].0 >= gid)
  {
    k := 0;
    while k < |t| && t[k].0 < gid
      invariant k <= |t| && forall j :: 0 <= j < k ==> t[j].0 < gid
    {
      k := k + 1;
    }
  }

  method GroupsInOrder(groups: set<int>, cnt: map<int, int>) returns (t: seq<(int, int)>)
    ensures Pairs(t, groups, cnt)
  {
    t := [];
    var left := groups;
    while left != {}
      invariant left <= groups && Pairs(t, groups - left, cnt)
    {
      var gid := Pick(left);
      var k := PlaceFor(t, gid);
      InsertPair(t, k, gid, groups - left, cnt);
      t := t[..k] + [(gid, CountFor(cnt, gid))] + t[k..];
      assert groups - (left - {gid}) == (groups - left) + {gid};
      left := left - {gid};
    }
    assert groups - left == groups;
  }

  lemma InsertListed(t: seq<(int, int)>, k: nat, x: (int, int), q: seq<(int, int)>, g: int)
    requires k <= |t| && q == t[..k] + [x] + t[k..] && (Listed(t, g) || g == x.0)
    ensures Listed(q, g)
  {
    InsertedIs(t, k, x, q);
    if g == x.0 {
      assert q[k].0 == g;
    } else {
      var j :| 0 <= j < |t| && t[j].0 == g;
      assert q[if j < k then j else j + 1].0 == g;
    }
  }

  lemma InsertSorted(t: seq<(int, int)>, k: nat, x: (int, int), q: seq<(int, int)>)
    requires k <= |t| && q == t[..k] + [x] + t[k..] && forall j, m :: 0 <= j < m < |t| ==> t[j].0 < t[m].0
    requires (forall j :: 0 <= j < k ==> t[j].0 < x.0) && (forall j :: k <= j < |t| ==> t[j].0 > x.0)
    ensures forall j, m :: 0 <= j < m < |q| ==> q[j].0 < q[m].0
  {
    InsertedIs(t, k, x, q);
  }

  lemma InsertPair(t: seq<(int, int)>, k: nat, gid: int, groups: set<int>, cnt: map<int, int>)
    requires Pairs(t, groups, cnt) && gid !in groups && k <= |t|
    requires (forall j :: 0 <= j < k ==> t[j].0 < gid) && (forall j :: k <= j < |t| ==> t[j].0 >= gid)
    ensures Pairs(t[..k] + [(gid, CountFor(cnt, gid))] + t[k..], groups + {gid}, cnt)
  {
    var x := (gid, CountFor(cnt, gid));
    var q := t[..k] + [x] + t[k..];
    assert forall j :: k <= j < |t| ==> t[j].0 != gid;
    InsertSorted(t, k, x, q);
    forall g | g in groups + {gid} ensures Listed(q, g) {
      assert g in groups ==> Listed(t, g);
      InsertListed(t, k, x, q, g);
    }
    InsertedIs(t, k, x, q);
  }

  lemma InsertedIs<T>(t: seq<T>, k: nat, x: T, q: seq<T>)
    requires k <= |t| && q == t[..k] + [x] + t[k..]
    ensures |q| == |t| + 1 && q[k] == x && forall j :: 0 <= j < |q| && j != k ==> q[j] == t[if j < k then j else j - 1]
  {
  }

  ghost function Gids(t: seq<(int, int)>): seq<int> {
    seq(|t|, j requires 0 <= j < |t| => t[j].0)
  }

  lemma PairsAscend(t: seq<(int, int)>, groups: set<int>, cnt: map<int, int>)
    requires Pairs(t, groups, cnt)
    ensures Ascending(Gids(t), groups)
  {
    forall g | g in groups ensures g in Gids(t) {
      assert Listed(t, g);
      var j :| 0 <= j < |t| && t[j].0 == g;
      assert Gids(t)[j] == g;
    }
  }

  lemma {:induction false} AscendingUnique(a: seq<int>, b: seq<int>, groups: set<int>)
    requires Ascending(a, groups) && Ascending(b, groups)
    ensures a == b
    decreases |a|
  {
    AscendingSize(a, groups);
    AscendingSize(b, groups);
    if a != [] {
      var m := |a| - 1;
      assert a[m] in b && b[m] in a;
      assert a[m] == b[m];
      AscendingFront(a, groups);
      AscendingFront(b, groups);
      AscendingUnique(a[..m], b[..m], groups - {a[m]});
      assert a == a[..m] + [a[m]] && b == b[..m] + [b[m]];
    }
  }

  lemma AscendingFront(a: seq<int>, groups: set<int>)
    requires Ascending(a, groups) && a != []
    ensures Ascending(a[..|a| - 1], groups - {a[|a| - 1]})
  {
    var m := |a| - 1;
    forall g | g in groups - {a[m]} ensures g in a[..m] {
      assert g in a;
    }
  }

  // Everything the second pass relies on.
  ghost predicate Passing(was: seq<int>, groups: set<int>, t: seq<int>, x: nat, r: nat, u: Tally) {
    Ascending(t, groups) && Shares(|was|, t, x, r) && TallyOk(u, was, groups, t, x, r, |was|)
  }

  // Hand the shard on top of the stack to gid.
  method PopTo(shards: array<int>, stack: seq<nat>, gid: int, ghost r: nat, ghost was: seq<int>, ghost all: seq<nat>)
    returns (stack': seq<nat>)
    requires Stacked(Filling(shards[..], stack, r), was, all) && ExcessList(all, |was|) && stack != []
    modifies shards
    ensures Filling(shards[..], stack', r) == Give(old(Filling(shards[..], stack, r)), gid)
  {
    assert stack[|stack| - 1] == all[|stack| - 1];
    shards[stack[|stack| - 1]] := gid;
    stack' := stack[..|stack| - 1];
  }

  // Bring a group up to the floor.
  method ServeFloor(shards: array<int>, excess: seq<nat>, gid: int, count: int, x: nat,
                    ghost r: nat, ghost was: seq<int>, ghost all: seq<nat>)
    returns (excess': seq<nat>, i: int)
    requires Stacked(Filling(shards[..], excess, r), was, all) && ExcessList(all, |was|)
             && Deficit(count, x) <= |excess|
    modifies shards
    ensures Filling(shards[..], excess', r) == GiveMany(old(Filling(shards[..], excess, r)), gid, Deficit(count, x))
    ensures i == count + Deficit(count, x)
  {
    ghost var f := Filling(shards[..], excess, r);
    excess', i := excess, count;
    while i < x
      invariant count <= i && (i <= x || i == count)
      invariant Filling(shards[..], excess', r) == GiveMany(f, gid, i - count)
    {
      GiveManyIs(f, was, all, gid, i - count);
      excess' := PopTo(shards, excess', gid, r, was, all);
      i := i + 1;
    }
  }

  // Serve one group: the stack never runs empty.
  method Serve(shards: array<int>, excess: seq<nat>, r: nat, gid: int, count: int, x: nat,
               ghost was: seq<int>, ghost all: seq<nat>, ghost t: seq<int>, ghost cnt: map<int, int>, ghost k: nat)
    returns (excess': seq<nat>, r': nat)
    requires k < |t| && Distinct(t) && Defined(t, cnt) && ExcessList(all, |was|) && t[k] == gid && cnt[gid] == count
    requires forall j :: 0 <= j < |t| ==> 0 <= cnt[t[j]] <= x + 1
    requires FillOk(Filling(shards[..], excess, r), was, all, t, cnt, x, k)
    modifies shards
    ensures Filling(shards[..], excess', r') == FillGroup(old(Filling(shards[..], excess, r)), gid, count, x)
  {
    ghost var f := Filling(shards[..], excess, r);
    FillGroupOk(f, was, all, t, cnt, x, k);
    GiveManyIs(f, was, all, gid, Deficit(count, x));
    var i;
    excess', i := ServeFloor(shards, excess, gid, count, x, r, was, all);
    r' := r;
    if i == x && r' > 0 {
      excess' := PopTo(shards, excess', gid, r, was, all);
      r' := r' - 1;
    }
  }

  method HandOut(shards: array<int>, excess: seq<nat>, r: nat, t: seq<(int, int)>, x: nat,
                 ghost was: seq<int>, ghost groups: set<int>, ghost remainder: nat, ghost u: Tally)
    requires was == shards[..] && excess == u.excess && r == u.r && Passing(was, groups, Gids(t), x, remainder, u)
    requires forall j :: 0 <= j < |t| ==> t[j].1 == CountFor(u.cnt, t[j].0)
    modifies shards
    ensures shards[..] == Filled(Filling(was, u.excess, u.r), Gids(t), u.cnt, x, |t|).shards
  {
    ghost var gids, f0 := Gids(t), Filling(was, u.excess, u.r);
    StartsOk(was, groups, gids, x, remainder, u);
    var stack, left := excess, r;
    for k := 0 to |t|
      invariant Filling(shards[..], stack, left) == Filled(f0, gids, u.cnt, x, k)
    {
      FilledOk(f0, was, u.excess, gids, u.cnt, x, k);
      stack, left := Serve(shards, stack, left, t[k].0, t[k].1, x, was, u.excess, gids, u.cnt, k);
    }
  }

  // Fair with as few moves as can be, and a function of the old assignment and the set of groups,
  // whatever order the map of groups is walked in.
  method MakeShardBalance(shards: array<int>, groups: set<int>)
    modifies shards
    ensures Rebalanced(shards[..], old(shards[..]), groups)
    ensures forall t :: Ascending(t, groups) ==> shards[..] == Balanced(old(shards[..]), groups, t)
  {
    ghost var was := shards[..];
    if |groups| == 0 {
      assert groups == {};
      for i := 0 to shards.Length
        invariant forall j :: 0 <= j < i ==> shards[j] == 0
      {
        shards[i] := 0;
      }
      return;
    }
    var x, remainder := shards.Length / |groups|, shards.Length % |groups|;
    var cnt, r, excess := FindExcess(shards, groups, x, remainder);
    ghost var u := Tallied(was, groups, x, remainder, |was|);
    TalliedKeys(was, groups, x, remainder, |was|);
    var t := GroupsInOrder(groups, cnt);
    PairsAscend(t, groups, cnt);
    SharesOf(|was|, groups, Gids(t));
    TalliedOk(was, groups, Gids(t), x, remainder, |was|);
    HandOut(shards, excess, r, t, x, was, groups, remainder, u);
    forall t' | Ascending(t', groups) ensures shards[..] == Balanced(was, groups, t') {
      AscendingUnique(Gids(t), t', groups);
    }
    OnlyBalanced(was, groups, shards[..]);
  }

  // ---------------------------------------------------------------------------------------
  // The controller
  // ---------------------------------------------------------------------------------------

  datatype Outcome = Done | Duplicate | Panic

  // What a command other than a query leaves in lastOp: no configuration to report.
  const NO_CONFIG := Config(0, [], map[])

  // ---- The controller as a function of its commands ----

  // The configurations, and each client's last call with the configuration a query got.
  datatype Ctrl = Ctrl(configs: seq<Config>, lastOp: map<int, (int, Config)>)

  datatype Request = Join(servers: Servers) | Leave(gids: seq<int>) | Move(shard: int, gid: int) | Query(num: int)

  datatype Call = Call(client: int, call: int, request: Request)

  function FirstCtrl(): Ctrl {
    Ctrl([FirstConfig()], map[])
  }

  predicate IsDuplicate(s: Ctrl, c: Call) {
    c.client in s.lastOp && s.lastOp[c.client].0 >= c.call
  }

  // The one balanced assignment, whatever order the groups are walked in.
  ghost function BalanceOf(was: seq<int>, groups: set<int>): seq<int> {
    assert exists t :: Ascending(t, groups) by {
      var t := AscendingExists(groups);
    }
    var t :| Ascending(t, groups);
    Balanced(was, groups, t)
  }

  // A shard that does not exist and a number below -1 are an index out of range.
  predicate Panics(c: Call) {
    match c.request
    case Move(shard, _) => !(0 <= shard < NSHARDS)
    case Query(num) => num < -1
    case _ => false
  }

  function OutcomeOf(s: Ctrl, c: Call): Outcome {
    if IsDuplicate(s, c) then Duplicate else if Panics(c) then Panic else Done
  }

  function GroupsAfter(groups: Servers, request: Request): Servers {
    match request
    case Join(servers) => groups + servers
    case Leave(gids) => groups - (set g | g in gids)
    case _ => groups
  }

  ghost function ShardsAfter(config: Config, request: Request): seq<int> {
    match request
    case Move(shard, gid) => if 0 <= shard < |config.shards| then config.shards[shard := gid] else config.shards
    case _ => BalanceOf(config.shards, GroupsAfter(config.groups, request).Keys)
  }

  ghost function CtrlNext(s: Ctrl, c: Call): Ctrl {
    if OutcomeOf(s, c) != Done || s.configs == [] then s
    else if c.request.Query? then
      Ctrl(s.configs, s.lastOp[c.client := (c.call, AnswerTo(s.configs, c.request.num))])
    else
      var last := s.configs[|s.configs| - 1];
      var next := Config(|s.configs|, ShardsAfter(last, c.request), GroupsAfter(last.groups, c.request));
      Ctrl(s.configs + [next], s.lastOp[c.client := (c.call, NO_CONFIG)])
  }

  lemma BalanceIs(was: seq<int>, groups: set<int>)
    ensures Rebalanced(BalanceOf(was, groups), was, groups)
    ensures forall t :: Ascending(t, groups) ==> Balanced(was, groups, t) == BalanceOf(was, groups)
  {
    var t := AscendingExists(groups);
    forall t' | Ascending(t', groups) ensures Balanced(was, groups, t') == Balanced(was, groups, t) {
      AscendingUnique(t, t', groups);
    }
    BalancedIsRebalanced(was, groups, t);
  }

  // A command appends at most one configuration, with the next number, and changes none.
  lemma ConfigsGrow(s: Ctrl, c: Call)
    requires Numbered(s.configs)
    ensures Numbered(CtrlNext(s, c).configs) && s.configs <= CtrlNext(s, c).configs
  {
    if OutcomeOf(s, c) == Done && !c.request.Query? {
      var last := s.configs[|s.configs| - 1];
      BalanceSize(last.shards, GroupsAfter(last.groups, c.request).Keys);
    }
  }

  lemma BalanceSize(was: seq<int>, groups: set<int>)
    ensures |BalanceOf(was, groups)| == |was|
  {
    BalanceIs(was, groups);
  }

  // What a join or a leave comes to, once the groups and their balance are known.
  lemma RegroupIs(s: Ctrl, c: Call, groups: Servers, shards: seq<int>)
    requires s.configs != [] && !IsDuplicate(s, c) && (c.request.Join? || c.request.Leave?)
    requires var last := s.configs[|s.configs| - 1];
             groups == GroupsAfter(last.groups, c.request) && shards == BalanceOf(last.shards, groups.Keys)
    ensures CtrlNext(s, c) == Ctrl(s.configs + [Config(|s.configs|, shards, groups)],
                                   s.lastOp[c.client := (c.call, NO_CONFIG)])
  {
  }

  class ShardCtrler {
    var configs: seq<Config>
    // The last call of each client, and the configuration a query got.
    var lastOp: map<int, (int, Config)>

    ghost predicate Valid()
      reads this
    {
      Numbered(configs)
    }

    constructor ()
      ensures Valid() && View() == FirstCtrl()
    {
      configs := [FirstConfig()];
      lastOp := map[];
    }

    function View(): Ctrl
      reads this
    {
      Ctrl(configs, lastOp)
    }

    predicate Executed(client: int, call: int)
      reads this
    {
      client in lastOp && lastOp[client].0 >= call
    }

    function Latest(): Config
      requires configs != []
      reads this
    {
      configs[|configs| - 1]
    }

    // Append a configuration; the earlier ones stay as they are.
    method Append(client: int, call: int, config: Config)
      requires Valid() && config.num == |configs| && |config.shards| == NSHARDS
      modifies this
      ensures Valid() && configs == old(configs) + [config]
      ensures lastOp == old(lastOp)[client := (call, NO_CONFIG)]
    {
      configs := configs + [config];
      lastOp := lastOp[client := (call, NO_CONFIG)];
    }

    method Rebalance(was: seq<int>, groups: Servers) returns (shards: seq<int>)
      requires |was| == NSHARDS
      ensures Rebalanced(shards, was, groups.Keys) && shards == BalanceOf(was, groups.Keys)
    {
      var a := new int[NSHARDS](i requires 0 <= i < NSHARDS => was[i]);
      assert a[..] == was;
      MakeShardBalance(a, groups.Keys);
      shards := a[..];
      BalanceIs(was, groups.Keys);
      var t := AscendingExists(groups.Keys);
    }

    method ExecJoin(client: int, call: int, servers: Servers) returns (outcome: Outcome)
      requires Valid()
      modifies this
      ensures Valid() && outcome == if old(Executed(client, call)) then Duplicate else Done
      ensures outcome == Duplicate ==> configs == old(configs) && lastOp == old(lastOp)
      ensures outcome == Done ==>
                && |configs| == |old(configs)| + 1 && configs[..|old(configs)|] == old(configs)
                && Latest().groups == old(Latest()).groups + servers
                && Rebalanced(Latest().shards, old(Latest()).shards, Latest().groups.Keys)
                && lastOp == old(lastOp)[client := (call, NO_CONFIG)]
      ensures View() == CtrlNext(old(View()), Call(client, call, Join(servers)))
      ensures outcome == OutcomeOf(old(View()), Call(client, call, Join(servers)))
    {
      if Executed(client, call) {
        return Duplicate;
      }
      var config := Latest();
      var groups := config.groups + servers;
      var shards := Rebalance(config.shards, groups);
      RegroupIs(View(), Call(client, call, Join(servers)), groups, shards);
      Append(client, call, Config(|configs|, shards, groups));
      return Done;
    }

    method ExecLeave(client: int, call: int, gids: seq<int>) returns (outcome: Outcome)
      requires Valid()
      modifies this
      ensures Valid() && outcome == if old(Executed(client, call)) then Duplicate else Done
      ensures outcome == Duplicate ==> configs == old(configs) && lastOp == old(lastOp)
      ensures outcome == Done ==>
                && |configs| == |old(configs)| + 1 && configs[..|old(configs)|] == old(configs)
                && Latest().groups == old(Latest()).groups - (set g | g in gids)
                && Rebalanced(Latest().shards, old(Latest()).shards, Latest().groups.Keys)
                && lastOp == old(lastOp)[client := (call, NO_CONFIG)]
      ensures View() == CtrlNext(old(View()), Call(client, call, Leave(gids)))
      ensures outcome == OutcomeOf(old(View()), Call(client, call, Leave(gids)))
    {
      if Executed(client, call) {
        return Duplicate;
      }
      var config := Latest();
      var groups := config.groups;
      for i := 0 to |gids|
        invariant groups == config.groups - (set g | g in gids[..i])
      {
        assert gids[..i + 1] == gids[..i] + [gids[i]];
        groups := groups - {gids[i]};
      }
      assert gids[..|gids|] == gids;
      var shards := Rebalance(config.shards, groups);
      RegroupIs(View(), Call(client, call, Leave(gids)), groups, shards);
      Append(client, call, Config(|configs|, shards, groups));
      return Done;
    }

    // Moves one shard, to any group; a shard that does not exist is an index out of range.
    method ExecMove(client: int, call: int, shard: int, gid: int) returns (outcome: Outcome)
      requires Valid()
      modifies this
      ensures Valid()
      ensures outcome == if old(Executed(client, call)) then Duplicate else if 0 <= shard < NSHARDS then Done else Panic
      ensures outcome != Done ==> configs == old(configs) && lastOp == old(lastOp)
      ensures outcome == Done ==>
                && |configs| == |old(configs)| + 1 && configs[..|old(configs)|] == old(configs)
                && Latest().groups == old(Latest()).groups && Latest().shards == old(Latest()).shards[shard := gid]
                && lastOp == old(lastOp)[client := (call, NO_CONFIG)]
      ensures View() == CtrlNext(old(View()), Call(client, call, Move(shard, gid)))
      ensures outcome == OutcomeOf(old(View()), Call(client, call, Move(shard, gid)))
    {
      if Executed(client, call) {
        return Duplicate;
      }
      var config := Latest();
      if !(0 <= shard < |config.shards|) {
        return Panic;
      }
      Append(client, call, Config(|configs|, config.shards[shard := gid], config.groups));
      return Done;
    }

    // The configuration asked for, the latest for -1 and for numbers beyond it.
    method ExecQuery(client: int, call: int, num: int) returns (outcome: Outcome)
      requires Valid()
      modifies `lastOp
      ensures Valid()
      ensures outcome == if old(Executed(client, call)) then Duplicate else if num >= -1 then Done else Panic
      ensures outcome != Done ==> lastOp == old(lastOp)
      ensures outcome == Done ==>
                lastOp == old(lastOp)[client := (call, AnswerTo(configs, num))]
      ensures View() == CtrlNext(old(View()), Call(client, call, Query(num)))
      ensures outcome == OutcomeOf(old(View()), Call(client, call, Query(num)))
    {
      if Executed(client, call) {
        return Duplicate;
      }
      var answer := Latest();
      if num != -1 && num < |configs| {
        if num < 0 {
          return Panic;
        }
        answer := configs[num];
      }
      lastOp := lastOp[client := (call, answer)];
      return Done;
    }
  }
}

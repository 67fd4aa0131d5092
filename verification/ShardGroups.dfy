/**
 What one group of the sharded store keeps: its serving and pending shards are exactly its
 shards of the configuration, and a later state is consistent with every earlier one, so that
 what a lagging server computes is still true.
 */
module ShardGroups {
  import opened KvHistory
  import opened KvStore
  import opened ShardConfig
  import opened ShardServer
  import opened ShardCluster

  // The group has served s in configuration n, or had it installed there.
  ghost predicate Installed(plan: Plan, x: Group, n: nat, s: nat)
    requires PlanOk(plan)
  {
    && 1 <= n && s < NSHARDS && Owner(plan, n, s) == x.gid
    && (n < x.config.num || (n == x.config.num && s !in x.reqs))
  }

  // The group owned s in configuration m, and has moved to a later one in which it lost s.
  ghost predicate Passed(plan: Plan, x: Group, m: nat, s: nat)
    requires PlanOk(plan)
  {
    1 <= m < x.config.num && s < NSHARDS && Owner(plan, m, s) == x.gid && Owner(plan, m + 1, s) != x.gid
  }

  ghost predicate HoldsShards(plan: Plan, x: Group)
    requires PlanOk(plan)
  {
    && x.mine !! x.reqs.Keys
    && (forall s: nat :: s in x.mine || s in x.reqs <==> s < NSHARDS && Owner(plan, x.config.num, s) == x.gid)
    && (forall s: nat :: s in x.reqs ==>
        x.reqs[s] >= 1 && x.reqs[s] + 1 == x.config.num && Owner(plan, x.reqs[s], s) != x.gid)
  }

  ghost predicate KeepsRecords(plan: Plan, x: Group)
    requires PlanOk(plan)
  {
    && (forall k :: k in x.parked ==> Passed(plan, x, k.0, k.1))
    && (forall k :: k in x.parked ==> forall key :: key in x.parked[k] ==> KeyShard(key) == k.1)
    && (forall k :: k in x.gc ==> Installed(plan, x, k.0 + 1, k.1))
  }

  ghost predicate GroupOk(plan: Plan, x: Group)
    requires PlanOk(plan)
  {
    && x.gid != 0 && x.config == plan(x.config.num)
    && HoldsShards(plan, x) && KeepsRecords(plan, x)
    && (forall key :: key in x.data ==> KeyShard(key) in x.mine)
  }

  // ---------------------------------------------------------------------------------------
  // Earlier and later states of one group
  // ---------------------------------------------------------------------------------------

  ghost predicate OpsGrow(a: LastOps, b: LastOps) {
    forall c :: c in a ==> c in b && a[c].call <= b[c].call
  }

  ghost predicate Later(x: Group, y: Group) {
    && x.gid == y.gid && x.config.num <= y.config.num
    && (x.config.num == y.config.num ==> y.reqs.Keys <= x.reqs.Keys)
    && OpsGrow(x.lastOps, y.lastOps)
    && (forall k :: k in y.parked && k.0 < x.config.num ==> k in x.parked && x.parked[k] == y.parked[k])
    && x.gc <= y.gc
  }

  lemma LaterStill(x: Group, y: Group, z: Group)
    requires Later(x, y) && Later(y, z)
    ensures Later(x, z)
  {
  }

  lemma SoonerOrLater(x: Group)
    ensures Later(x, x)
  {
  }

  lemma InstalledStays(plan: Plan, x: Group, y: Group, n: nat, s: nat)
    requires PlanOk(plan) && Later(x, y) && Installed(plan, x, n, s)
    ensures Installed(plan, y, n, s)
  {
  }

  lemma PassedStays(plan: Plan, x: Group, y: Group, m: nat, s: nat)
    requires PlanOk(plan) && Later(x, y) && Passed(plan, x, m, s)
    ensures Passed(plan, y, m, s)
  {
  }

  // ---------------------------------------------------------------------------------------
  // One command
  // ---------------------------------------------------------------------------------------

  // The commands a group can commit: the next configuration only with nothing pending, a shard
  // only for its owner, and only that shard's keys.
  ghost predicate Proper(plan: Plan, x: Group, command: Command)
    requires PlanOk(plan)
  {
    match command
    case ClientOp(_) => true
    case NewConfig(c) =>
      c == plan(c.num) && (c.num <= x.config.num || (c.num == x.config.num + 1 && x.reqs == map[]))
    case Install(r) =>
      && r.num >= 1 && r.shard < NSHARDS && Owner(plan, r.num + 1, r.shard) == x.gid
      && Owner(plan, r.num, r.shard) != x.gid
      && forall key :: key in r.data ==> KeyShard(key) == r.shard
    case Collect(_, _) => true
  }

  lemma OpKeepsGroup(plan: Plan, x: Group, op: Op)
    requires PlanOk(plan) && GroupOk(plan, x)
    ensures GroupOk(plan, ExecOp(x, op)) && Later(x, ExecOp(x, op))
  {
    var y := ExecOp(x, op);
    OpIsLater(x, op);
    forall k | k in x.gc ensures Installed(plan, y, k.0 + 1, k.1) {
      assert Installed(plan, x, k.0 + 1, k.1);
    }
    forall k | k in y.parked ensures Passed(plan, y, k.0, k.1) {
      assert Passed(plan, x, k.0, k.1);
    }
  }

  lemma OpIsLater(x: Group, op: Op)
    ensures Later(x, ExecOp(x, op))
  {
  }

  lemma CollectKeepsGroup(plan: Plan, x: Group, num: nat, shard: nat)
    requires PlanOk(plan) && GroupOk(plan, x)
    ensures GroupOk(plan, CollectShard(x, num, shard)) && Later(x, CollectShard(x, num, shard))
  {
    var y := CollectShard(x, num, shard);
    forall k | k in x.gc ensures Installed(plan, y, k.0 + 1, k.1) {
      assert Installed(plan, x, k.0 + 1, k.1);
    }
    forall k | k in y.parked ensures Passed(plan, y, k.0, k.1) {
      assert Passed(plan, x, k.0, k.1);
    }
  }

  lemma InstallIsLater(x: Group, r: ShardReply)
    ensures Later(x, InstallShard(x, r))
  {
  }

  lemma InstallKeepsGroup(plan: Plan, x: Group, r: ShardReply)
    requires PlanOk(plan) && GroupOk(plan, x) && Proper(plan, x, Install(r))
    ensures GroupOk(plan, InstallShard(x, r)) && Later(x, InstallShard(x, r))
  {
    var y := InstallShard(x, r);
    InstallIsLater(x, r);
    forall k | k in y.gc ensures Installed(plan, y, k.0 + 1, k.1) {
      if k in x.gc {
        InstalledStays(plan, x, y, k.0 + 1, k.1);
      }
    }
    forall k | k in y.parked ensures Passed(plan, y, k.0, k.1) {
      assert Passed(plan, x, k.0, k.1);
    }
  }

  lemma ConfigIsLater(plan: Plan, x: Group, c: Config)
    requires PlanOk(plan) && GroupOk(plan, x) && Proper(plan, x, NewConfig(c))
    ensures Later(x, ApplyConfig(x, c))
  {
    if c.num > x.config.num {
      var y := ApplyConfig(x, c);
      forall k | k in y.parked && k.0 < x.config.num ensures k in x.parked && x.parked[k] == y.parked[k] {
      }
    }
  }

  lemma ConfigHoldsShards(plan: Plan, x: Group, c: Config)
    requires PlanOk(plan) && GroupOk(plan, x) && Proper(plan, x, NewConfig(c))
    ensures HoldsShards(plan, ApplyConfig(x, c))
    ensures forall key :: key in ApplyConfig(x, c).data ==> KeyShard(key) in ApplyConfig(x, c).mine
  {
    if x.config.num == 0 {
      assert forall s: nat :: s < NSHARDS ==> Owner(plan, 0, s) == 0;
    }
  }

  lemma ConfigKeepsRecords(plan: Plan, x: Group, c: Config)
    requires PlanOk(plan) && KeepsRecords(plan, x) && Later(x, ApplyConfigIn(plan, x, c))
    requires x.config == plan(x.config.num) && c == plan(c.num) && c.num == x.config.num + 1
    requires x.gid != 0
    ensures KeepsRecords(plan, ApplyConfig(x, c))
  {
    var y := ApplyConfig(x, c);
    forall k | k in y.gc ensures Installed(plan, y, k.0 + 1, k.1) {
      InstalledStays(plan, x, y, k.0 + 1, k.1);
    }
    forall k | k in y.parked
      ensures Passed(plan, y, k.0, k.1) && forall key :: key in y.parked[k] ==> KeyShard(key) == k.1
    {
      if k.0 == x.config.num {
        NothingParkedYet(plan, x, k.1);
      } else {
        PassedStays(plan, x, y, k.0, k.1);
      }
    }
  }

  ghost function ApplyConfigIn(plan: Plan, x: Group, c: Config): Group {
    if |x.config.shards| == NSHARDS && |c.shards| == NSHARDS then ApplyConfig(x, c) else x
  }

  lemma NothingParkedYet(plan: Plan, x: Group, s: nat)
    requires PlanOk(plan) && KeepsRecords(plan, x)
    ensures (x.config.num, s) !in x.parked
  {
    var k := (x.config.num, s);
    assert k in x.parked ==> Passed(plan, x, k.0, k.1);
  }

  lemma ConfigKeepsGroup(plan: Plan, x: Group, c: Config)
    requires PlanOk(plan) && GroupOk(plan, x) && Proper(plan, x, NewConfig(c))
    ensures GroupOk(plan, ApplyConfig(x, c)) && Later(x, ApplyConfig(x, c))
  {
    ConfigIsLater(plan, x, c);
    ConfigHoldsShards(plan, x, c);
    if c.num > x.config.num {
      ConfigKeepsRecords(plan, x, c);
    }
  }

  lemma CommandKeepsGroup(plan: Plan, x: Group, command: Command)
    requires PlanOk(plan) && GroupOk(plan, x) && Proper(plan, x, command)
    ensures Shaped(x, command)
    ensures GroupOk(plan, Exec(x, command)) && Later(x, Exec(x, command))
  {
    match command
    case ClientOp(op) => OpKeepsGroup(plan, x, op);
    case NewConfig(c) => ConfigKeepsGroup(plan, x, c);
    case Install(r) => InstallKeepsGroup(plan, x, r);
    case Collect(num, shard) => CollectKeepsGroup(plan, x, num, shard);
  }
}

/**
 Each shard has one holder: the group that serves it or the group that parked it, over every
 sequence of reconfigurations, installs and collections.
 */
module ShardTokens {
  import opened KvHistory
  import opened ShardConfig
  import opened ShardServer
  import opened ShardCluster
  import opened ShardGroups

  type Groups = map<int, Group>

  // The groups' current states; every owner in the plan is one of them.
  ghost predicate GroupsOk(plan: Plan, cur: Groups)
    requires PlanOk(plan)
  {
    && (forall g :: g in cur ==> GroupOk(plan, cur[g]) && cur[g].gid == g)
    && (forall n: nat, s: nat :: s < NSHARDS ==> Owner(plan, n, s) == 0 || Owner(plan, n, s) in cur)
  }

  // h parked s when it left configuration m, and the next owner has not installed it.
  ghost predicate Waiting(plan: Plan, cur: Groups, h: int, m: nat, s: nat)
    requires PlanOk(plan)
  {
    && h in cur && s < NSHARDS && Passed(plan, cur[h], m, s)
    && !Taken(plan, cur, m, s)
  }

  ghost predicate Taken(plan: Plan, cur: Groups, m: nat, s: nat)
    requires PlanOk(plan) && s < NSHARDS
  {
    var g := Owner(plan, m + 1, s);
    g in cur && Installed(plan, cur[g], m + 1, s)
  }

  // A group serves s exactly when it holds the token.
  ghost predicate ServedByHolder(cur: Groups, t: Token, s: nat) {
    && (forall g :: g in cur ==> (s in cur[g].mine <==> t == Serving(g)))
    && (t.Serving? ==> t.gid in cur)
  }

  // The token is parked exactly where the shard waits, and the contents are there.
  ghost predicate ParkedByHolder(plan: Plan, cur: Groups, t: Token, s: nat)
    requires PlanOk(plan)
  {
    && (forall h: int, m: nat :: t == Parked(h, m) <==> Waiting(plan, cur, h, m, s))
    && (t.Parked? ==> t.gid in cur && (t.num, s) in cur[t.gid].parked)
  }

  // Nobody has a shard of configuration n before the previous owner has left n - 1.
  ghost predicate InTurn(plan: Plan, cur: Groups, s: nat)
    requires PlanOk(plan) && s < NSHARDS
  {
    forall g, n: nat :: g in cur && n >= 2 && Installed(plan, cur[g], n, s) ==> PreviousLeft(plan, cur, g, n, s)
  }

  ghost predicate PreviousLeft(plan: Plan, cur: Groups, g: int, n: nat, s: nat)
    requires PlanOk(plan) && s < NSHARDS && n >= 1
  {
    var h := Owner(plan, n - 1, s);
    h != g && h in cur ==> cur[h].config.num >= n
  }

  // The shard has a holder from the moment its first owner starts.
  ghost predicate FromFirstOn(plan: Plan, cur: Groups, t: Token, s: nat)
    requires PlanOk(plan) && s < NSHARDS
  {
    var g := Owner(plan, 1, s);
    g in cur ==> (cur[g].config.num == 0 <==> t == NoHolder)
  }

  ghost predicate TokenOk(plan: Plan, cur: Groups, t: Token, s: nat)
    requires PlanOk(plan) && s < NSHARDS
  {
    && ServedByHolder(cur, t, s) && ParkedByHolder(plan, cur, t, s)
    && InTurn(plan, cur, s) && FromFirstOn(plan, cur, t, s)
  }

  // ---------------------------------------------------------------------------------------
  // Commands that move nothing
  // ---------------------------------------------------------------------------------------

  // Nothing that tokens depend on changes for shard s, except that a parked copy that is not
  // the token may go.
  ghost predicate SameForShard(x: Group, y: Group, t: Token, s: nat) {
    && x.gid == y.gid && x.config == y.config && (s in x.mine <==> s in y.mine) && (s in x.reqs <==> s in y.reqs)
    && (t.Parked? && t.gid == x.gid && (t.num, s) in x.parked ==> (t.num, s) in y.parked)
  }

  lemma SameWaiting(plan: Plan, cur: Groups, g: int, y: Group, t: Token, s: nat, h: int, m: nat)
    requires PlanOk(plan) && s < NSHARDS && g in cur && SameForShard(cur[g], y, t, s)
    ensures Waiting(plan, cur, h, m, s) <==> Waiting(plan, cur[g := y], h, m, s)
  {
  }

  lemma SameKeepsToken(plan: Plan, cur: Groups, g: int, y: Group, t: Token, s: nat)
    requires PlanOk(plan) && s < NSHARDS && TokenOk(plan, cur, t, s) && g in cur && cur[g].gid == g
    requires SameForShard(cur[g], y, t, s)
    ensures TokenOk(plan, cur[g := y], t, s)
  {
    var now := cur[g := y];
    forall h: int, m: nat ensures t == Parked(h, m) <==> Waiting(plan, now, h, m, s) {
      SameWaiting(plan, cur, g, y, t, s, h, m);
    }
    forall k, n: nat | k in now && n >= 2 && Installed(plan, now[k], n, s) ensures PreviousLeft(plan, now, k, n, s) {
      assert Installed(plan, cur[k], n, s);
      assert PreviousLeft(plan, cur, k, n, s);
    }
  }

  // ---------------------------------------------------------------------------------------
  // Installing a shard
  // ---------------------------------------------------------------------------------------

  // g installs s, pending from configuration m, whose owner has left m.
  lemma InstallWaiting(plan: Plan, cur: Groups, g: int, y: Group, s: nat, h: int, m: nat, m': nat, h': int)
    requires PlanOk(plan) && s < NSHARDS && g in cur && cur[g].gid == g && y.gid == g && y.config == cur[g].config
    requires cur[g].config.num == m + 1 && s in cur[g].reqs && s !in y.reqs
    requires Owner(plan, m + 1, s) == g && h == Owner(plan, m, s) && h != g
    ensures Waiting(plan, cur[g := y], h', m', s) <==> Waiting(plan, cur, h', m', s) && m' != m
  {
  }

  lemma InstallMovesToken(plan: Plan, cur: Groups, g: int, y: Group, t: Token, s: nat, h: int, m: nat)
    requires PlanOk(plan) && s < NSHARDS && TokenOk(plan, cur, t, s) && g in cur && h in cur
    requires cur[g].gid == g && cur[h].gid == h && y.gid == g && y.config == cur[g].config
    requires cur[g].config.num == m + 1 && s in cur[g].reqs && s !in y.reqs && s !in cur[g].mine && s in y.mine
    requires m >= 1 && Owner(plan, m + 1, s) == g && h == Owner(plan, m, s) && h != g && cur[h].config.num > m
    ensures t == Parked(h, m) && TokenOk(plan, cur[g := y], Serving(g), s)
  {
    var now := cur[g := y];
    assert Waiting(plan, cur, h, m, s);
    forall h': int, m': nat ensures Serving(g) == Parked(h', m') <==> Waiting(plan, now, h', m', s) {
      InstallWaiting(plan, cur, g, y, s, h, m, m', h');
      assert t == Parked(h', m') <==> Waiting(plan, cur, h', m', s);
    }
    forall k, n: nat | k in now && n >= 2 && Installed(plan, now[k], n, s) ensures PreviousLeft(plan, now, k, n, s) {
      if k != g || n != m + 1 {
        assert Installed(plan, cur[k], n, s);
        assert PreviousLeft(plan, cur, k, n, s);
      }
    }
  }

  // ---------------------------------------------------------------------------------------
  // Moving to the next configuration
  // ---------------------------------------------------------------------------------------

  // g moves from configuration n to n + 1 with nothing pending.
  ghost predicate Moves(plan: Plan, x: Group, y: Group)
    requires PlanOk(plan)
  {
    && GroupOk(plan, x) && GroupOk(plan, y) && x.gid == y.gid && x.reqs == map[] && y.config.num == x.config.num + 1
    && y == ApplyConfig(x, y.config)
  }

  // Where the shard of a moving group goes.
  lemma MovedShard(plan: Plan, x: Group, y: Group, s: nat)
    requires PlanOk(plan) && Moves(plan, x, y) && s < NSHARDS
    ensures s in x.mine <==> Owner(plan, x.config.num, s) == x.gid
    ensures s in x.mine && s !in y.mine <==> Owner(plan, x.config.num, s) == x.gid != Owner(plan, x.config.num + 1, s)
    ensures s in y.mine && s !in x.mine <==> x.config.num == 0 && Owner(plan, 1, s) == x.gid
    ensures s in y.reqs <==>
            x.config.num > 0 && Owner(plan, x.config.num, s) != x.gid == Owner(plan, x.config.num + 1, s)
  {
  }

  // What a moving group has parked.
  lemma MovedParked(x: Group, y: Group, s: nat)
    requires |x.config.shards| == NSHARDS && |y.config.shards| == NSHARDS && x.config.num < y.config.num
    requires y == ApplyConfig(x, y.config)
    ensures s in x.mine && s !in y.mine ==>
            (x.config.num, s) in y.parked && y.parked[(x.config.num, s)] == ShardData(x.data, s)
    ensures forall k :: k in x.parked && k.0 < x.config.num ==> k in y.parked && y.parked[k] == x.parked[k]
  {
  }

  lemma MoveInstalled(plan: Plan, x: Group, y: Group, s: nat, n: nat)
    requires PlanOk(plan) && Moves(plan, x, y) && s < NSHARDS
    ensures Installed(plan, y, n, s) <==>
              Installed(plan, x, n, s)
                || (n == y.config.num && Owner(plan, n, s) == x.gid && (n == 1 || Owner(plan, n - 1, s) == x.gid))
  {
    MovedShard(plan, x, y, s);
  }

  lemma MovePassed(plan: Plan, x: Group, y: Group, s: nat, m: nat)
    requires PlanOk(plan) && Moves(plan, x, y) && s < NSHARDS
    ensures Passed(plan, y, m, s) <==> Passed(plan, x, m, s) || (m == x.config.num && s in x.mine && s !in y.mine)
  {
    MovedShard(plan, x, y, s);
  }

  // A moving group takes a shard only from itself, or as its first owner.
  lemma MoveTaken(plan: Plan, cur: Groups, g: int, y: Group, s: nat, m: nat)
    requires PlanOk(plan) && s < NSHARDS && GroupsOk(plan, cur) && g in cur && Moves(plan, cur[g], y)
    ensures Taken(plan, cur[g := y], m, s) <==>
              Taken(plan, cur, m, s)
              || (Owner(plan, m + 1, s) == g && m == cur[g].config.num && (m == 0 || Owner(plan, m, s) == g))
  {
    if Owner(plan, m + 1, s) == g {
      MoveInstalled(plan, cur[g], y, s, m + 1);
    }
  }

  // What a group is about to lose, the next owner cannot have.
  lemma NotTakenYet(plan: Plan, cur: Groups, g: int, s: nat)
    requires PlanOk(plan) && s < NSHARDS && InTurn(plan, cur, s) && g in cur
    requires Owner(plan, cur[g].config.num, s) == g != Owner(plan, cur[g].config.num + 1, s) && cur[g].config.num >= 1
    ensures !Taken(plan, cur, cur[g].config.num, s)
  {
    var m := cur[g].config.num;
    var next := Owner(plan, m + 1, s);
    assert next in cur && Installed(plan, cur[next], m + 1, s) ==> PreviousLeft(plan, cur, next, m + 1, s);
  }

  lemma MoveWaiting(plan: Plan, cur: Groups, g: int, y: Group, s: nat, h: int, m: nat)
    requires PlanOk(plan) && s < NSHARDS && GroupsOk(plan, cur) && g in cur && Moves(plan, cur[g], y)
             && InTurn(plan, cur, s)
    ensures Waiting(plan, cur[g := y], h, m, s) <==>
              Waiting(plan, cur, h, m, s) || (h == g && m == cur[g].config.num && s in cur[g].mine && s !in y.mine)
  {
    MovedShard(plan, cur[g], y, s);
    MovePassed(plan, cur[g], y, s, m);
    MoveTaken(plan, cur, g, y, s, m);
    if s in cur[g].mine && s !in y.mine {
      HasStarted(plan, cur[g], s);
      NotTakenYet(plan, cur, g, s);
    }
  }

  // Nothing is served in configuration 0.
  lemma HasStarted(plan: Plan, x: Group, s: nat)
    requires PlanOk(plan) && GroupOk(plan, x) && s in x.mine
    ensures x.config.num >= 1
  {
    assert s < NSHARDS && Owner(plan, x.config.num, s) == x.gid;
  }

  lemma MoveInTurn(plan: Plan, cur: Groups, g: int, y: Group, s: nat)
    requires PlanOk(plan) && s < NSHARDS && GroupsOk(plan, cur) && g in cur && Moves(plan, cur[g], y)
             && InTurn(plan, cur, s)
    ensures InTurn(plan, cur[g := y], s)
  {
    var now := cur[g := y];
    forall k, n: nat | k in now && n >= 2 && Installed(plan, now[k], n, s) ensures PreviousLeft(plan, now, k, n, s) {
      if k == g {
        MoveInstalled(plan, cur[g], y, s, n);
      }
      if Installed(plan, cur[k], n, s) {
        assert PreviousLeft(plan, cur, k, n, s);
      }
    }
  }

  lemma MoveParked(plan: Plan, cur: Groups, g: int, y: Group, t: Token, s: nat)
    requires PlanOk(plan) && s < NSHARDS && GroupsOk(plan, cur) && InTurn(plan, cur, s)
    requires ParkedByHolder(plan, cur, t, s) && g in cur && Moves(plan, cur[g], y)
             && (s in cur[g].mine ==> t == Serving(g))
    requires s in y.mine && s !in cur[g].mine ==> t == NoHolder
    ensures ParkedByHolder(plan, cur[g := y], NextToken(t, cur[g], y, s), s)
  {
    var now, t' := cur[g := y], NextToken(t, cur[g], y, s);
    forall h: int, m: nat ensures t' == Parked(h, m) <==> Waiting(plan, now, h, m, s) {
      assert t == Parked(h, m) <==> Waiting(plan, cur, h, m, s);
      MoveWaits(plan, cur, g, y, t, s, h, m);
    }
    if t.Parked? {
      assert Waiting(plan, cur, t.gid, t.num, s);
      MoveKeepsParked(plan, cur, g, y, t, s);
    }
    if s in cur[g].mine && s !in y.mine {
      MovedParked(cur[g], y, s);
    }
  }

  lemma MoveWaits(plan: Plan, cur: Groups, g: int, y: Group, t: Token, s: nat, h: int, m: nat)
    requires PlanOk(plan) && s < NSHARDS && GroupsOk(plan, cur) && InTurn(plan, cur, s)
    requires g in cur && Moves(plan, cur[g], y) && (t == Parked(h, m) <==> Waiting(plan, cur, h, m, s))
    requires s in cur[g].mine ==> t == Serving(g)
    requires s in y.mine && s !in cur[g].mine ==> t == NoHolder
    ensures NextToken(t, cur[g], y, s) == Parked(h, m) <==> Waiting(plan, cur[g := y], h, m, s)
  {
    MoveWaiting(plan, cur, g, y, s, h, m);
  }

  // A parked copy of an earlier configuration stays where it is.
  lemma MoveKeepsParked(plan: Plan, cur: Groups, g: int, y: Group, t: Token, s: nat)
    requires PlanOk(plan) && s < NSHARDS && g in cur && Moves(plan, cur[g], y)
    requires t.Parked? && Waiting(plan, cur, t.gid, t.num, s) && (t.num, s) in cur[t.gid].parked
    ensures t.gid in cur[g := y] && (t.num, s) in cur[g := y][t.gid].parked
  {
    if t.gid == g {
      MovedParked(cur[g], y, s);
      var k := (t.num, s);
      assert k in cur[g].parked && k.0 < cur[g].config.num;
    }
  }

  lemma MoveServed(plan: Plan, cur: Groups, g: int, y: Group, t: Token, s: nat)
    requires PlanOk(plan) && s < NSHARDS && GroupsOk(plan, cur) && g in cur && Moves(plan, cur[g], y)
    requires ServedByHolder(cur, t, s) && FromFirstOn(plan, cur, t, s)
    ensures ServedByHolder(cur[g := y], NextToken(t, cur[g], y, s), s)
    ensures FromFirstOn(plan, cur[g := y], NextToken(t, cur[g], y, s), s)
    ensures s in cur[g].mine ==> t == Serving(g)
    ensures s in y.mine && s !in cur[g].mine ==> t == NoHolder
  {
    MovedShard(plan, cur[g], y, s);
  }

  lemma MoveKeepsToken(plan: Plan, cur: Groups, g: int, y: Group, t: Token, s: nat)
    requires PlanOk(plan) && s < NSHARDS && GroupsOk(plan, cur) && TokenOk(plan, cur, t, s)
    requires g in cur && Moves(plan, cur[g], y)
    ensures TokenOk(plan, cur[g := y], NextToken(t, cur[g], y, s), s)
  {
    MoveServed(plan, cur, g, y, t, s);
    MoveInTurn(plan, cur, g, y, s);
    MoveParked(plan, cur, g, y, t, s);
  }
}

/**
 The invariant of the sharded store and the proof that every step keeps it.
 */
module ShardSafety {
  import opened KvHistory
  import opened KvStore
  import opened KvClients
  import opened ShardConfig
  import opened ShardServer
  import opened ShardCluster
  import opened ShardGroups
  import opened ShardTokens
  import opened ShardContents

  ghost predicate TraceOk(plan: Plan, g: int, trace: seq<Group>)
    requires PlanOk(plan)
  {
    && trace != []
    && (forall k :: 0 <= k < |trace| ==> GroupOk(plan, trace[k]) && trace[k].gid == g)
    && (forall j, k :: 0 <= j <= k < |trace| ==> Later(trace[j], trace[k]))
  }

  ghost predicate TracesOk(plan: Plan, traces: map<int, seq<Group>>)
    requires PlanOk(plan)
  {
    && (forall g :: g in traces ==> TraceOk(plan, g, traces[g]))
    && (forall n: nat, s: nat :: s < NSHARDS ==> Owner(plan, n, s) == 0 || Owner(plan, n, s) in traces)
  }

  ghost function Current(traces: map<int, seq<Group>>): Groups {
    map g | g in traces && traces[g] != [] :: traces[g][|traces[g]| - 1]
  }

  // Every entry of every table is a call that was executed, with its answer.
  ghost predicate TablesOk(c: Cluster) {
    forall g, k :: g in c.traces && 0 <= k < |c.traces[g]| ==> TableOk(c.log, c.traces[g][k].lastOps)
  }

  ghost predicate ShardOk(plan: Plan, c: Cluster, s: nat)
    requires PlanOk(plan)
  {
    s < NSHARDS ==>
      && s < |c.token| && TokenOk(plan, Current(c.traces), c.token[s], s)
      && HeldOk(c.traces, Current(c.traces), c.token[s], c.log, s)
  }

  ghost predicate Inv(plan: Plan, c: Cluster) {
    && PlanOk(plan) && TracesOk(plan, c.traces) && |c.token| == NSHARDS
    && (forall s: nat :: ShardOk(plan, c, s))
    && ClientsOk(c.clients, c.log) && TablesOk(c)
  }

  lemma CurrentIs(plan: Plan, traces: map<int, seq<Group>>)
    requires PlanOk(plan) && TracesOk(plan, traces)
    ensures CurrentIn(traces, Current(traces)) && GroupsOk(plan, Current(traces))
  {
    assert forall g :: g in traces ==> TraceOk(plan, g, traces[g]);
  }

  lemma CurrentAfter(traces: map<int, seq<Group>>, g: int, y: Group)
    requires g in traces && forall k :: k in traces ==> traces[k] != []
    ensures Current(traces[g := traces[g] + [y]]) == Current(traces)[g := y]
  {
  }

  lemma InitKeepsInv(plan: Plan, c: Cluster)
    requires PlanOk(plan) && Init(plan, c)
    ensures Inv(plan, c)
  {
    forall g | g in c.traces ensures TraceOk(plan, g, c.traces[g]) {
      FreshIsOk(plan, g);
    }
    forall s: nat | s < NSHARDS ensures ShardOk(plan, c, s) {
      assert c.token[s] == NoHolder;
      assert ShardData(map[], s) == map[];
    }
  }

  lemma FreshIsOk(plan: Plan, g: int)
    requires PlanOk(plan) && g != 0
    ensures GroupOk(plan, Fresh(g)) && Later(Fresh(g), Fresh(g))
  {
    assert forall s: nat :: s < NSHARDS ==> Owner(plan, 0, s) == 0;
  }

  // ---------------------------------------------------------------------------------------
  // Commands are proper
  // ---------------------------------------------------------------------------------------

  lemma ConfigIsProper(plan: Plan, trace: seq<Group>, g: int, seen: nat)
    requires PlanOk(plan) && TraceOk(plan, g, trace) && seen < |trace| && trace[seen].reqs == map[]
    ensures Proper(plan, trace[|trace| - 1], NewConfig(plan(trace[seen].config.num + 1)))
  {
    assert Later(trace[seen], trace[|trace| - 1]);
  }

  // A pending shard has this group as its next owner.
  lemma PendingIsMine(plan: Plan, x: Group, s: nat)
    requires PlanOk(plan) && GroupOk(plan, x) && s in x.reqs
    ensures s < NSHARDS && x.reqs[s] >= 1 && x.reqs[s] + 1 == x.config.num
    ensures Owner(plan, x.reqs[s] + 1, s) == x.gid && Owner(plan, x.reqs[s], s) != x.gid
  {
  }

  lemma InstallIsProper(plan: Plan, c: Cluster, gid: int, seen: nat, shard: nat, from: int, ready: nat)
    requires PlanOk(plan) && TracesOk(plan, c.traces) && Enabled(plan, c, Migrate(gid, seen, shard, from, ready))
    ensures Alive(c, gid) && Proper(plan, Now(c, gid), CommandOf(plan, c, Migrate(gid, seen, shard, from, ready)))
  {
    var x, z := c.traces[gid][seen], c.traces[from][ready];
    assert TraceOk(plan, gid, c.traces[gid]) && TraceOk(plan, from, c.traces[from]);
    PendingIsMine(plan, x, shard);
    assert GroupOk(plan, z);
    assert (x.reqs[shard], shard) in z.parked;
  }

  lemma CommandIsProper(plan: Plan, c: Cluster, step: Step)
    requires PlanOk(plan) && TracesOk(plan, c.traces) && Enabled(plan, c, step) && Commits(step)
    ensures Alive(c, step.gid) && Proper(plan, Now(c, step.gid), CommandOf(plan, c, step))
  {
    match step
    case RunOp(_, _) =>
    case Reconfigure(gid, seen) =>
      assert TraceOk(plan, gid, c.traces[gid]);
      ConfigIsProper(plan, c.traces[gid], gid, seen);
    case Migrate(gid, seen, shard, from, ready) => InstallIsProper(plan, c, gid, seen, shard, from, ready);
    case CollectParked(_, _, _, _, _) =>
  }

  lemma CommitKeepsTraces(plan: Plan, c: Cluster, g: int, command: Command)
    requires PlanOk(plan) && TracesOk(plan, c.traces) && Alive(c, g) && Proper(plan, Now(c, g), command)
    ensures Shaped(Now(c, g), command) && TracesOk(plan, Commit(c, g, command).traces)
  {
    assert TraceOk(plan, g, c.traces[g]);
    var x := Now(c, g);
    CommandKeepsGroup(plan, x, command);
    var y := Exec(x, command);
    var trace := c.traces[g] + [y];
    SoonerOrLater(y);
    forall j, k | 0 <= j <= k < |trace| ensures Later(trace[j], trace[k]) {
      if j < k == |trace| - 1 {
        assert Later(trace[j], x);
        LaterStill(trace[j], x, y);
      }
    }
    assert TraceOk(plan, g, trace);
  }

  // ---------------------------------------------------------------------------------------
  // One shard over one commit
  // ---------------------------------------------------------------------------------------

  // What the shard's part of the invariant says, with the group's old and new state.
  ghost predicate ShardParts(plan: Plan, traces: map<int, seq<Group>>, cur: Groups, t: Token, log: seq<Record>, s: nat)
    requires PlanOk(plan) && s < NSHARDS
  {
    CurrentIn(traces, cur) && GroupsOk(plan, cur) && TokenOk(plan, cur, t, s) && HeldOk(traces, cur, t, log, s)
  }

  ghost predicate ShardAfter(plan: Plan, traces: map<int, seq<Group>>, cur: Groups, t: Token, log: seq<Record>, s: nat,
                             g: int, y: Group)
    requires PlanOk(plan) && s < NSHARDS && g in cur && g in traces
  {
    && TokenOk(plan, cur[g := y], NextToken(t, cur[g], y, s), s)
    && HeldOk(traces[g := traces[g] + [y]], cur[g := y], NextToken(t, cur[g], y, s), log, s)
  }

  lemma NothingMoves(plan: Plan, traces: map<int, seq<Group>>, cur: Groups, t: Token, log: seq<Record>, s: nat, g: int,
                     y: Group)
    requires PlanOk(plan) && s < NSHARDS && ShardParts(plan, traces, cur, t, log, s) && g in cur
    requires SameForShard(cur[g], y, t, s) && SameContents(cur[g], y, t, s)
    ensures ShardAfter(plan, traces, cur, t, log, s, g, y)
  {
    SameKeepsToken(plan, cur, g, y, t, s);
    SameKeepsHeld(traces, cur, t, log, s, g, y);
  }

  lemma ShardAfterRun(plan: Plan, traces: map<int, seq<Group>>, cur: Groups, t: Token, log: seq<Record>, s: nat,
                      g: int, op: Op, e: Record)
    requires PlanOk(plan) && s < NSHARDS && ShardParts(plan, traces, cur, t, log, s) && g in cur
    requires Runs(cur[g], op) && e.op == op
    ensures ShardAfter(plan, traces, cur, t, log + [e], s, g, ExecOp(cur[g], op))
  {
    SameKeepsToken(plan, cur, g, ExecOp(cur[g], op), t, s);
    RunKeepsHeld(traces, cur, t, log, s, g, op, e);
  }

  lemma ShardAfterCollect(plan: Plan, traces: map<int, seq<Group>>, cur: Groups, t: Token, log: seq<Record>, s: nat,
                          g: int,
                          num: nat, shard: nat)
    requires PlanOk(plan) && s < NSHARDS && ShardParts(plan, traces, cur, t, log, s) && g in cur
    requires shard < NSHARDS && Taken(plan, cur, num, shard)
    ensures ShardAfter(plan, traces, cur, t, log, s, g, CollectShard(cur[g], num, shard))
  {
    if s == shard {
      assert !Waiting(plan, cur, g, num, s);
    }
    NothingMoves(plan, traces, cur, t, log, s, g, CollectShard(cur[g], num, shard));
  }

  lemma ShardAfterMove(plan: Plan, traces: map<int, seq<Group>>, cur: Groups, t: Token, log: seq<Record>, s: nat,
                       g: int, y: Group)
    requires PlanOk(plan) && s < NSHARDS && ShardParts(plan, traces, cur, t, log, s) && g in cur
    requires Moves(plan, cur[g], y) && Later(cur[g], y)
    requires forall k :: 0 <= k < |traces[g]| ==> (cur[g].config.num, s) !in traces[g][k].parked
    ensures ShardAfter(plan, traces, cur, t, log, s, g, y)
  {
    var x := cur[g];
    MoveKeepsToken(plan, cur, g, y, t, s);
    MovedShard(plan, x, y, s);
    MovedParked(x, y, s);
    if s in x.mine && s !in y.mine {
      LoseKeepsHeld(plan, traces, cur, log, s, g, y);
    } else if s in y.mine && s !in x.mine {
      assert t == NoHolder;
      assert ShardData(y.data, s) == map[] by {
        assert forall key :: key in y.data ==> KeyShard(key) in x.mine;
      }
      FirstKeepsHeld(traces, cur, log, s, g, y);
    } else {
      MoveKeepsContents(plan, x, y, t, s);
      SameKeepsHeld(traces, cur, t, log, s, g, y);
    }
  }

  lemma MoveKeepsContents(plan: Plan, x: Group, y: Group, t: Token, s: nat)
    requires PlanOk(plan) && s < NSHARDS && Moves(plan, x, y) && Later(x, y) && (s in x.mine ==> s in y.mine)
    ensures SameContents(x, y, t, s)
  {
    MovedShard(plan, x, y, s);
    MovedParked(x, y, s);
    OtherKept(x.data, Lost(x, y.config), s);
    if t.Parked? && t.gid == x.gid && (t.num, s) in x.parked {
      assert Passed(plan, x, (t.num, s).0, s);
    }
  }

  // The answer of `from` in the state it was in, for a shard pending at g.
  ghost predicate Fitting(plan: Plan, traces: map<int, seq<Group>>, cur: Groups, g: int, from: int, ready: nat,
                          r: ShardReply)
    requires PlanOk(plan) && g in cur
  {
    && Proper(plan, cur[g], Install(r)) && from == Owner(plan, r.num, r.shard) && from in traces && from in cur
    && ready < |traces[from]| && ShardServer.Ready(traces[from][ready], r.num, r.shard)
    && r == ShardServer.Answers(traces[from][ready], r.num, r.shard)
    && Later(traces[from][ready], cur[from]) && GroupOk(plan, traces[from][ready])
  }

  // The group takes in a shard it was waiting for.
  ghost predicate TakesIn(x: Group, y: Group, r: ShardReply) {
    && r.shard in x.reqs && r.shard !in x.mine && y.gid == x.gid && y.config == x.config && x.config.num == r.num + 1
    && y.mine == x.mine + {r.shard} && y.reqs == x.reqs - {r.shard} && y.parked == x.parked
    && OpsGrow(x.lastOps, y.lastOps) && OpsGrow(r.lastOps, y.lastOps)
    && ShardData(y.data, r.shard) == r.data
    && forall s: nat :: s != r.shard ==> ShardData(y.data, s) == ShardData(x.data, s)
  }

  lemma InstallTakesIn(plan: Plan, x: Group, r: ShardReply)
    requires PlanOk(plan) && GroupOk(plan, x) && Proper(plan, x, Install(r))
    ensures InstallShard(x, r) == x || TakesIn(x, InstallShard(x, r), r)
  {
    var y := InstallShard(x, r);
    if r.num + 1 == x.config.num && r.shard !in x.mine {
      assert r.shard in x.reqs;
      NewestGrows(x.lastOps, r.lastOps);
      MergedShard(x.data, r.data, r.shard, r.shard);
      forall s: nat | s != r.shard ensures ShardData(y.data, s) == ShardData(x.data, s) {
        MergedShard(x.data, r.data, r.shard, s);
      }
    } else {
      assert y == x;
    }
  }

  lemma ShardAfterInstall(plan: Plan, traces: map<int, seq<Group>>, cur: Groups, t: Token, log: seq<Record>, s: nat,
                          g: int,
                          from: int, ready: nat, r: ShardReply)
    requires PlanOk(plan) && s < NSHARDS && ShardParts(plan, traces, cur, t, log, s) && g in cur
    requires Fitting(plan, traces, cur, g, from, ready, r)
    ensures ShardAfter(plan, traces, cur, t, log, s, g, InstallShard(cur[g], r))
  {
    var x, y := cur[g], InstallShard(cur[g], r);
    InstallTakesIn(plan, x, r);
    if y == x || s != r.shard {
      OtherShardStays(x, y, r, t, s);
      NothingMoves(plan, traces, cur, t, log, s, g, y);
    } else {
      TakenInHere(plan, traces, cur, t, log, s, g, from, ready, r, y);
    }
  }

  lemma OtherShardStays(x: Group, y: Group, r: ShardReply, t: Token, s: nat)
    requires y == x || (s != r.shard && TakesIn(x, y, r))
    ensures SameForShard(x, y, t, s) && SameContents(x, y, t, s)
  {
  }

  // What Fitting says about the old owner: it has left the configuration, and its parked copy is
  // still the one in the answer, if it is there.
  lemma FittingOwner(plan: Plan, traces: map<int, seq<Group>>, cur: Groups, g: int, from: int, ready: nat,
                     r: ShardReply)
    requires PlanOk(plan) && g in cur && Fitting(plan, traces, cur, g, from, ready, r)
    ensures cur[from].config.num > r.num && r.num >= 1
    ensures (r.num, r.shard) in cur[from].parked ==> cur[from].parked[(r.num, r.shard)] == r.data
  {
    var z, k := traces[from][ready], (r.num, r.shard);
    assert k in z.parked;
    assert Passed(plan, z, k.0, k.1);
  }

  lemma TakenInHere(plan: Plan, traces: map<int, seq<Group>>, cur: Groups, t: Token, log: seq<Record>, s: nat, g: int,
                    from: int, ready: nat, r: ShardReply, y: Group)
    requires PlanOk(plan) && s < NSHARDS && ShardParts(plan, traces, cur, t, log, s) && g in cur
    requires Fitting(plan, traces, cur, g, from, ready, r) && s == r.shard && TakesIn(cur[g], y, r)
    ensures ShardAfter(plan, traces, cur, t, log, s, g, y)
  {
    FittingOwner(plan, traces, cur, g, from, ready, r);
    TakenInToken(plan, cur, t, s, g, from, r, y);
    TakenInHeld(traces, cur, t, log, s, g, from, ready, r, y);
    assert NextToken(t, cur[g], y, s) == Serving(g);
  }

  lemma TakenInToken(plan: Plan, cur: Groups, t: Token, s: nat, g: int, from: int, r: ShardReply, y: Group)
    requires PlanOk(plan) && s < NSHARDS && TokenOk(plan, cur, t, s) && g in cur && from in cur
    requires cur[g].gid == g && cur[from].gid == from && s == r.shard && TakesIn(cur[g], y, r)
    requires Owner(plan, r.num + 1, s) == g && from == Owner(plan, r.num, s) && from != g
    requires r.num >= 1 && cur[from].config.num > r.num
    ensures t == Parked(from, r.num) && TokenOk(plan, cur[g := y], Serving(g), s)
  {
    InstallMovesToken(plan, cur, g, y, t, s, from, r.num);
  }

  lemma TakenInHeld(traces: map<int, seq<Group>>, cur: Groups, t: Token, log: seq<Record>, s: nat, g: int,
                    from: int, ready: nat, r: ShardReply, y: Group)
    requires CurrentIn(traces, cur) && HeldOk(traces, cur, t, log, s) && g in cur && t == Parked(from, r.num)
    requires from in traces && ready < |traces[from]| && ShardServer.Ready(traces[from][ready], r.num, r.shard)
    requires r == ShardServer.Answers(traces[from][ready], r.num, r.shard) && s == r.shard && TakesIn(cur[g], y, r)
    requires (r.num, s) in cur[from].parked ==> cur[from].parked[(r.num, s)] == r.data
    ensures HeldOk(traces[g := traces[g] + [y]], cur[g := y], Serving(g), log, s)
  {
    InstallKeepsHeld(traces, cur, log, s, g, y, from, r.num, ready);
  }

  // ---------------------------------------------------------------------------------------
  // Every shard over every commit
  // ---------------------------------------------------------------------------------------

  // A configuration that is not the next one changes nothing; the next one moves the group.
  lemma ConfigMoves(plan: Plan, x: Group, c: Config)
    requires PlanOk(plan) && GroupOk(plan, x) && Proper(plan, x, NewConfig(c))
    ensures ApplyConfig(x, c) == x || (Moves(plan, x, ApplyConfig(x, c)) && Later(x, ApplyConfig(x, c)))
  {
    ConfigKeepsGroup(plan, x, c);
  }

  lemma NeverParkedBefore(plan: Plan, g: int, trace: seq<Group>, s: nat)
    requires PlanOk(plan) && TraceOk(plan, g, trace)
    ensures forall k :: 0 <= k < |trace| ==> (trace[|trace| - 1].config.num, s) !in trace[k].parked
  {
    var p := (trace[|trace| - 1].config.num, s);
    forall k | 0 <= k < |trace| ensures p !in trace[k].parked {
      assert Later(trace[k], trace[|trace| - 1]);
      assert p in trace[k].parked ==> Passed(plan, trace[k], p.0, p.1);
    }
  }

  // A shard on a group's collection list has been taken by it.
  lemma ListedIsTaken(plan: Plan, c: Cluster, asker: int, seen: nat, num: nat, shard: nat)
    requires PlanOk(plan) && TracesOk(plan, c.traces) && Seen(c, asker, seen) && shard < NSHARDS
    requires (num, shard) in c.traces[asker][seen].gc
    ensures Taken(plan, Current(c.traces), num, shard)
  {
    var trace := c.traces[asker];
    assert TraceOk(plan, asker, trace);
    var x, y, k := trace[seen], trace[|trace| - 1], (num, shard);
    assert k in x.gc;
    assert Installed(plan, x, k.0 + 1, k.1);
    assert Later(x, y);
    InstalledStays(plan, x, y, num + 1, shard);
  }

  lemma MigrateFits(plan: Plan, c: Cluster, gid: int, seen: nat, shard: nat, from: int, ready: nat)
    requires PlanOk(plan) && TracesOk(plan, c.traces) && Enabled(plan, c, Migrate(gid, seen, shard, from, ready))
    ensures gid in Current(c.traces)
    ensures Fitting(plan, c.traces, Current(c.traces), gid, from, ready,
                    CommandOf(plan, c, Migrate(gid, seen, shard, from, ready)).reply)
  {
    InstallIsProper(plan, c, gid, seen, shard, from, ready);
    assert TraceOk(plan, gid, c.traces[gid]) && TraceOk(plan, from, c.traces[from]);
    assert Later(c.traces[from][ready], c.traces[from][|c.traces[from]| - 1]);
  }

  // What a commit of `command` at g makes of shard s.
  ghost predicate KeepsShard(plan: Plan, c: Cluster, g: int, command: Command, s: nat)
    requires PlanOk(plan) && Alive(c, g) && Shaped(Now(c, g), command) && s < NSHARDS && s < |c.token|
  {
    ShardAfter(plan, c.traces, Current(c.traces), c.token[s], NextLog(c, Now(c, g), command), s, g,
               Exec(Now(c, g), command))
  }

  ghost predicate PartsHold(plan: Plan, c: Cluster, cur: Groups, g: int, x: Group, s: nat)
    requires PlanOk(plan)
  {
    && s < NSHARDS && s < |c.token| && g in cur && cur[g] == x
    && ShardParts(plan, c.traces, cur, c.token[s], c.log, s)
  }

  lemma RunKeepsShard(plan: Plan, c: Cluster, cur: Groups, g: int, x: Group, op: Op, s: nat)
    requires PlanOk(plan) && PartsHold(plan, c, cur, g, x, s) && Started(c.clients, op)
    ensures ShardAfter(plan, c.traces, cur, c.token[s], NextLog(c, x, ClientOp(op)), s, g, ExecOp(x, op))
  {
    if Runs(x, op) {
      var e := NewRecord(c.clients, op, Answer(x.data, op));
      ShardAfterRun(plan, c.traces, cur, c.token[s], c.log, s, g, op, e);
    } else {
      NothingMoves(plan, c.traces, cur, c.token[s], c.log, s, g, x);
    }
  }

  lemma ConfigKeepsShard(plan: Plan, c: Cluster, cur: Groups, g: int, x: Group, config: Config, s: nat)
    requires PlanOk(plan) && PartsHold(plan, c, cur, g, x, s) && Proper(plan, x, NewConfig(config))
    requires TraceOk(plan, g, c.traces[g])
    ensures ShardAfter(plan, c.traces, cur, c.token[s], c.log, s, g, ApplyConfig(x, config))
  {
    ConfigMoves(plan, x, config);
    if ApplyConfig(x, config) == x {
      NothingMoves(plan, c.traces, cur, c.token[s], c.log, s, g, x);
    } else {
      NeverParkedBefore(plan, g, c.traces[g], s);
      ShardAfterMove(plan, c.traces, cur, c.token[s], c.log, s, g, ApplyConfig(x, config));
    }
  }

  lemma PartsFromInv(plan: Plan, c: Cluster, g: int, s: nat)
    requires PlanOk(plan) && TracesOk(plan, c.traces) && ShardOk(plan, c, s) && s < NSHARDS && Alive(c, g)
    ensures PartsHold(plan, c, Current(c.traces), g, Now(c, g), s)
  {
    CurrentIs(plan, c.traces);
    HoldingParts(plan, c, Current(c.traces), g, s);
  }

  lemma HoldingParts(plan: Plan, c: Cluster, cur: Groups, g: int, s: nat)
    requires PlanOk(plan) && s < NSHARDS && CurrentIn(c.traces, cur) && GroupsOk(plan, cur) && Alive(c, g)
    requires s < |c.token| && TokenOk(plan, cur, c.token[s], s) && HeldOk(c.traces, cur, c.token[s], c.log, s)
    ensures PartsHold(plan, c, cur, g, Now(c, g), s)
  {
  }

  lemma CommitKeepsShard(plan: Plan, c: Cluster, step: Step, s: nat)
    requires PlanOk(plan) && TracesOk(plan, c.traces) && Enabled(plan, c, step) && Commits(step) && s < NSHARDS
             && s < |c.token|
    requires Alive(c, step.gid) && Proper(plan, Now(c, step.gid), CommandOf(plan, c, step))
    requires PartsHold(plan, c, Current(c.traces), step.gid, Now(c, step.gid), s)
    requires Shaped(Now(c, step.gid), CommandOf(plan, c, step))
    ensures KeepsShard(plan, c, step.gid, CommandOf(plan, c, step), s)
  {
    var cur, x := Current(c.traces), Now(c, step.gid);
    match step
    case RunOp(gid, op) => RunKeepsShard(plan, c, cur, gid, x, op, s);
    case Reconfigure(gid, seen) => ConfigKeepsShard(plan, c, cur, gid, x, CommandOf(plan, c, step).config, s);
    case Migrate(gid, seen, shard, from, ready) =>
      MigrateFits(plan, c, gid, seen, shard, from, ready);
      ShardAfterInstall(plan, c.traces, cur, c.token[s], c.log, s, gid, from, ready, CommandOf(plan, c, step).reply);
    case CollectParked(gid, asker, seen, num, shard) =>
      ListedIsTaken(plan, c, asker, seen, num, shard);
      ShardAfterCollect(plan, c.traces, cur, c.token[s], c.log, s, gid, num, shard);
  }

  // ---------------------------------------------------------------------------------------
  // The log, the tables and the answers
  // ---------------------------------------------------------------------------------------

  // Executing a started call: it is new, and its answer is the sequential store's.
  lemma RunKeepsClients(plan: Plan, c: Cluster, g: int, op: Op)
    requires Inv(plan, c) && Alive(c, g) && Started(c.clients, op) && Runs(Now(c, g), op)
    ensures Answer(Now(c, g).data, op) == Answer(Replay(c.log), op)
    ensures ClientsOk(Tick(c.clients), c.log + [NewRecord(c.clients, op, Answer(Replay(c.log), op))])
  {
    var s, cur := KeyShard(op.key), Current(c.traces);
    CurrentIs(plan, c.traces);
    assert ShardOk(plan, c, s);
    RunIsNew(c.traces, cur, c.token[s], c.log, g, op);
    ExecuteKeepsClients(c.clients, c.log, op);
  }

  // The tables of the new state of a committing group.
  lemma RunTable(c: Cluster, x: Group, op: Op)
    requires TableOk(c.log, x.lastOps) && Started(c.clients, op)
    ensures TableOk(NextLog(c, x, ClientOp(op)), ExecOp(x, op).lastOps)
  {
    if Runs(x, op) {
      TableNext(c.log, NewRecord(c.clients, op, Answer(x.data, op)), x.lastOps);
    }
  }

  lemma InstallTable(log: seq<Record>, x: Group, r: ShardReply)
    requires TableOk(log, x.lastOps) && TableOk(log, r.lastOps)
    ensures TableOk(log, InstallShard(x, r).lastOps)
  {
  }

  lemma NewTable(plan: Plan, c: Cluster, step: Step)
    requires PlanOk(plan) && TablesOk(c) && Enabled(plan, c, step) && Commits(step)
    requires Alive(c, step.gid) && Shaped(Now(c, step.gid), CommandOf(plan, c, step))
    ensures var x := Now(c, step.gid);
            TableOk(NextLog(c, x, CommandOf(plan, c, step)), Exec(x, CommandOf(plan, c, step)).lastOps)
  {
    var x := Now(c, step.gid);
    assert TableOk(c.log, x.lastOps);
    match step
    case RunOp(gid, op) => RunTable(c, x, op);
    case Reconfigure(_, _) =>
    case Migrate(gid, seen, shard, from, ready) =>
      assert TableOk(c.log, c.traces[from][ready].lastOps);
      InstallTable(c.log, x, CommandOf(plan, c, step).reply);
    case CollectParked(_, _, _, _, _) =>
  }

  lemma LogGrows(c: Cluster, x: Group, command: Command)
    ensures NextLog(c, x, command) == c.log || exists e :: NextLog(c, x, command) == c.log + [e]
  {
  }

  lemma CommitKeepsClients(plan: Plan, c: Cluster, step: Step)
    requires Inv(plan, c) && Enabled(plan, c, step) && Commits(step)
    requires Alive(c, step.gid) && Shaped(Now(c, step.gid), CommandOf(plan, c, step))
    ensures ClientsOk(Commit(c, step.gid, CommandOf(plan, c, step)).clients,
                      Commit(c, step.gid, CommandOf(plan, c, step)).log)
  {
    if step.RunOp? && Runs(Now(c, step.gid), step.op) {
      RunKeepsClients(plan, c, step.gid, step.op);
    } else {
      TickKeepsClients(c.clients, c.log);
    }
  }

  lemma CommitKeepsTables(plan: Plan, c: Cluster, step: Step)
    requires Inv(plan, c) && Enabled(plan, c, step) && Commits(step)
    requires Alive(c, step.gid) && Shaped(Now(c, step.gid), CommandOf(plan, c, step))
    ensures TablesOk(Commit(c, step.gid, CommandOf(plan, c, step)))
  {
    var d, x := Commit(c, step.gid, CommandOf(plan, c, step)), Now(c, step.gid);
    NewTable(plan, c, step);
    LogGrows(c, x, CommandOf(plan, c, step));
    forall g, k | g in d.traces && 0 <= k < |d.traces[g]| ensures TableOk(d.log, d.traces[g][k].lastOps) {
      if k < |c.traces[g]| {
        assert TableOk(c.log, c.traces[g][k].lastOps);
        if e :| d.log == c.log + [e] {
          TableStays(c.log, e, c.traces[g][k].lastOps);
        }
      }
    }
  }

  lemma CommitKeepsShards(plan: Plan, c: Cluster, step: Step)
    requires Inv(plan, c) && Enabled(plan, c, step) && Commits(step)
    requires Alive(c, step.gid) && Proper(plan, Now(c, step.gid), CommandOf(plan, c, step))
    requires Shaped(Now(c, step.gid), CommandOf(plan, c, step))
    ensures forall s: nat :: ShardOk(plan, Commit(c, step.gid, CommandOf(plan, c, step)), s)
  {
    forall s: nat ensures ShardOk(plan, Commit(c, step.gid, CommandOf(plan, c, step)), s) {
      CommitKeepsOne(plan, c, step, s);
    }
  }

  lemma CommitKeepsOne(plan: Plan, c: Cluster, step: Step, s: nat)
    requires Inv(plan, c) && Enabled(plan, c, step) && Commits(step)
    requires Alive(c, step.gid) && Proper(plan, Now(c, step.gid), CommandOf(plan, c, step))
    requires Shaped(Now(c, step.gid), CommandOf(plan, c, step))
    ensures ShardOk(plan, Commit(c, step.gid, CommandOf(plan, c, step)), s)
  {
    var g, command := step.gid, CommandOf(plan, c, step);
    CurrentAfter(c.traces, g, Exec(Now(c, g), command));
    if s < NSHARDS {
      assert ShardOk(plan, c, s);
      PartsFromInv(plan, c, g, s);
      CommitKeepsShard(plan, c, step, s);
    }
  }

  lemma CommitKeepsInv(plan: Plan, c: Cluster, step: Step)
    requires Inv(plan, c) && Enabled(plan, c, step) && Commits(step)
    ensures Alive(c, step.gid) && Shaped(Now(c, step.gid), CommandOf(plan, c, step))
    ensures Inv(plan, Next(plan, c, step))
  {
    CommandIsProper(plan, c, step);
    var g, command := step.gid, CommandOf(plan, c, step);
    CommitKeepsTraces(plan, c, g, command);
    CommitKeepsShards(plan, c, step);
    CommitKeepsClients(plan, c, step);
    CommitKeepsTables(plan, c, step);
  }

  // ---------------------------------------------------------------------------------------
  // Clients
  // ---------------------------------------------------------------------------------------

  // A step of a client leaves the groups and the log alone.
  lemma ClientStepKeepsInv(plan: Plan, c: Cluster, clients: Clients)
    requires Inv(plan, c) && ClientsOk(clients, c.log)
    ensures Inv(plan, c.(clients := clients))
  {
    var d := c.(clients := clients);
    forall s: nat ensures ShardOk(plan, d, s) {
      assert ShardOk(plan, c, s);
    }
    forall g, k | g in d.traces && 0 <= k < |d.traces[g]| ensures TableOk(d.log, d.traces[g][k].lastOps) {
      assert TableOk(c.log, c.traces[g][k].lastOps);
    }
  }

  // Every step keeps the invariant.
  lemma StepKeepsInv(plan: Plan, c: Cluster, step: Step)
    requires Inv(plan, c) && Enabled(plan, c, step)
    ensures Commits(step) ==> Alive(c, step.gid) && Shaped(Now(c, step.gid), CommandOf(plan, c, step))
    ensures Inv(plan, Next(plan, c, step))
  {
    match step
    case Start(op) =>
      StartKeepsClients(c.clients, c.log, op);
      ClientStepKeepsInv(plan, c, StartCall(c.clients, op));
    case Reply(client, call, gid, seen) =>
      var table := c.traces[gid][seen].lastOps;
      assert TableOk(c.log, table);
      RespondKeepsClients(c.clients, c.log, (client, call), table);
      ClientStepKeepsInv(plan, c, Respond(c.clients, (client, call), table));
    case _ => CommitKeepsInv(plan, c, step);
  }
}

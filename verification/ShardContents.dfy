/**
 The holder of a shard has exactly the contents a single sequential store would have, and its
 table of last operations covers every call executed on the shard.
 */
module ShardContents {
  import opened KvHistory
  import opened KvStore
  import opened ShardServer
  import opened ShardCluster
  import opened ShardGroups
  import opened ShardTokens

  // The table remembers every executed call on shard s, or a newer one of the same client.
  ghost predicate Covers(l: LastOps, log: seq<Record>, s: nat) {
    forall i :: 0 <= i < |log| && KeyShard(log[i].op.key) == s ==> Remembers(l, log[i].op)
  }

  predicate Remembers(l: LastOps, op: Op) {
    op.client in l && op.call <= l[op.client].call
  }

  ghost predicate HasHolder(cur: Groups, t: Token, s: nat) {
    match t
    case NoHolder => true
    case Serving(g) => g in cur
    case Parked(h, m) => h in cur && (m, s) in cur[h].parked
  }

  ghost function Contents(cur: Groups, t: Token, s: nat): Store
    requires HasHolder(cur, t, s)
  {
    match t
    case NoHolder => map[]
    case Serving(g) => ShardData(cur[g].data, s)
    case Parked(h, m) => cur[h].parked[(m, s)]
  }

  // Every state of h in which s is parked covers the calls on s.
  ghost predicate ParkedCovers(trace: seq<Group>, m: nat, log: seq<Record>, s: nat) {
    forall k :: 0 <= k < |trace| && (m, s) in trace[k].parked ==> Covers(trace[k].lastOps, log, s)
  }

  ghost predicate CoveredBy(traces: map<int, seq<Group>>, cur: Groups, t: Token, log: seq<Record>, s: nat) {
    match t
    case NoHolder => Covers(map[], log, s)
    case Serving(g) => g in cur && Covers(cur[g].lastOps, log, s)
    case Parked(h, m) => h in traces && ParkedCovers(traces[h], m, log, s)
  }

  ghost predicate HeldOk(traces: map<int, seq<Group>>, cur: Groups, t: Token, log: seq<Record>, s: nat) {
    && HasHolder(cur, t, s) && Contents(cur, t, s) == ShardData(Replay(log), s)
    && CoveredBy(traces, cur, t, log, s)
  }

  // ---------------------------------------------------------------------------------------
  // Data of one shard
  // ---------------------------------------------------------------------------------------

  lemma EffectOnShard(data: Store, op: Op, s: nat)
    ensures ShardData(Effect(data, op), s)
            == if KeyShard(op.key) == s then Effect(ShardData(data, s), op) else ShardData(data, s)
  {
  }

  lemma SameAnswer(a: Store, b: Store, op: Op)
    requires ShardData(a, KeyShard(op.key)) == ShardData(b, KeyShard(op.key))
    ensures Answer(a, op) == Answer(b, op)
  {
    var s := KeyShard(op.key);
    assert op.key in a <==> op.key in ShardData(a, s);
    assert op.key in b <==> op.key in ShardData(b, s);
  }

  lemma OtherKept(data: Store, shards: set<nat>, s: nat)
    requires s !in shards
    ensures ShardData(OtherData(data, shards), s) == ShardData(data, s)
  {
  }

  lemma MergedShard(data: Store, more: Store, shard: nat, s: nat)
    requires forall key :: key in more ==> KeyShard(key) == shard
    requires forall key :: key in data ==> KeyShard(key) != shard
    ensures ShardData(data + more, s) == if s == shard then more else ShardData(data, s)
  {
  }

  // ---------------------------------------------------------------------------------------
  // Covering
  // ---------------------------------------------------------------------------------------

  lemma CoversMore(a: LastOps, b: LastOps, log: seq<Record>, s: nat)
    requires Covers(a, log, s) && OpsGrow(a, b)
    ensures Covers(b, log, s)
  {
    forall i | 0 <= i < |log| && KeyShard(log[i].op.key) == s ensures Remembers(b, log[i].op) {
      assert Remembers(a, log[i].op);
    }
  }

  lemma CoversNext(l: LastOps, log: seq<Record>, s: nat, e: Record)
    requires Covers(l, log, s) && (KeyShard(e.op.key) == s ==> Remembers(l, e.op))
    ensures Covers(l, log + [e], s)
  {
  }

  lemma NewestGrows(a: LastOps, b: LastOps)
    ensures OpsGrow(a, Newest(a, b)) && OpsGrow(b, Newest(a, b))
  {
  }

  lemma ParkedCoversNext(trace: seq<Group>, m: nat, log: seq<Record>, s: nat, y: Group)
    requires ParkedCovers(trace, m, log, s) && ((m, s) in y.parked ==> Covers(y.lastOps, log, s))
    ensures ParkedCovers(trace + [y], m, log, s)
  {
  }

  lemma ParkedCoversOther(trace: seq<Group>, m: nat, log: seq<Record>, s: nat, e: Record)
    requires ParkedCovers(trace, m, log, s) && KeyShard(e.op.key) != s
    ensures ParkedCovers(trace, m, log + [e], s)
  {
    forall k | 0 <= k < |trace| && (m, s) in trace[k].parked ensures Covers(trace[k].lastOps, log + [e], s) {
      CoversNext(trace[k].lastOps, log, s, e);
    }
  }

  // ---------------------------------------------------------------------------------------
  // A commit that does not move the token and leaves the shard's contents
  // ---------------------------------------------------------------------------------------

  ghost predicate SameContents(x: Group, y: Group, t: Token, s: nat) {
    && x.gid == y.gid && OpsGrow(x.lastOps, y.lastOps)
    && (t == Serving(x.gid) ==> ShardData(y.data, s) == ShardData(x.data, s))
    && (t.Parked? && t.gid == x.gid && (t.num, s) in x.parked ==>
        (t.num, s) in y.parked && y.parked[(t.num, s)] == x.parked[(t.num, s)])
  }

  // The last state of each trace is the current one.
  ghost predicate CurrentIn(traces: map<int, seq<Group>>, cur: Groups) {
    && traces.Keys == cur.Keys
    && forall g :: g in traces ==> traces[g] != [] && traces[g][|traces[g]| - 1] == cur[g] && cur[g].gid == g
  }

  lemma SameKeepsHeld(traces: map<int, seq<Group>>, cur: Groups, t: Token, log: seq<Record>, s: nat, g: int, y: Group)
    requires CurrentIn(traces, cur) && HeldOk(traces, cur, t, log, s) && g in cur && SameContents(cur[g], y, t, s)
    ensures HeldOk(traces[g := traces[g] + [y]], cur[g := y], t, log, s)
  {
    var x := cur[g];
    if t == Serving(g) {
      CoversMore(x.lastOps, y.lastOps, log, s);
    }
    if t.Parked? && t.gid == g {
      assert (t.num, s) in traces[g][|traces[g]| - 1].parked;
      CoversMore(x.lastOps, y.lastOps, log, s);
      ParkedCoversNext(traces[g], t.num, log, s, y);
    }
  }

  lemma OtherRecordKeepsHeld(traces: map<int, seq<Group>>, cur: Groups, t: Token, log: seq<Record>, s: nat, e: Record)
    requires HeldOk(traces, cur, t, log, s) && KeyShard(e.op.key) != s
    ensures HeldOk(traces, cur, t, log + [e], s)
  {
    assert (log + [e])[..|log|] == log;
    EffectOnShard(Replay(log), e.op, s);
    match t
    case NoHolder => CoversNext(map[], log, s, e);
    case Serving(g) => CoversNext(cur[g].lastOps, log, s, e);
    case Parked(h, m) => ParkedCoversOther(traces[h], m, log, s, e);
  }

  // ---------------------------------------------------------------------------------------
  // Executing a call
  // ---------------------------------------------------------------------------------------

  lemma RunKeepsHeld(traces: map<int, seq<Group>>, cur: Groups, t: Token, log: seq<Record>, s: nat, g: int, op: Op,
                     e: Record)
    requires CurrentIn(traces, cur) && HeldOk(traces, cur, t, log, s) && g in cur && ServedByHolder(cur, t, s)
    requires Runs(cur[g], op) && e.op == op
    ensures HeldOk(traces[g := traces[g] + [ExecOp(cur[g], op)]], cur[g := ExecOp(cur[g], op)], t, log + [e], s)
  {
    var x, y := cur[g], ExecOp(cur[g], op);
    EffectOnShard(x.data, op, s);
    if KeyShard(op.key) != s {
      SameKeepsHeld(traces, cur, t, log, s, g, y);
      OtherRecordKeepsHeld(traces[g := traces[g] + [y]], cur[g := y], t, log, s, e);
    } else {
      assert t == Serving(g);
      assert (log + [e])[..|log|] == log;
      EffectOnShard(Replay(log), op, s);
      CoversMore(x.lastOps, y.lastOps, log, s);
      CoversNext(y.lastOps, log, s, e);
    }
  }

  // The call is new, and its answer is the sequential store's.
  lemma RunIsNew(traces: map<int, seq<Group>>, cur: Groups, t: Token, log: seq<Record>, g: int, op: Op)
    requires HeldOk(traces, cur, t, log, KeyShard(op.key)) && g in cur && ServedByHolder(cur, t, KeyShard(op.key))
    requires Runs(cur[g], op)
    ensures Answer(cur[g].data, op) == Answer(Replay(log), op)
    ensures forall i :: 0 <= i < |log| ==> log[i].op != op
  {
    var s := KeyShard(op.key);
    assert t == Serving(g);
    SameAnswer(cur[g].data, Replay(log), op);
    forall i | 0 <= i < |log| ensures log[i].op != op {
      assert KeyShard(log[i].op.key) == s ==> Remembers(cur[g].lastOps, log[i].op);
    }
  }

  // ---------------------------------------------------------------------------------------
  // Moving the token
  // ---------------------------------------------------------------------------------------

  // Losing a shard parks its contents.
  lemma LoseKeepsHeld(plan: Plan, traces: map<int, seq<Group>>, cur: Groups, log: seq<Record>, s: nat, g: int, y: Group)
    requires PlanOk(plan) && CurrentIn(traces, cur) && g in cur && HeldOk(traces, cur, Serving(g), log, s)
    requires forall k :: 0 <= k < |traces[g]| ==> (cur[g].config.num, s) !in traces[g][k].parked
    requires OpsGrow(cur[g].lastOps, y.lastOps)
    requires (cur[g].config.num, s) in y.parked && y.parked[(cur[g].config.num, s)] == ShardData(cur[g].data, s)
    ensures HeldOk(traces[g := traces[g] + [y]], cur[g := y], Parked(g, cur[g].config.num), log, s)
  {
    CoversMore(cur[g].lastOps, y.lastOps, log, s);
    ParkedCoversNext(traces[g], cur[g].config.num, log, s, y);
  }

  // The first owner starts with nothing.
  lemma FirstKeepsHeld(traces: map<int, seq<Group>>, cur: Groups, log: seq<Record>, s: nat, g: int, y: Group)
    requires CurrentIn(traces, cur) && g in cur && HeldOk(traces, cur, NoHolder, log, s)
    requires ShardData(y.data, s) == map[]
    ensures HeldOk(traces[g := traces[g] + [y]], cur[g := y], Serving(g), log, s)
  {
    CoversMore(map[], y.lastOps, log, s);
  }

  // Installing what the holder answered, in whatever state it was, takes over the contents.
  lemma InstallKeepsHeld(traces: map<int, seq<Group>>, cur: Groups, log: seq<Record>, s: nat, g: int, y: Group,
                         h: int, m: nat, ready: nat)
    requires CurrentIn(traces, cur) && g in cur && HeldOk(traces, cur, Parked(h, m), log, s)
    requires ready < |traces[h]| && (m, s) in traces[h][ready].parked
    requires cur[h].parked[(m, s)] == traces[h][ready].parked[(m, s)]
    requires ShardData(y.data, s) == traces[h][ready].parked[(m, s)]
    requires OpsGrow(traces[h][ready].lastOps, y.lastOps)
    ensures HeldOk(traces[g := traces[g] + [y]], cur[g := y], Serving(g), log, s)
  {
    assert Covers(traces[h][ready].lastOps, log, s);
    CoversMore(traces[h][ready].lastOps, y.lastOps, log, s);
  }
}

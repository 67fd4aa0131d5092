/**
 What the sharded store promises over every run of its groups.
 */
module ShardTheorems {
  import opened Linearizability
  import opened KvHistory
  import opened KvStore
  import opened KvClients
  import opened ShardConfig
  import opened ShardServer
  import opened ShardCluster
  import opened ShardGroups
  import opened ShardTokens
  import opened ShardContents
  import opened ShardSafety

  ghost predicate Takes(plan: Plan, c: Cluster, step: Step, d: Cluster) {
    && PlanOk(plan) && Enabled(plan, c, step)
    && (Commits(step) ==> Alive(c, step.gid) && Shaped(Now(c, step.gid), CommandOf(plan, c, step)))
    && d == Next(plan, c, step)
  }

  ghost predicate IsRun(plan: Plan, run: seq<Cluster>, steps: seq<Step>) {
    && PlanOk(plan) && |run| == |steps| + 1 && Init(plan, run[0])
    && forall k :: 0 <= k < |steps| ==> Takes(plan, run[k], steps[k], run[k + 1])
  }

  lemma {:induction false} RunKeepsInv(plan: Plan, run: seq<Cluster>, steps: seq<Step>, k: nat)
    requires IsRun(plan, run, steps) && k < |run|
    ensures Inv(plan, run[k])
  {
    if k == 0 {
      InitKeepsInv(plan, run[0]);
    } else {
      RunKeepsInv(plan, run, steps, k - 1);
      assert Takes(plan, run[k - 1], steps[k - 1], run[k]);
      StepKeepsInv(plan, run[k - 1], steps[k - 1]);
    }
  }

  // ---------------------------------------------------------------------------------------
  // The plan is the controller's
  // ---------------------------------------------------------------------------------------

  // The controller only appends, so whatever a query was answered at any time is, by its number,
  // in the one plan that the configurations of a later time make.
  lemma AnswersFollowPlan(configs: seq<Config>, later: seq<Config>, num: int)
    requires Numbered(configs) && Numbered(later) && configs <= later && num >= -1
    ensures PlanOk(PlanOf(later))
    ensures var answer := AnswerTo(configs, num);
            answer == PlanOf(later)(answer.num) && (answer.num == num || answer.num == |configs| - 1)
  {
    forall n: nat | n < |configs| ensures PlanOf(later)(n) == configs[n] {
      assert configs[n] == later[n];
    }
  }

  // ---------------------------------------------------------------------------------------
  // Ownership
  // ---------------------------------------------------------------------------------------

  // At most one group serves a shard.
  lemma ShardExclusive(plan: Plan, run: seq<Cluster>, steps: seq<Step>, k: nat, s: nat, g: int, h: int)
    requires IsRun(plan, run, steps) && k < |run|
    requires Alive(run[k], g) && Alive(run[k], h) && s in Now(run[k], g).mine && s in Now(run[k], h).mine
    ensures g == h
  {
    RunKeepsInv(plan, run, steps, k);
    var c := run[k];
    assert TraceOk(plan, g, c.traces[g]);
    assert GroupOk(plan, Now(c, g));
    assert ShardOk(plan, c, s);
    var cur := Current(c.traces);
    assert cur[g] == Now(c, g) && cur[h] == Now(c, h);
    assert c.token[s] == Serving(g);
    assert c.token[s] == Serving(h);
  }

  // In every state a group has been in, what it serves and what it waits for are disjoint and
  // together are exactly its shards of its configuration.
  lemma ShardsAccounted(plan: Plan, run: seq<Cluster>, steps: seq<Step>, k: nat, g: int, seen: nat, s: nat)
    requires IsRun(plan, run, steps) && k < |run| && Seen(run[k], g, seen) && s < NSHARDS
    ensures var x := run[k].traces[g][seen];
            && !(s in x.mine && s in x.reqs)
            && (s in x.mine || s in x.reqs <==> Owner(plan, x.config.num, s) == g)
  {
    RunKeepsInv(plan, run, steps, k);
    assert TraceOk(plan, g, run[k].traces[g]);
    assert GroupOk(plan, run[k].traces[g][seen]);
  }

  // A group moves one configuration at a time, and only with nothing pending.
  lemma OneConfigAtATime(plan: Plan, run: seq<Cluster>, steps: seq<Step>, k: nat, g: int)
    requires IsRun(plan, run, steps) && k < |steps| && Alive(run[k], g)
    ensures Alive(run[k + 1], g)
    ensures var x, y := Now(run[k], g), Now(run[k + 1], g);
            y.config.num == x.config.num || (y.config.num == x.config.num + 1 && x.reqs == map[])
  {
    RunKeepsInv(plan, run, steps, k);
    var c, step := run[k], steps[k];
    assert Takes(plan, c, step, run[k + 1]);
    if Commits(step) && step.gid == g {
      CommandIsProper(plan, c, step);
      NextConfigOnly(plan, Now(c, g), CommandOf(plan, c, step));
    }
  }

  lemma NextConfigOnly(plan: Plan, x: Group, command: Command)
    requires PlanOk(plan) && ShardGroups.Proper(plan, x, command) && Shaped(x, command)
    ensures var n := Exec(x, command).config.num;
            n == x.config.num || (n == x.config.num + 1 && x.reqs == map[])
  {
  }

  // ---------------------------------------------------------------------------------------
  // Contents
  // ---------------------------------------------------------------------------------------

  ghost predicate ServedBy(c: Cluster, g: int, s: nat) {
    Alive(c, g) && s in Now(c, g).mine && ShardData(Now(c, g).data, s) == ShardData(Replay(c.log), s)
  }

  ghost predicate ParkedBy(plan: Plan, c: Cluster, h: int, m: nat, s: nat)
    requires PlanOk(plan) && s < NSHARDS
  {
    && Alive(c, h) && Owner(plan, m, s) == h && (m, s) in Now(c, h).parked
    && Now(c, h).parked[(m, s)] == ShardData(Replay(c.log), s)
  }

  lemma HolderIs(plan: Plan, c: Cluster, cur: Groups, t: Token, s: nat)
    requires PlanOk(plan) && s < NSHARDS && CurrentIn(c.traces, cur)
    requires TokenOk(plan, cur, t, s) && HeldOk(c.traces, cur, t, c.log, s)
    ensures t.Serving? ==> ServedBy(c, t.gid, s)
    ensures t.Parked? ==> ParkedBy(plan, c, t.gid, t.num, s)
  {
    if t.Parked? {
      assert Waiting(plan, cur, t.gid, t.num, s);
    }
  }

  lemma FirstHasStarted(plan: Plan, c: Cluster, cur: Groups, t: Token, s: nat)
    requires PlanOk(plan) && s < NSHARDS && CurrentIn(c.traces, cur) && FromFirstOn(plan, cur, t, s)
    requires Alive(c, Owner(plan, 1, s)) && Now(c, Owner(plan, 1, s)).config.num >= 1
    ensures t != NoHolder
  {
  }

  // From the moment the first owner has started, the contents a single sequential store would
  // have are in the serving group, or parked with the last owner.
  lemma ShardNeverLost(plan: Plan, run: seq<Cluster>, steps: seq<Step>, k: nat, s: nat)
    requires IsRun(plan, run, steps) && k < |run| && s < NSHARDS
    requires Alive(run[k], Owner(plan, 1, s)) && Now(run[k], Owner(plan, 1, s)).config.num >= 1
    ensures (exists g :: ServedBy(run[k], g, s)) || (exists h, m: nat :: ParkedBy(plan, run[k], h, m, s))
  {
    RunKeepsInv(plan, run, steps, k);
    var c := run[k];
    assert ShardOk(plan, c, s);
    CurrentIs(plan, c.traces);
    HolderIs(plan, c, Current(c.traces), c.token[s], s);
    FirstHasStarted(plan, c, Current(c.traces), c.token[s], s);
  }

  lemma OnlyCollectDrops(x: Group, command: Command, k: (nat, nat))
    requires Shaped(x, command) && k in x.parked && k !in Exec(x, command).parked
    ensures command == Collect(k.0, k.1)
  {
  }

  lemma DropIsCollect(plan: Plan, c: Cluster, step: Step, d: Cluster, h: int, k: (nat, nat))
    requires Takes(plan, c, step, d) && Alive(c, h) && Alive(d, h)
    requires k in Now(c, h).parked && k !in Now(d, h).parked
    ensures step.CollectParked? && step.num == k.0 && step.shard == k.1
  {
    if Commits(step) {
      OnlyCollectDrops(Now(c, h), CommandOf(plan, c, step), k);
    }
  }

  // A parked copy goes only after the next owner has installed the shard.
  lemma CollectedAfterInstall(plan: Plan, run: seq<Cluster>, steps: seq<Step>, k: nat, h: int, m: nat, s: nat)
    requires IsRun(plan, run, steps) && k < |steps| && Alive(run[k], h) && Alive(run[k + 1], h)
    requires (m, s) in Now(run[k], h).parked && (m, s) !in Now(run[k + 1], h).parked
    ensures s < NSHARDS && Taken(plan, Current(run[k].traces), m, s)
  {
    RunKeepsInv(plan, run, steps, k);
    var c, step := run[k], steps[k];
    assert Takes(plan, c, step, run[k + 1]);
    DropIsCollect(plan, c, step, run[k + 1], h, (m, s));
    ListedIsTaken(plan, c, step.asker, step.seen, m, s);
  }

  // ---------------------------------------------------------------------------------------
  // Calls
  // ---------------------------------------------------------------------------------------

  // An answered call was executed exactly once over all groups, between its start and its
  // answer, and was given the answer of that execution.
  lemma ExactlyOnce(plan: Plan, run: seq<Cluster>, steps: seq<Step>, k: nat, id: (int, int)) returns (i: nat)
    requires IsRun(plan, run, steps) && k < |run| && id in run[k].clients.replies
    ensures i < |run[k].log| && IsCall(run[k].log[i], id) && id in run[k].clients.answers
            && IsStarted(run[k].clients, id)
    ensures var call := CallsOf(run[k].clients, id.0)[id.1];
            run[k].log[i].op == call.op && run[k].log[i].invoked == call.time
    ensures run[k].log[i].result == run[k].clients.answers[id] == Answer(Replay(run[k].log[..i]), run[k].log[i].op)
    ensures run[k].log[i].invoked < run[k].log[i].executed < run[k].clients.replies[id]
    ensures forall j :: 0 <= j < |run[k].log| && IsCall(run[k].log[j], id) ==> j == i
  {
    RunKeepsInv(plan, run, steps, k);
    i := ExecutedOnce(run[k].clients, run[k].log, id);
  }

  // The calls of all clients over all groups, reconfigurations and migrations are linearizable
  // against one store.
  lemma ServiceIsLinearizable(plan: Plan, run: seq<Cluster>, steps: seq<Step>, k: nat)
    requires IsRun(plan, run, steps) && k < |run|
    ensures SeeOneStore(run[k].clients)
  {
    RunKeepsInv(plan, run, steps, k);
    HistoryIsLinearizable(run[k].clients, run[k].log);
  }
}

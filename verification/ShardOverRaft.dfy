/**
 The sharded store on the Raft clusters of its groups, from the clients down to the messages between
 the peers of each group (src/shardkv/client.go, src/shardkv/server.go, src/raft/raft.go): the
 history of calls is linearizable, and every server of a group is at a state its group has been in.
 */
module ShardOverRaft {
  import opened KvStore
  import opened KvClients
  import opened ShardConfig
  import opened ShardServer
  import opened ShardCluster
  import ShardSafety
  import RaftServer
  import RaftCore
  import RaftCluster
  import RaftService
  import Delivery

  // How a server reads the commands it was given, and encodes its state.
  datatype Coding = Coding(parse: string -> Command, encode: Group -> string, decode: string -> Group)

  // What a server does with the next command of its log.
  ghost function Apply(k: Coding, x: Group, c: string): Group {
    if Shaped(x, k.parse(c)) then Exec(x, k.parse(c)) else x
  }

  ghost function ServiceOf(k: Coding, gid: int): Delivery.Service<Group> {
    Delivery.Service(Fresh(gid), (x: Group, c: RaftServer.Command) => Apply(k, x, c), k.encode, k.decode)
  }

  type Served = RaftService.Served<Group>

  // The peers and services of each group; and the groups as ShardCluster has them, with the
  // clients.  The groups' states are a record of the run.
  datatype Whole = Whole(served: map<int, Served>, shards: Cluster)

  datatype Step =
    | Invoke(op: Op)
    | Run(gid: int, step: RaftService.ServedStep)
    | Answer(gid: int, i: nat, client: int, call: int)

  // The command is one that a server of the group may propose.
  ghost predicate Proposes(plan: Plan, c: Cluster, gid: int, command: Command, step: ShardCluster.Step)
    requires PlanOk(plan)
  {
    Commits(step) && step.gid == gid && ShardCluster.Enabled(plan, c, step) && CommandOf(plan, c, step) == command
  }

  ghost predicate Proposed(plan: Plan, c: Cluster, gid: int, command: Command)
    requires PlanOk(plan)
  {
    exists step :: Proposes(plan, c, gid, command, step)
  }

  ghost predicate Enabled(k: Coding, plan: Plan, w: Whole, step: Step)
    requires PlanOk(plan)
  {
    match step
    case Invoke(op) => MayStart(w.shards.clients, op)
    // A server hands to Start a client's call, the next configuration, a shard it was sent, or the
    // wish of a new owner to have a shard dropped.
    case Run(gid, step) =>
      && gid in w.served && RaftService.Sized(w.served[gid]) && RaftService.May(w.served[gid], step)
      && (step.Peers? && step.step.Start? ==> Proposed(plan, w.shards, gid, k.parse(step.step.command)))
    // Any server, however far behind, answers from its own table.
    case Answer(gid, i, client, call) =>
      && gid in w.served && RaftService.Sized(w.served[gid]) && i < w.served[gid].raft.n
      && MayRespond(w.shards.clients, (client, call), w.served[gid].replicas[i].state.lastOps)
  }

  // The record of a command executed for the first time in its group.
  ghost function Recorded(k: Coding, c: Cluster, gid: int, was: seq<string>, log: seq<string>): Cluster {
    if |log| == |was| + 1 && Alive(c, gid) && Shaped(Now(c, gid), k.parse(log[|was|]))
    then Commit(c, gid, k.parse(log[|was|])) else c
  }

  ghost predicate Follows(k: Coding, plan: Plan, w: Whole, step: Step, v: Whole)
    requires PlanOk(plan) && Enabled(k, plan, w, step)
  {
    match step
    case Invoke(op) => v == Whole(w.served, w.shards.(clients := StartCall(w.shards.clients, op)))
    case Run(gid, step) =>
      && gid in v.served && v.served == w.served[gid := v.served[gid]]
      && RaftService.Takes(ServiceOf(k, gid), w.served[gid], step, v.served[gid])
      && v.shards == Recorded(k, w.shards, gid, w.served[gid].log, v.served[gid].log)
    case Answer(gid, i, client, call) =>
      var table := w.served[gid].replicas[i].state.lastOps;
      v == Whole(w.served, w.shards.(clients := Respond(w.shards.clients, (client, call), table)))
  }

  ghost predicate Takes(k: Coding, plan: Plan, w: Whole, step: Step, v: Whole) {
    PlanOk(plan) && Enabled(k, plan, w, step) && Follows(k, plan, w, step, v)
  }

  // `sizes` has the number of peers of each group.
  ghost predicate Starts(k: Coding, plan: Plan, sizes: map<int, nat>, w: Whole) {
    && PlanOk(plan) && ShardCluster.Init(plan, w.shards)
    && w.served.Keys == sizes.Keys == w.shards.traces.Keys
    && forall gid :: gid in sizes ==> w.served[gid] == RaftService.Begin(ServiceOf(k, gid), sizes[gid])
  }

  ghost predicate IsRun(k: Coding, plan: Plan, sizes: map<int, nat>, run: seq<Whole>, steps: seq<Step>) {
    AreSteps(k, plan, run, steps) && Starts(k, plan, sizes, run[0])
  }

  ghost predicate AreSteps(k: Coding, plan: Plan, run: seq<Whole>, steps: seq<Step>) {
    |run| == |steps| + 1 && forall x :: 0 <= x < |steps| ==> Takes(k, plan, run[x], steps[x], run[x + 1])
  }

  // ---------------------------------------------------------------------------------------
  // A proposal stays one
  // ---------------------------------------------------------------------------------------

  // The groups have been in more states, and the clients have started more calls.
  ghost predicate Onwards(c: Cluster, d: Cluster) {
    && (forall g :: g in c.traces ==> g in d.traces && c.traces[g] <= d.traces[g])
    && CallsGrow(c.clients, d.clients)
  }

  lemma StillProposes(plan: Plan, c: Cluster, d: Cluster, gid: int, command: Command, step: ShardCluster.Step)
    requires PlanOk(plan) && Onwards(c, d) && Proposes(plan, c, gid, command, step)
    ensures Proposes(plan, d, gid, command, step)
  {
    match step
    case RunOp(g, op) => StaysStarted(c.clients, d.clients, op);
    case Reconfigure(g, seen) => assert d.traces[g][seen] == c.traces[g][seen];
    case Migrate(g, seen, shard, from, ready) =>
      assert d.traces[g][seen] == c.traces[g][seen] && d.traces[from][ready] == c.traces[from][ready];
    case CollectParked(g, asker, seen, num, shard) => assert d.traces[asker][seen] == c.traces[asker][seen];
  }

  lemma StillProposed(plan: Plan, c: Cluster, d: Cluster, gid: int, command: Command)
    requires PlanOk(plan) && Onwards(c, d) && Proposed(plan, c, gid, command)
    ensures Proposed(plan, d, gid, command)
  {
    var step :| Proposes(plan, c, gid, command, step);
    StillProposes(plan, c, d, gid, command, step);
  }

  // ---------------------------------------------------------------------------------------
  // The invariant
  // ---------------------------------------------------------------------------------------

  // The group's states are those after each command of its log.
  ghost predicate IsTrace(k: Coding, gid: int, log: seq<string>, trace: seq<Group>) {
    && |trace| == |log| + 1 && trace[0] == Fresh(gid)
    && forall n :: 0 <= n < |log| ==> trace[n + 1] == Apply(k, trace[n], log[n])
  }

  // Every command in a leader's log of the group was proposed.
  ghost predicate AllProposed(k: Coding, plan: Plan, c: Cluster, gid: int, leaders: map<nat, RaftCore.Lead>)
    requires PlanOk(plan)
  {
    forall command :: RaftService.Known(leaders, command) ==> Proposed(plan, c, gid, k.parse(command))
  }

  ghost predicate GroupServed(k: Coding, w: Whole, gid: int) {
    gid in w.served && RaftService.ServedInv(ServiceOf(k, gid), w.served[gid])
  }

  ghost predicate ServedOk(k: Coding, w: Whole) {
    forall gid {:trigger GroupServed(k, w, gid)} :: gid in w.served ==> GroupServed(k, w, gid)
  }

  ghost predicate GroupFits(k: Coding, plan: Plan, w: Whole, gid: int)
    requires PlanOk(plan)
  {
    && gid in w.served && gid in w.shards.traces && IsTrace(k, gid, w.served[gid].log, w.shards.traces[gid])
    && AllProposed(k, plan, w.shards, gid, w.served[gid].raft.hist.leaders)
  }

  ghost predicate GroupsFit(k: Coding, plan: Plan, w: Whole)
    requires PlanOk(plan)
  {
    && w.served.Keys == w.shards.traces.Keys
    && forall gid {:trigger GroupFits(k, plan, w, gid)} :: gid in w.served ==> GroupFits(k, plan, w, gid)
  }

  ghost predicate Fits(k: Coding, plan: Plan, w: Whole) {
    ShardSafety.Inv(plan, w.shards) && GroupsFit(k, plan, w)
  }

  // A server's state is the one its group was in after as many commands.
  lemma {:induction false} FoldIsTrace(k: Coding, gid: int, log: seq<string>, trace: seq<Group>, n: nat)
    requires IsTrace(k, gid, log, trace) && n <= |log|
    ensures Delivery.Fold(ServiceOf(k, gid), RaftService.TruthOf(log), n) == trace[n]
  {
    if n > 0 {
      FoldIsTrace(k, gid, log, trace, n - 1);
      assert trace[n - 1 + 1] == Apply(k, trace[n - 1], log[n - 1]);
    }
  }

  // ---------------------------------------------------------------------------------------
  // Every step keeps it
  // ---------------------------------------------------------------------------------------

  lemma StartsOk(k: Coding, plan: Plan, sizes: map<int, nat>, w: Whole)
    requires Starts(k, plan, sizes, w)
    ensures ServedOk(k, w) && Fits(k, plan, w)
  {
    ShardSafety.InitKeepsInv(plan, w.shards);
    forall gid | gid in w.served ensures GroupServed(k, w, gid) {
      RaftService.BeginIsOk(ServiceOf(k, gid), sizes[gid]);
    }
    forall gid | gid in w.served ensures GroupFits(k, plan, w, gid) {
      assert w.served[gid].raft == RaftCluster.Init(sizes[gid]);
    }
  }

  lemma AllStillProposed(k: Coding, plan: Plan, c: Cluster, d: Cluster, gid: int, leaders: map<nat, RaftCore.Lead>)
    requires PlanOk(plan) && Onwards(c, d) && AllProposed(k, plan, c, gid, leaders)
    ensures AllProposed(k, plan, d, gid, leaders)
  {
    forall command | RaftService.Known(leaders, command) ensures Proposed(plan, d, gid, k.parse(command)) {
      StillProposed(plan, c, d, gid, k.parse(command));
    }
  }

  lemma ClientsFit(k: Coding, plan: Plan, w: Whole, clients: Clients)
    requires PlanOk(plan) && GroupsFit(k, plan, w) && CallsGrow(w.shards.clients, clients)
    ensures GroupsFit(k, plan, Whole(w.served, w.shards.(clients := clients)))
  {
    var v := Whole(w.served, w.shards.(clients := clients));
    forall gid | gid in v.served ensures GroupFits(k, plan, v, gid) {
      assert GroupFits(k, plan, w, gid);
      AllStillProposed(k, plan, w.shards, v.shards, gid, w.served[gid].raft.hist.leaders);
    }
  }

  lemma InvokeKeeps(k: Coding, plan: Plan, w: Whole, op: Op, v: Whole)
    requires Takes(k, plan, w, Invoke(op), v) && Fits(k, plan, w)
    ensures Fits(k, plan, v)
  {
    ShardSafety.StepKeepsInv(plan, w.shards, Start(op));
    StartGrows(w.shards.clients, op);
    ClientsFit(k, plan, w, v.shards.clients);
  }

  // A server's state is one its group has been in.
  lemma ServerIsInTrace(k: Coding, plan: Plan, w: Whole, gid: int, i: nat)
    requires PlanOk(plan) && GroupFits(k, plan, w, gid) && GroupServed(k, w, gid) && i < w.served[gid].raft.n
    ensures var r := w.served[gid].replicas[i];
            Seen(w.shards, gid, r.lastApplied) && r.state == w.shards.traces[gid][r.lastApplied]
  {
    assert RaftService.AtPeer(ServiceOf(k, gid), w.served[gid], i);
    FoldIsTrace(k, gid, w.served[gid].log, w.shards.traces[gid], w.served[gid].replicas[i].lastApplied);
  }

  lemma AnswerKeeps(k: Coding, plan: Plan, w: Whole, gid: int, i: nat, client: int, call: int, v: Whole)
    requires Takes(k, plan, w, Answer(gid, i, client, call), v)
    requires GroupServed(k, w, gid) && Fits(k, plan, w)
    ensures Fits(k, plan, v)
  {
    assert GroupFits(k, plan, w, gid);
    ServerIsInTrace(k, plan, w, gid, i);
    ShardSafety.StepKeepsInv(plan, w.shards, Reply(client, call, gid, w.served[gid].replicas[i].lastApplied));
    ClientsFit(k, plan, w, v.shards.clients);
  }

  // What a leader's log holds after a step of the group was proposed before it.
  lemma StepProposed(k: Coding, plan: Plan, w: Whole, gid: int, step: RaftService.ServedStep, y: Served)
    requires PlanOk(plan) && Enabled(k, plan, w, Run(gid, step)) && GroupFits(k, plan, w, gid)
    requires GroupServed(k, w, gid)
    requires RaftService.Takes(ServiceOf(k, gid), w.served[gid], step, y)
    ensures AllProposed(k, plan, w.shards, gid, y.raft.hist.leaders)
  {
    forall command | RaftService.Known(y.raft.hist.leaders, command)
      ensures Proposed(plan, w.shards, gid, k.parse(command))
    {
      if !RaftService.Submits(step, command) {
        RaftService.KnownBefore(ServiceOf(k, gid), w.served[gid], step, y, command);
      }
    }
  }

  // The command is committed as ShardCluster has it.
  lemma CommitIs(plan: Plan, c: Cluster, gid: int, command: Command)
    requires ShardSafety.Inv(plan, c) && Proposed(plan, c, gid, command)
    ensures Alive(c, gid) && Shaped(Now(c, gid), command)
    ensures ShardSafety.Inv(plan, Commit(c, gid, command)) && Onwards(c, Commit(c, gid, command))
  {
    var step :| Proposes(plan, c, gid, command, step);
    ShardSafety.StepKeepsInv(plan, c, step);
  }

  lemma TraceGrows(k: Coding, gid: int, was: seq<string>, log: seq<string>, trace: seq<Group>)
    requires IsTrace(k, gid, was, trace) && was <= log && |log| == |was| + 1
    ensures IsTrace(k, gid, log, trace + [Apply(k, trace[|was|], log[|was|])])
  {
    var more := trace + [Apply(k, trace[|was|], log[|was|])];
    forall n | 0 <= n < |log| ensures more[n + 1] == Apply(k, more[n], log[n]) {
      if n < |was| {
        assert was[n] == log[n] && trace[n + 1] == Apply(k, trace[n], was[n]);
      }
    }
  }

  // The peers' part: what a step executes was proposed, and so is all its leaders have.
  lemma RunProposed(k: Coding, plan: Plan, w: Whole, gid: int, step: RaftService.ServedStep, v: Whole)
    requires Takes(k, plan, w, Run(gid, step), v) && GroupFits(k, plan, w, gid)
    requires GroupServed(k, w, gid)
    ensures var was, log := w.served[gid].log, v.served[gid].log;
            && was <= log && (log == was || |log| == |was| + 1)
            && (|log| == |was| + 1 ==> Proposed(plan, w.shards, gid, k.parse(log[|was|])))
    ensures AllProposed(k, plan, w.shards, gid, v.served[gid].raft.hist.leaders)
  {
    var x, y := w.served[gid], v.served[gid];
    RaftService.StepKeepsServed(ServiceOf(k, gid), x, step, y);
    RaftService.OneAtATime(ServiceOf(k, gid), x, step, y);
    StepProposed(k, plan, w, gid, step, y);
    if |y.log| == |x.log| + 1 {
      RaftService.ExecutedIsKnown(ServiceOf(k, gid), y, |x.log|);
    }
  }

  // The groups' part.
  lemma RecordedFits(k: Coding, plan: Plan, c: Cluster, gid: int, was: seq<string>, log: seq<string>)
    requires ShardSafety.Inv(plan, c) && gid in c.traces && IsTrace(k, gid, was, c.traces[gid])
    requires was <= log && (log == was || |log| == |was| + 1)
    requires |log| == |was| + 1 ==> Proposed(plan, c, gid, k.parse(log[|was|]))
    ensures var d := Recorded(k, c, gid, was, log);
            && Onwards(c, d) && ShardSafety.Inv(plan, d) && d.traces.Keys == c.traces.Keys
            && IsTrace(k, gid, log, d.traces[gid]) && d.traces == c.traces[gid := d.traces[gid]]
  {
    if |log| == |was| + 1 {
      CommitIs(plan, c, gid, k.parse(log[|was|]));
      TraceGrows(k, gid, was, log, c.traces[gid]);
    }
  }

  // After the step the one group still fits.
  lemma RunGroupFits(k: Coding, plan: Plan, w: Whole, gid: int, step: RaftService.ServedStep, v: Whole)
    requires Takes(k, plan, w, Run(gid, step), v) && GroupFits(k, plan, w, gid) && ShardSafety.Inv(plan, w.shards)
    requires GroupServed(k, w, gid)
    ensures Onwards(w.shards, v.shards) && ShardSafety.Inv(plan, v.shards) && GroupFits(k, plan, v, gid)
    ensures gid in v.shards.traces && v.shards.traces == w.shards.traces[gid := v.shards.traces[gid]]
  {
    RunProposed(k, plan, w, gid, step, v);
    RecordedFits(k, plan, w.shards, gid, w.served[gid].log, v.served[gid].log);
    AllStillProposed(k, plan, w.shards, v.shards, gid, v.served[gid].raft.hist.leaders);
  }

  lemma RunKeeps(k: Coding, plan: Plan, w: Whole, gid: int, step: RaftService.ServedStep, v: Whole)
    requires Takes(k, plan, w, Run(gid, step), v)
    requires GroupServed(k, w, gid) && Fits(k, plan, w)
    ensures Fits(k, plan, v)
  {
    assert GroupFits(k, plan, w, gid);
    RunGroupFits(k, plan, w, gid, step, v);
    OthersFit(k, plan, w, v, gid);
  }

  lemma OthersFit(k: Coding, plan: Plan, w: Whole, v: Whole, gid: int)
    requires PlanOk(plan) && GroupsFit(k, plan, w) && GroupFits(k, plan, v, gid) && Onwards(w.shards, v.shards)
    requires gid in w.served && v.served == w.served[gid := v.served[gid]]
    requires v.shards.traces == w.shards.traces[gid := v.shards.traces[gid]]
    ensures GroupsFit(k, plan, v)
  {
    forall g | g in v.served ensures GroupFits(k, plan, v, g) {
      if g != gid {
        assert GroupFits(k, plan, w, g);
        OtherFits(k, plan, w, v, g);
      }
    }
  }

  lemma OtherFits(k: Coding, plan: Plan, w: Whole, v: Whole, g: int)
    requires PlanOk(plan) && GroupFits(k, plan, w, g) && Onwards(w.shards, v.shards)
    requires g in v.served && v.served[g] == w.served[g] && v.shards.traces[g] == w.shards.traces[g]
    ensures GroupFits(k, plan, v, g)
  {
    AllStillProposed(k, plan, w.shards, v.shards, g, w.served[g].raft.hist.leaders);
  }

  lemma StepKeeps(k: Coding, plan: Plan, w: Whole, step: Step, v: Whole)
    requires Takes(k, plan, w, step, v)
    requires ServedOk(k, w) && Fits(k, plan, w)
    ensures Fits(k, plan, v)
  {
    match step
    case Invoke(op) => InvokeKeeps(k, plan, w, op, v);
    case Run(gid, step) =>
      assert GroupServed(k, w, gid);
      RunKeeps(k, plan, w, gid, step, v);
    case Answer(gid, i, client, call) =>
      assert GroupServed(k, w, gid);
      AnswerKeeps(k, plan, w, gid, i, client, call, v);
  }

  // ---------------------------------------------------------------------------------------
  // Runs
  // ---------------------------------------------------------------------------------------

  lemma TakesStep(k: Coding, plan: Plan, run: seq<Whole>, steps: seq<Step>, x: nat)
    requires AreSteps(k, plan, run, steps) && 1 <= x < |run|
    ensures Takes(k, plan, run[x - 1], steps[x - 1], run[x])
  {
    assert Takes(k, plan, run[x - 1], steps[x - 1], run[x - 1 + 1]);
  }

  lemma NextServed(k: Coding, plan: Plan, w: Whole, step: Step, v: Whole)
    requires ServedOk(k, w) && Takes(k, plan, w, step, v)
    ensures ServedOk(k, v)
  {
    if step.Run? {
      assert GroupServed(k, w, step.gid);
      RaftService.StepKeepsServed(ServiceOf(k, step.gid), w.served[step.gid], step.step, v.served[step.gid]);
    }
    forall gid | gid in v.served ensures GroupServed(k, v, gid) {
      assert gid in w.served ==> GroupServed(k, w, gid);
    }
  }

  lemma {:induction false} StepsServed(k: Coding, plan: Plan, run: seq<Whole>, steps: seq<Step>, x: nat)
    requires AreSteps(k, plan, run, steps) && x < |run| && ServedOk(k, run[0])
    ensures ServedOk(k, run[x])
  {
    if x > 0 {
      StepsServed(k, plan, run, steps, x - 1);
      TakesStep(k, plan, run, steps, x);
      NextServed(k, plan, run[x - 1], steps[x - 1], run[x]);
    }
  }

  lemma NextFits(k: Coding, plan: Plan, run: seq<Whole>, steps: seq<Step>, x: nat)
    requires AreSteps(k, plan, run, steps) && 1 <= x < |run| && ServedOk(k, run[x - 1]) && Fits(k, plan, run[x - 1])
    ensures Fits(k, plan, run[x])
  {
    TakesStep(k, plan, run, steps, x);
    StepKeeps(k, plan, run[x - 1], steps[x - 1], run[x]);
  }

  lemma {:induction false} StepsFit(k: Coding, plan: Plan, run: seq<Whole>, steps: seq<Step>, x: nat)
    requires AreSteps(k, plan, run, steps) && x < |run| && ServedOk(k, run[0]) && Fits(k, plan, run[0])
    ensures Fits(k, plan, run[x])
  {
    if x > 0 {
      StepsFit(k, plan, run, steps, x - 1);
      StepsServed(k, plan, run, steps, x - 1);
      NextFits(k, plan, run, steps, x);
    }
  }

  lemma RunServed(k: Coding, plan: Plan, sizes: map<int, nat>, run: seq<Whole>, steps: seq<Step>, x: nat)
    requires IsRun(k, plan, sizes, run, steps) && x < |run|
    ensures ServedOk(k, run[x])
  {
    StartsOk(k, plan, sizes, run[0]);
    StepsServed(k, plan, run, steps, x);
  }

  lemma RunFits(k: Coding, plan: Plan, sizes: map<int, nat>, run: seq<Whole>, steps: seq<Step>, x: nat)
    requires IsRun(k, plan, sizes, run, steps) && x < |run|
    ensures Fits(k, plan, run[x])
  {
    StartsOk(k, plan, sizes, run[0]);
    StepsFit(k, plan, run, steps, x);
  }

  // In every run of clients, servers and the peers of all groups, through reconfigurations and
  // migrations, the clients cannot tell the groups from one store.
  lemma GroupsAreOneStore(k: Coding, plan: Plan, sizes: map<int, nat>, run: seq<Whole>, steps: seq<Step>, x: nat)
    requires IsRun(k, plan, sizes, run, steps) && x < |run|
    ensures SeeOneStore(run[x].shards.clients)
  {
    RunFits(k, plan, sizes, run, steps, x);
    HistoryIsLinearizable(run[x].shards.clients, run[x].shards.log);
  }

  // And every server of a group is, at any time, where its group has been: after as many commands
  // as it has executed.
  lemma EveryServerInTrace(k: Coding, plan: Plan, sizes: map<int, nat>, run: seq<Whole>, steps: seq<Step>, x: nat,
                           gid: int, i: nat)
    requires IsRun(k, plan, sizes, run, steps) && x < |run| && gid in run[x].served && i < run[x].served[gid].raft.n
    ensures RaftService.Sized(run[x].served[gid])
    ensures var r := run[x].served[gid].replicas[i];
            Seen(run[x].shards, gid, r.lastApplied) && r.state == run[x].shards.traces[gid][r.lastApplied]
  {
    RunServed(k, plan, sizes, run, steps, x);
    RunFits(k, plan, sizes, run, steps, x);
    assert GroupFits(k, plan, run[x], gid) && GroupServed(k, run[x], gid);
    ServerIsInTrace(k, plan, run[x], gid, i);
  }
}

/**
 The key/value service on its Raft cluster, from the clients down to the messages between the
 peers (src/kvraft/client.go, src/kvraft/server.go, src/raft/raft.go): the history of calls is
 linearizable, with nothing said of the committed log but what the peers make it.
 */
module KvOverRaft {
  import opened KvStore
  import opened KvClients
  import KvRaft
  import RaftCore
  import RaftService
  import Delivery

  // How a server reads the commands it was given, and encodes its state.
  datatype Coding = Coding(parse: string -> Op, encode: KvRaft.KvState -> string, decode: string -> KvRaft.KvState)

  ghost function ServiceOf(g: Coding): Delivery.Service<KvRaft.KvState> {
    KvRaft.AsService(g.parse, g.encode, g.decode)
  }

  // The peers with their services; and the clients, with the record of what was executed.
  datatype Whole = Whole(served: RaftService.Served<KvRaft.KvState>, kv: KvRaft.System)

  datatype Step =
    | Invoke(op: Op)
    | Run(step: RaftService.ServedStep)
    | Answer(i: nat, client: int, call: int)

  ghost predicate Enabled(g: Coding, w: Whole, step: Step) {
    && RaftService.Sized(w.served)
    && match step
       case Invoke(op) => MayStart(w.kv.clients, op)
       // A server hands the calls that clients have sent to Start, late and more than once.
       case Run(step) =>
         && RaftService.May(w.served, step)
         && (step.Peers? && step.step.Start? ==> Started(w.kv.clients, g.parse(step.step.command)))
       // Any server, however far behind, answers from its own table.
       case Answer(i, client, call) =>
         i < w.served.raft.n && MayRespond(w.kv.clients, (client, call), w.served.replicas[i].state.lastOps)
  }

  // The record of a command executed for the first time.
  ghost function Recorded(kv: KvRaft.System, op: Op): KvRaft.System {
    if Started(kv.clients, op) then KvRaft.Next(kv, KvRaft.Commit(op)) else kv.(log := kv.log + [op])
  }

  ghost function RecordedAll(g: Coding, kv: KvRaft.System, was: seq<string>, log: seq<string>): KvRaft.System {
    if |log| == |was| + 1 then Recorded(kv, g.parse(log[|was|])) else kv
  }

  ghost predicate Follows(g: Coding, w: Whole, step: Step, v: Whole)
    requires Enabled(g, w, step)
  {
    match step
    case Invoke(op) => v == Whole(w.served, KvRaft.Next(w.kv, KvRaft.Start(op)))
    case Run(step) =>
      && RaftService.Takes(ServiceOf(g), w.served, step, v.served)
      && v.kv == RecordedAll(g, w.kv, w.served.log, v.served.log)
    case Answer(i, client, call) =>
      v == Whole(w.served, w.kv.(clients := Respond(w.kv.clients, (client, call), w.served.replicas[i].state.lastOps)))
  }

  ghost function Begin(g: Coding, n: nat): Whole {
    Whole(RaftService.Begin(ServiceOf(g), n), KvRaft.Initial)
  }

  // ---------------------------------------------------------------------------------------
  // The invariant
  // ---------------------------------------------------------------------------------------

  // The peers' log, read as calls.
  ghost predicate SameLog(g: Coding, commands: seq<string>, log: seq<Op>) {
    |log| == |commands| && forall i :: 0 <= i < |log| ==> log[i] == g.parse(commands[i])
  }

  // Every command in a leader's log is a call that was started.
  ghost predicate AllStarted(g: Coding, leaders: map<nat, RaftCore.Lead>, clients: Clients) {
    forall command :: RaftService.Known(leaders, command) ==> Started(clients, g.parse(command))
  }

  ghost predicate ServedOk(g: Coding, w: Whole) {
    RaftService.ServedInv(ServiceOf(g), w.served)
  }

  ghost predicate KvOk(g: Coding, w: Whole) {
    && KvRaft.Inv(w.kv) && SameLog(g, w.served.log, w.kv.log)
    && AllStarted(g, w.served.raft.hist.leaders, w.kv.clients)
  }

  ghost predicate Inv(g: Coding, w: Whole) {
    ServedOk(g, w) && KvOk(g, w)
  }

  lemma BeginIsOk(g: Coding, n: nat)
    ensures Inv(g, Begin(g, n))
  {
    RaftService.BeginIsOk(ServiceOf(g), n);
  }

  // A started call stays started.
  lemma StartedStays(g: Coding, leaders: map<nat, RaftCore.Lead>, c: Clients, d: Clients)
    requires AllStarted(g, leaders, c) && CallsGrow(c, d)
    ensures AllStarted(g, leaders, d)
  {
    forall command | RaftService.Known(leaders, command) ensures Started(d, g.parse(command)) {
      StaysStarted(c, d, g.parse(command));
    }
  }

  lemma InvokeKeeps(g: Coding, w: Whole, op: Op)
    requires Inv(g, w) && Enabled(g, w, Invoke(op))
    ensures Inv(g, Whole(w.served, KvRaft.Next(w.kv, KvRaft.Start(op))))
  {
    KvRaft.StepKeepsInv(w.kv, KvRaft.Start(op));
    StartGrows(w.kv.clients, op);
    StartedStays(g, w.served.raft.hist.leaders, w.kv.clients, StartCall(w.kv.clients, op));
  }

  // ---------------------------------------------------------------------------------------
  // The peers and their services
  // ---------------------------------------------------------------------------------------

  lemma StepStarted(g: Coding, w: Whole, step: RaftService.ServedStep, v: RaftService.Served<KvRaft.KvState>)
    requires Inv(g, w) && Enabled(g, w, Run(step)) && RaftService.Takes(ServiceOf(g), w.served, step, v)
    ensures AllStarted(g, v.raft.hist.leaders, w.kv.clients)
  {
    forall command | RaftService.Known(v.raft.hist.leaders, command) ensures Started(w.kv.clients, g.parse(command)) {
      if !RaftService.Submits(step, command) {
        RaftService.KnownBefore(ServiceOf(g), w.served, step, v, command);
      }
    }
  }

  // What is newly executed is one call, and a started one.
  lemma NewIsStarted(g: Coding, v: RaftService.Served<KvRaft.KvState>, clients: Clients, q: nat)
    requires RaftService.ServedInv(ServiceOf(g), v) && AllStarted(g, v.raft.hist.leaders, clients) && q < |v.log|
    ensures Started(clients, g.parse(v.log[q]))
  {
    RaftService.ExecutedIsKnown(ServiceOf(g), v, q);
  }

  lemma CommitKeeps(g: Coding, kv: KvRaft.System, was: seq<string>, log: seq<string>, leaders: map<nat, RaftCore.Lead>)
    requires KvRaft.Inv(kv) && SameLog(g, was, kv.log) && AllStarted(g, leaders, kv.clients)
    requires was <= log && |log| == |was| + 1 && Started(kv.clients, g.parse(log[|was|]))
    ensures var kv' := RecordedAll(g, kv, was, log);
            KvRaft.Inv(kv') && SameLog(g, log, kv'.log) && AllStarted(g, leaders, kv'.clients)
  {
    var op := g.parse(log[|was|]);
    KvRaft.StepKeepsInv(kv, KvRaft.Commit(op));
    CommitIs(kv, op);
    OneMoreCall(g, was, kv.log, log);
    StartedStays(g, leaders, kv.clients, Tick(kv.clients));
  }

  lemma CommitIs(kv: KvRaft.System, op: Op)
    requires Started(kv.clients, op)
    ensures var kv' := KvRaft.Next(kv, KvRaft.Commit(op));
            kv'.log == kv.log + [op] && kv'.clients == Tick(kv.clients) && CallsGrow(kv.clients, kv'.clients)
  {
  }

  lemma OneMoreCall(g: Coding, was: seq<string>, calls: seq<Op>, log: seq<string>)
    requires SameLog(g, was, calls) && was <= log && |log| == |was| + 1
    ensures SameLog(g, log, calls + [g.parse(log[|was|])])
  {
    forall i | 0 <= i < |log| ensures (calls + [g.parse(log[|was|])])[i] == g.parse(log[i]) {
      if i < |was| {
        assert was[i] == log[i];
      }
    }
  }

  lemma RunKeeps(g: Coding, w: Whole, step: RaftService.ServedStep, v: Whole)
    requires Inv(g, w) && Enabled(g, w, Run(step)) && Follows(g, w, Run(step), v)
    ensures Inv(g, v)
  {
    RaftService.StepKeepsServed(ServiceOf(g), w.served, step, v.served);
    StepStarted(g, w, step, v.served);
    RaftService.OneAtATime(ServiceOf(g), w.served, step, v.served);
    if |v.served.log| == |w.served.log| + 1 {
      NewIsStarted(g, v.served, w.kv.clients, |w.served.log|);
      CommitKeeps(g, w.kv, w.served.log, v.served.log, v.served.raft.hist.leaders);
    }
  }

  // ---------------------------------------------------------------------------------------
  // Answers
  // ---------------------------------------------------------------------------------------

  lemma StateIsAtPrefix(g: Coding, commands: seq<string>, log: seq<Op>, n: nat)
    requires SameLog(g, commands, log) && n <= |log|
    ensures Delivery.Fold(ServiceOf(g), RaftService.TruthOf(commands), n) == KvRaft.StateAt(log, n)
  {
    KvRaft.FoldIsState(ServiceOf(g), RaftService.TruthOf(commands), g.parse, log, n);
  }

  // The table a server answers from is that of a prefix of the log.
  lemma ServerIsAtPrefix(g: Coding, w: Whole, i: nat)
    requires Inv(g, w) && i < w.served.raft.n
    ensures w.served.replicas[i].lastApplied <= |w.kv.log|
    ensures w.served.replicas[i].state == KvRaft.StateAt(w.kv.log, w.served.replicas[i].lastApplied)
  {
    assert RaftService.AtPeer(ServiceOf(g), w.served, i);
    StateIsAtPrefix(g, w.served.log, w.kv.log, w.served.replicas[i].lastApplied);
  }

  lemma AnswerKeeps(g: Coding, w: Whole, i: nat, client: int, call: int, v: Whole)
    requires Inv(g, w) && Enabled(g, w, Answer(i, client, call)) && Follows(g, w, Answer(i, client, call), v)
    ensures Inv(g, v)
  {
    ServerIsAtPrefix(g, w, i);
    KvRaft.StepKeepsInv(w.kv, KvRaft.Reply(client, call, w.served.replicas[i].lastApplied));
    StartedStays(g, w.served.raft.hist.leaders, w.kv.clients, v.kv.clients);
  }

  // ---------------------------------------------------------------------------------------
  // Runs
  // ---------------------------------------------------------------------------------------

  ghost predicate Takes(g: Coding, w: Whole, step: Step, v: Whole) {
    Enabled(g, w, step) && Follows(g, w, step, v)
  }

  ghost predicate IsRun(g: Coding, n: nat, run: seq<Whole>, steps: seq<Step>) {
    && |run| == |steps| + 1 && run[0] == Begin(g, n)
    && forall x :: 0 <= x < |steps| ==> Takes(g, run[x], steps[x], run[x + 1])
  }

  lemma StepKeeps(g: Coding, w: Whole, step: Step, v: Whole)
    requires Inv(g, w) && Takes(g, w, step, v)
    ensures Inv(g, v)
  {
    match step
    case Invoke(op) => InvokeKeeps(g, w, op);
    case Run(step) => RunKeeps(g, w, step, v);
    case Answer(i, client, call) => AnswerKeeps(g, w, i, client, call, v);
  }

  lemma NextServed(g: Coding, w: Whole, step: Step, v: Whole)
    requires ServedOk(g, w) && Takes(g, w, step, v)
    ensures ServedOk(g, v)
  {
    if step.Run? {
      RaftService.StepKeepsServed(ServiceOf(g), w.served, step.step, v.served);
    }
  }

  lemma {:induction false} RunServed(g: Coding, n: nat, run: seq<Whole>, steps: seq<Step>, x: nat)
    requires IsRun(g, n, run, steps) && x < |run|
    ensures ServedOk(g, run[x])
  {
    if x == 0 {
      BeginIsOk(g, n);
    } else {
      RunServed(g, n, run, steps, x - 1);
      assert Takes(g, run[x - 1], steps[x - 1], run[x]);
      NextServed(g, run[x - 1], steps[x - 1], run[x]);
    }
  }

  lemma NextKv(g: Coding, n: nat, run: seq<Whole>, steps: seq<Step>, x: nat)
    requires IsRun(g, n, run, steps) && 1 <= x < |run| && KvOk(g, run[x - 1])
    ensures KvOk(g, run[x])
  {
    RunServed(g, n, run, steps, x - 1);
    assert Takes(g, run[x - 1], steps[x - 1], run[x]);
    StepKeeps(g, run[x - 1], steps[x - 1], run[x]);
  }

  lemma {:induction false} RunKv(g: Coding, n: nat, run: seq<Whole>, steps: seq<Step>, x: nat)
    requires IsRun(g, n, run, steps) && x < |run|
    ensures KvOk(g, run[x])
  {
    if x == 0 {
      BeginIsOk(g, n);
    } else {
      RunKv(g, n, run, steps, x - 1);
      NextKv(g, n, run, steps, x);
    }
  }

  lemma RunKeepsInv(g: Coding, n: nat, run: seq<Whole>, steps: seq<Step>, x: nat)
    requires IsRun(g, n, run, steps) && x < |run|
    ensures Inv(g, run[x])
  {
    RunServed(g, n, run, steps, x);
    RunKv(g, n, run, steps, x);
  }

  // In every run of clients, servers and peers, the clients cannot tell the cluster from one store
  // that executes their calls one at a time.
  lemma ClusterIsOneStore(g: Coding, n: nat, run: seq<Whole>, steps: seq<Step>, x: nat)
    requires IsRun(g, n, run, steps) && x < |run|
    ensures SeeOneStore(run[x].kv.clients)
  {
    RunKeepsInv(g, n, run, steps, x);
    HistoryIsLinearizable(run[x].kv.clients, run[x].kv.done);
  }

  // And every server, at any time, holds what the first of those calls leave.
  lemma EveryServerAtPrefix(g: Coding, n: nat, run: seq<Whole>, steps: seq<Step>, x: nat, i: nat)
    requires IsRun(g, n, run, steps) && x < |run| && i < run[x].served.raft.n
    ensures RaftService.Sized(run[x].served)
    ensures var r := run[x].served.replicas[i];
            r.lastApplied <= |run[x].kv.log| && r.state == KvRaft.StateAt(run[x].kv.log, r.lastApplied)
  {
    RunKeepsInv(g, n, run, steps, x);
    ServerIsAtPrefix(g, run[x], i);
  }
}

/**
 The replicated key/value service (src/kvraft/server.go, src/kvraft/client.go) over any
 append-only committed log in which started calls may appear many times and late.
 */
module KvRaft {
  import opened Linearizability
  import opened KvHistory
  import opened KvStore
  import opened KvClients
  import RaftServer
  import Delivery

  // What a server holds, apart from how far it has applied.
  datatype KvState = KvState(data: Store, lastOps: LastOps)

  const Empty := KvState(map[], map[])

  predicate Stale(k: KvState, op: Op) {
    op.client in k.lastOps && k.lastOps[op.client].call >= op.call
  }

  // A call that is not newer than the client's last one is skipped.
  function Execute(k: KvState, op: Op): KvState {
    if Stale(k, op) then k
    else KvState(Effect(k.data, op), k.lastOps[op.client := LastOperation(op.call, Answer(k.data, op))])
  }

  // The state after the first n entries of the log.
  function StateAt(log: seq<Op>, n: nat): KvState
    requires n <= |log|
  {
    if n == 0 then Empty else Execute(StateAt(log, n - 1), log[n - 1])
  }

  lemma {:induction false} PrefixState(log: seq<Op>, more: seq<Op>, n: nat)
    requires n <= |log| && log <= more
    ensures StateAt(log, n) == StateAt(more, n)
  {
    if n > 0 {
      PrefixState(log, more, n - 1);
      assert log[n - 1] == more[n - 1];
    }
  }

  // ---------------------------------------------------------------------------------------
  // The service
  // ---------------------------------------------------------------------------------------

  // The committed log and the clients; `done` records the calls as they are executed.
  datatype System = System(log: seq<Op>, clients: Clients, done: seq<Record>)

  datatype Step =
    | Start(op: Op)
    | Commit(op: Op)
    | Reply(client: int, call: int, applied: nat)

  ghost predicate Enabled(c: System, step: Step) {
    match step
    case Start(op) => MayStart(c.clients, op)
    // A request may be committed late and more than once.
    case Commit(op) => Started(c.clients, op)
    // A server that has applied any prefix of the log answers from its table.
    case Reply(client, call, applied) =>
      applied <= |c.log| && MayRespond(c.clients, (client, call), StateAt(c.log, applied).lastOps)
  }

  ghost function Next(c: System, step: Step): System
    requires Enabled(c, step)
  {
    match step
    case Start(op) => c.(clients := StartCall(c.clients, op))
    case Commit(op) =>
      var k := StateAt(c.log, |c.log|);
      System(c.log + [op], Tick(c.clients),
             if Stale(k, op) then c.done else c.done + [NewRecord(c.clients, op, Answer(k.data, op))])
    case Reply(client, call, applied) =>
      c.(clients := Respond(c.clients, (client, call), StateAt(c.log, applied).lastOps))
  }

  const Initial := System([], NoClients, [])

  // Every call executed so far is remembered by the newest table.
  ghost predicate Remembered(done: seq<Record>, l: LastOps) {
    forall i :: 0 <= i < |done| ==> done[i].op.client in l && done[i].op.call <= l[done[i].op.client].call
  }

  ghost predicate TablesOk(log: seq<Op>, done: seq<Record>) {
    forall n: nat :: n <= |log| ==> TableOk(done, StateAt(log, n).lastOps)
  }

  ghost predicate Inv(c: System) {
    && ClientsOk(c.clients, c.done)
    && StateAt(c.log, |c.log|).data == Replay(c.done)
    && Remembered(c.done, StateAt(c.log, |c.log|).lastOps)
    && TablesOk(c.log, c.done)
  }

  lemma StaleKeepsInv(c: System, op: Op)
    requires Inv(c) && Started(c.clients, op) && Stale(StateAt(c.log, |c.log|), op)
    ensures Inv(Next(c, Commit(op)))
  {
    var d, n := Next(c, Commit(op)), |c.log|;
    PrefixState(c.log, d.log, n);
    TickKeepsClients(c.clients, c.done);
    forall m: nat | m <= |d.log| ensures TableOk(d.done, StateAt(d.log, m).lastOps) {
      PrefixState(c.log, d.log, if m <= n then m else n);
    }
  }

  lemma ExecutedIsNew(c: System, op: Op)
    requires Inv(c) && !Stale(StateAt(c.log, |c.log|), op)
    ensures forall i :: 0 <= i < |c.done| ==> c.done[i].op != op
  {
  }

  lemma {:induction false} RunKeepsTables(log: seq<Op>, done: seq<Record>, op: Op, e: Record)
    requires TablesOk(log, done) && !Stale(StateAt(log, |log|), op)
    requires e.op == op && e.result == Answer(StateAt(log, |log|).data, op)
    ensures TablesOk(log + [op], done + [e])
  {
    var n, more := |log|, log + [op];
    forall m: nat | m <= n + 1 ensures TableOk(done + [e], StateAt(more, m).lastOps) {
      PrefixState(log, more, if m <= n then m else n);
      if m <= n {
        TableStays(done, e, StateAt(log, m).lastOps);
      } else {
        TableNext(done, e, StateAt(log, n).lastOps);
      }
    }
  }

  lemma RunKeepsInv(c: System, op: Op)
    requires Inv(c) && Started(c.clients, op) && !Stale(StateAt(c.log, |c.log|), op)
    ensures Inv(Next(c, Commit(op)))
  {
    var d, k := Next(c, Commit(op)), StateAt(c.log, |c.log|);
    var e := NewRecord(c.clients, op, Answer(k.data, op));
    PrefixState(c.log, d.log, |c.log|);
    ExecutedIsNew(c, op);
    ExecuteKeepsClients(c.clients, c.done, op);
    RememberedMore(c.done, e, k.lastOps);
    RunKeepsTables(c.log, c.done, op, e);
  }

  lemma RememberedMore(done: seq<Record>, e: Record, l: LastOps)
    requires Remembered(done, l) && (e.op.client in l ==> l[e.op.client].call < e.op.call)
    ensures Remembered(done + [e], l[e.op.client := LastOperation(e.op.call, e.result)])
  {
  }

  lemma StepKeepsInv(c: System, step: Step)
    requires Inv(c) && Enabled(c, step)
    ensures Inv(Next(c, step))
  {
    match step
    case Start(op) => StartKeepsClients(c.clients, c.done, op);
    case Commit(op) =>
      if Stale(StateAt(c.log, |c.log|), op) {
        StaleKeepsInv(c, op);
      } else {
        RunKeepsInv(c, op);
      }
    case Reply(client, call, applied) =>
      RespondKeepsClients(c.clients, c.done, (client, call), StateAt(c.log, applied).lastOps);
  }

  ghost predicate IsRun(run: seq<System>, steps: seq<Step>) {
    && |run| == |steps| + 1 && run[0] == Initial
    && forall k :: 0 <= k < |steps| ==> Enabled(run[k], steps[k]) && run[k + 1] == Next(run[k], steps[k])
  }

  lemma {:induction false} EveryStateOk(run: seq<System>, steps: seq<Step>, k: nat)
    requires IsRun(run, steps) && k < |run|
    ensures Inv(run[k])
  {
    if k > 0 {
      EveryStateOk(run, steps, k - 1);
      StepKeepsInv(run[k - 1], steps[k - 1]);
    }
  }

  // The history of calls is linearizable, duplicates and late entries and all.
  lemma KvIsLinearizable(run: seq<System>, steps: seq<Step>, k: nat)
    requires IsRun(run, steps) && k < |run|
    ensures SeeOneStore(run[k].clients)
  {
    EveryStateOk(run, steps, k);
    HistoryIsLinearizable(run[k].clients, run[k].done);
  }

  // An answered call was executed exactly once, and was given the answer of its execution.
  lemma AnsweredOnce(run: seq<System>, steps: seq<Step>, k: nat, id: (int, int)) returns (i: nat)
    requires IsRun(run, steps) && k < |run| && id in run[k].clients.replies
    ensures i < |run[k].done| && IsCall(run[k].done[i], id) && id in run[k].clients.answers
            && IsStarted(run[k].clients, id)
    ensures var call := CallsOf(run[k].clients, id.0)[id.1];
            run[k].done[i].op == call.op && run[k].done[i].invoked == call.time
    ensures run[k].done[i].result == run[k].clients.answers[id] == Answer(Replay(run[k].done[..i]), run[k].done[i].op)
    ensures run[k].done[i].invoked < run[k].done[i].executed < run[k].clients.replies[id]
    ensures forall j :: 0 <= j < |run[k].done| && IsCall(run[k].done[j], id) ==> j == i
  {
    EveryStateOk(run, steps, k);
    i := ExecutedOnce(run[k].clients, run[k].done, id);
  }

  // ---------------------------------------------------------------------------------------
  // Every server is at some prefix of the log
  // ---------------------------------------------------------------------------------------

  // The service as Raft delivers to it: commands and snapshots are encoded.
  ghost function AsService(parse: string -> Op, encode: KvState -> string,
                           decode: string -> KvState): Delivery.Service<KvState> {
    Delivery.Service(Empty, (k: KvState, c: RaftServer.Command) => Execute(k, parse(c)), encode, decode)
  }

  lemma {:induction false} FoldIsState(m: Delivery.Service<KvState>, truth: Delivery.Truth, parse: string -> Op,
                                       log: seq<Op>, n: nat)
    requires n <= |log| && m.init == Empty
             && (forall k: KvState, c: RaftServer.Command :: m.exec(k, c) == Execute(k, parse(c)))
    requires forall i: nat :: 1 <= i <= |log| ==> parse(truth(i)) == log[i - 1]
    ensures Delivery.Fold(m, truth, n) == StateAt(log, n)
  {
    if n > 0 {
      FoldIsState(m, truth, parse, log, n - 1);
    }
  }

  // Whatever mix of execution, installed snapshots and restarts got a server to LastApplied, it
  // holds the state after that many entries of the committed log.
  lemma ServerIsAtPrefix(parse: string -> Op, encode: KvState -> string, decode: string -> KvState,
                         truth: Delivery.Truth,
                         log: seq<Op>, run: seq<Delivery.Node<KvState>>, steps: seq<Delivery.Step>, k: nat)
    requires forall s: KvState :: decode(encode(s)) == s
    requires Delivery.IsRun(AsService(parse, encode, decode), truth, run, steps) && k < |run|
    requires forall i: nat :: 1 <= i <= |log| ==> parse(truth(i)) == log[i - 1]
    requires run[k].replica.lastApplied <= |log|
    ensures run[k].replica.state == StateAt(log, run[k].replica.lastApplied)
  {
    var m := AsService(parse, encode, decode);
    Delivery.StateIsFold(m, truth, run, steps, k);
    FoldIsState(m, truth, parse, log, run[k].replica.lastApplied);
  }
}

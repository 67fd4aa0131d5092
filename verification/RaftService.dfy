/**
 A service on every peer of a Raft cluster (src/raft/raft.go, applier; src/kvraft/server.go,
 execOp): whatever is lost, delayed, reordered or crashes, all of them execute one sequence of
 commands, each of which some peer was given by Start.

 As everywhere in RaftTheorems, no service takes snapshots: RaftSnapshotRun shows that with them
 two services can execute different commands at one index.
 */
module RaftService {
  import opened RaftServer
  import opened RaftCore
  import opened RaftCluster
  import opened RaftSafety
  import opened RaftReplication
  import opened RaftTheorems
  import Delivery

  type Service<!K> = Delivery.Service<K>

  type Replica<K> = Delivery.Replica<K>

  // The cluster, what is on its way over each apply channel, and each service.  `log` records the
  // commands in the order in which a service was the first to execute them; no step reads it.
  datatype Served<K> = Served(raft: Cluster, channels: seq<seq<ApplyMsg>>, replicas: seq<Replica<K>>, log: seq<Command>)

  datatype ServedStep = Peers(step: RaftCluster.Step) | Consume(i: nat)

  ghost predicate Sized<K>(x: Served<K>) {
    Shape(x.raft) && |x.channels| == x.raft.n && |x.replicas| == x.raft.n
  }

  ghost predicate May<K>(x: Served<K>, step: ServedStep)
    requires Sized(x)
  {
    match step
    case Peers(step) => Enabled(x.raft, step) && !step.Snap?
    case Consume(i) => i < x.raft.n && x.channels[i] != []
  }

  // What peer j puts on its apply channel in this step.
  ghost function Sent(c: Cluster, step: RaftCluster.Step, j: nat): seq<ApplyMsg>
    requires Shape(c) && Enabled(c, step) && j < c.n
  {
    if step == Apply(j) && ApplyRound(c.servers[j]).Done? then ApplyRound(c.servers[j]).value.1 else []
  }

  ghost predicate Restarted(c: Cluster, d: Cluster, j: nat)
    requires j < |c.epochs| && j < |d.epochs|
  {
    c.epochs[j] != d.epochs[j]
  }

  // A restarted peer has an empty channel and a service that starts from what is on disk.
  ghost predicate PeerFollows<K>(m: Service<K>, x: Served<K>, step: RaftCluster.Step, y: Served<K>, j: nat)
    requires Sized(x) && Sized(y) && Enabled(x.raft, step) && j < x.raft.n == y.raft.n
  {
    if Restarted(x.raft, y.raft, j) then
      y.channels[j] == [] && y.replicas[j] == Delivery.Restore(m, y.raft.servers[j].disk.snapshot)
    else
      y.channels[j] == x.channels[j] + Sent(x.raft, step, j) && y.replicas[j] == x.replicas[j]
  }

  ghost predicate Moved<K>(m: Service<K>, x: Served<K>, step: RaftCluster.Step, y: Served<K>)
    requires Sized(x) && Sized(y) && Enabled(x.raft, step)
  {
    && y.raft == Next(x.raft, step) && y.log == x.log && y.raft.n == x.raft.n
    && forall j: nat :: j < x.raft.n ==> PeerFollows(m, x, step, y, j)
  }

  // The service of peer i takes the next message; a command nobody has executed is recorded.
  ghost predicate Consumed<K>(m: Service<K>, x: Served<K>, i: nat, y: Served<K>)
    requires Sized(x) && i < x.raft.n && x.channels[i] != []
  {
    var msg := x.channels[i][0];
    && y.raft == x.raft && y.channels == x.channels[i := x.channels[i][1..]]
    && Delivery.Receive(m, x.replicas[i], msg).Done?
    && y.replicas == x.replicas[i := Delivery.Receive(m, x.replicas[i], msg).value]
    && y.log == Recorded(x.log, msg)
  }

  function Recorded(log: seq<Command>, msg: ApplyMsg): seq<Command> {
    if msg.CommandMsg? && msg.index > |log| then log + [msg.command] else log
  }

  ghost predicate Follows<K>(m: Service<K>, x: Served<K>, step: ServedStep, y: Served<K>)
    requires Sized(x) && Sized(y) && May(x, step)
  {
    match step
    case Peers(step) => Moved(m, x, step, y)
    case Consume(i) => Consumed(m, x, i, y)
  }

  function Begin<K>(m: Service<K>, n: nat): Served<K> {
    Served(Init(n), seq(n, _ => []), seq(n, _ => Delivery.Replica(0, m.init)), [])
  }

  // ---------------------------------------------------------------------------------------
  // The invariant
  // ---------------------------------------------------------------------------------------

  function TruthOf(log: seq<Command>): Delivery.Truth {
    (i: nat) => if 1 <= i <= |log| then log[i - 1] else ""
  }

  // The command is the one chosen for its index.
  ghost predicate IsChosen(k: Core, index: nat, command: Command) {
    AppliedOk(k, Applied(0, index, command))
  }

  ghost predicate LogChosen(k: Core, log: seq<Command>) {
    forall q :: 0 <= q < |log| ==> IsChosen(k, q + 1, log[q])
  }

  // The messages carry the chosen commands from index `from` + 1 on.
  ghost predicate Continues(k: Core, from: nat, msgs: seq<ApplyMsg>) {
    forall q :: 0 <= q < |msgs| ==>
      msgs[q].CommandMsg? && msgs[q].index == from + 1 + q && IsChosen(k, from + 1 + q, msgs[q].command)
  }

  // The service is at a prefix of the log, and its channel brings it to where the peer is.
  ghost predicate PeerOk<K>(m: Service<K>, k: Core, applied: nat, msgs: seq<ApplyMsg>, r: Replica<K>,
                            log: seq<Command>) {
    && r.lastApplied <= |log| && r.state == Delivery.Fold(m, TruthOf(log), r.lastApplied)
    && r.lastApplied + |msgs| == applied && Continues(k, r.lastApplied, msgs)
  }

  ghost predicate AtPeer<K>(m: Service<K>, x: Served<K>, j: nat)
    requires Sized(x) && j < x.raft.n
  {
    PeerOk(m, CoreOf(x.raft), x.raft.servers[j].lastApplied, x.channels[j], x.replicas[j], x.log)
  }

  ghost predicate ServedInv<K>(m: Service<K>, x: Served<K>) {
    && Sized(x) && LogInv(x.raft) && LogChosen(CoreOf(x.raft), x.log)
    && forall j: nat :: j < x.raft.n ==> AtPeer(m, x, j)
  }

  lemma BeginIsOk<K>(m: Service<K>, n: nat)
    ensures ServedInv(m, Begin(m, n))
  {
    InitKeepsLogInv(n);
  }

  // ---------------------------------------------------------------------------------------
  // A step of the cluster
  // ---------------------------------------------------------------------------------------

  // Peer j has been restarted, or has applied no more than before.
  ghost predicate KeepsApplied(c: Cluster, d: Cluster, j: nat)
    requires Shape(c) && j < c.n
  {
    && j < |d.epochs| && j < |d.servers|
    && d.servers[j].lastApplied == if Restarted(c, d, j) then 0 else c.servers[j].lastApplied
  }

  lemma AppendLeavesApplied(s: Server, a: AppendArgs)
    requires s.WellFormed() && HandleAppend(s, a).Done?
    ensures HandleAppend(s, a).value.0.lastApplied == s.lastApplied
  {
  }

  lemma RequestKeepsApplied(c: Cluster, m: Message, j: nat)
    requires Shape(c) && j < c.n && Plain(c.servers[j]) && m in c.net && m.AppendReq?
    ensures KeepsApplied(c, OnAppendReq(c, m), j)
  {
    if HandleAppend(c.servers[m.callee], m.append).Done? {
      AppendLeavesApplied(c.servers[m.callee], m.append);
    }
  }

  lemma ReplyKeepsApplied(c: Cluster, m: Message, j: nat)
    requires Shape(c) && j < c.n && Plain(c.servers[j]) && m in c.net && m.AppendRep?
    ensures KeepsApplied(c, OnAppendRep(c, m), j)
  {
    if HandleAppendReply(c.servers[m.caller], m.callee, m.append, m.appendReply).Done? {
      Delivery.AppendBackIs(c.servers[m.caller], m.callee, m.append, m.appendReply);
    }
  }

  lemma ElectionKeepsApplied(c: Cluster, step: RaftCluster.Step, j: nat)
    requires Shape(c) && j < c.n && Enabled(c, step) && (step.Timeout? || step.DeliverVoteReq? || step.DeliverVoteRep?)
    ensures KeepsApplied(c, Next(c, step), j)
  {
    if step.DeliverVoteReq? {
      Delivery.VoteIs(c.servers[step.m.callee], step.m.vote);
    }
  }

  lemma LeaderKeepsApplied(c: Cluster, step: RaftCluster.Step, j: nat)
    requires Shape(c) && j < c.n && Plain(c.servers[j]) && Enabled(c, step)
             && (step.Start? || step.Send? || step.Crash?)
    ensures KeepsApplied(c, Next(c, step), j)
  {
  }

  lemma OthersKeepApplied(c: Cluster, i: nat, j: nat)
    requires Shape(c) && i < c.n && j < c.n && i != j
    ensures KeepsApplied(c, OnApply(c, i), j)
  {
  }

  // Only the apply loop and a restart change how far a peer has applied.
  lemma AppliedMoves(c: Cluster, step: RaftCluster.Step, j: nat)
    requires LogInv(c) && Enabled(c, step) && !step.Snap? && j < c.n && step != Apply(j)
    ensures KeepsApplied(c, Next(c, step), j)
  {
    RaftSafety.AtPeer(c, j);
    match step
    case DeliverAppendReq(m) => RequestKeepsApplied(c, m, j);
    case DeliverAppendRep(m) => ReplyKeepsApplied(c, m, j);
    case DeliverSnapReq(m) => AtMessage(c, m);
    case DeliverSnapRep(m) => AtMessage(c, m);
    case Apply(i) => OthersKeepApplied(c, i, j);
    case Timeout(_) => ElectionKeepsApplied(c, step, j);
    case DeliverVoteReq(_) => ElectionKeepsApplied(c, step, j);
    case DeliverVoteRep(_) => ElectionKeepsApplied(c, step, j);
    case Start(_, _) => LeaderKeepsApplied(c, step, j);
    case Send(_, _) => LeaderKeepsApplied(c, step, j);
    case Crash(_) => LeaderKeepsApplied(c, step, j);
  }

  lemma {:induction false} CommandsAt(logs: Log, lo: nat, hi: nat, q: nat)
    requires lo + q < hi < |logs|
    ensures |Commands(logs, 0, lo, hi)| == hi - lo
    ensures Commands(logs, 0, lo, hi)[q] == CommandMsg(lo + 1 + q, logs[lo + 1 + q].command)
    decreases hi
  {
    if lo + q < hi - 1 {
      CommandsAt(logs, lo, hi - 1, q);
    } else if lo < hi - 1 {
      CommandsAt(logs, lo, hi - 1, 0);
    }
  }

  lemma CommittedCommand(k: Core, i: nat, s: Server, counted: set<nat>, index: nat)
    requires ServerInv(k, i, s, counted) && 1 <= index <= s.committedIndex
    ensures index < |s.logs| && IsChosen(k, index, s.logs[index].command)
  {
    DeliveredIsChosen(k, i, s, counted, index);
  }

  lemma CommandsContinue(k: Core, i: nat, s: Server, counted: set<nat>, lo: nat)
    requires ServerInv(k, i, s, counted) && lo < s.committedIndex < |s.logs|
    ensures |Commands(s.logs, 0, lo, s.committedIndex)| == s.committedIndex - lo
    ensures Continues(k, lo, Commands(s.logs, 0, lo, s.committedIndex))
  {
    var hi := s.committedIndex;
    var msgs := Commands(s.logs, 0, lo, hi);
    CommandsAt(s.logs, lo, hi, 0);
    forall q | 0 <= q < |msgs|
      ensures msgs[q].CommandMsg? && msgs[q].index == lo + 1 + q && IsChosen(k, lo + 1 + q, msgs[q].command)
    {
      CommandsAt(s.logs, lo, hi, q);
      CommittedCommand(k, i, s, counted, lo + 1 + q);
    }
  }

  lemma RoundSends(s: Server)
    requires s.WellFormed() && Plain(s) && s.committedIndex < |s.logs|
    ensures ApplyRound(s).Done?
    ensures s.lastApplied < s.committedIndex ==>
              && ApplyRound(s).value.0.lastApplied == s.committedIndex
              && ApplyRound(s).value.1 == Commands(s.logs, 0, s.lastApplied, s.committedIndex)
    ensures s.lastApplied >= s.committedIndex ==>
            ApplyRound(s).value.0.lastApplied == s.lastApplied && ApplyRound(s).value.1 == []
  {
  }

  // The apply loop does not panic, and sends the chosen commands from where the peer was.
  lemma ApplySends(k: Core, i: nat, s: Server, counted: set<nat>)
    requires s.WellFormed() && ServerInv(k, i, s, counted)
    ensures ApplyRound(s).Done?
    ensures ApplyRound(s).value.0.lastApplied == s.lastApplied + |ApplyRound(s).value.1|
    ensures Continues(k, s.lastApplied, ApplyRound(s).value.1)
  {
    if s.committedIndex > 0 {
      CommittedCommand(k, i, s, counted, s.committedIndex);
    }
    RoundSends(s);
    if s.lastApplied < s.committedIndex {
      CommandsContinue(k, i, s, counted, s.lastApplied);
    }
  }

  lemma ContinuesStands(k: Core, k': Core, from: nat, msgs: seq<ApplyMsg>)
    requires Extends(k, k') && Continues(k, from, msgs)
    ensures Continues(k', from, msgs)
  {
    forall q | 0 <= q < |msgs| ensures IsChosen(k', from + 1 + q, msgs[q].command) {
      AppliedStands(k, k', Applied(0, from + 1 + q, msgs[q].command));
    }
  }

  lemma LogStands(k: Core, k': Core, log: seq<Command>)
    requires Extends(k, k') && LogChosen(k, log)
    ensures LogChosen(k', log)
  {
    forall q | 0 <= q < |log| ensures IsChosen(k', q + 1, log[q]) {
      AppliedStands(k, k', Applied(0, q + 1, log[q]));
    }
  }

  lemma ContinuesFurther(k: Core, from: nat, a: seq<ApplyMsg>, b: seq<ApplyMsg>)
    requires Continues(k, from, a) && Continues(k, from + |a|, b)
    ensures Continues(k, from, a + b)
  {
    forall q | 0 <= q < |a + b|
      ensures (a + b)[q].CommandMsg? && (a + b)[q].index == from + 1 + q
              && IsChosen(k, from + 1 + q, (a + b)[q].command)
    {
      if q >= |a| {
        var p := q - |a|;
        assert (a + b)[q] == b[p];
        assert IsChosen(k, from + |a| + 1 + p, b[p].command);
      }
    }
  }

  // What a step of the cluster does to a peer that is not restarted.
  lemma SentContinues(c: Cluster, step: RaftCluster.Step, j: nat)
    requires LogInv(c) && Enabled(c, step) && !step.Snap? && j < c.n && LogInv(Next(c, step)) && Next(c, step).n == c.n
    requires !Restarted(c, Next(c, step), j)
    ensures Continues(CoreOf(c), c.servers[j].lastApplied, Sent(c, step, j))
    ensures Next(c, step).servers[j].lastApplied == c.servers[j].lastApplied + |Sent(c, step, j)|
  {
    if step == Apply(j) {
      RaftSafety.AtPeer(c, j);
      ApplySends(CoreOf(c), j, c.servers[j], CountedBy(c.hist, c.servers[j].currentTerm, j));
    } else {
      AppliedMoves(c, step, j);
    }
  }

  lemma RestartedIsEmpty(c: Cluster, step: RaftCluster.Step, j: nat)
    requires LogInv(c) && Enabled(c, step) && !step.Snap? && j < c.n && LogInv(Next(c, step)) && Next(c, step).n == c.n
    requires Restarted(c, Next(c, step), j)
    ensures Next(c, step).servers[j].lastApplied == 0 && Next(c, step).servers[j].disk.snapshot == NoSnapshot
  {
    if step == Apply(j) {
      RaftSafety.AtPeer(c, j);
      ApplySends(CoreOf(c), j, c.servers[j], CountedBy(c.hist, c.servers[j].currentTerm, j));
    } else {
      AppliedMoves(c, step, j);
    }
    RaftSafety.AtPeer(Next(c, step), j);
  }

  lemma PeerStands<K>(m: Service<K>, k: Core, k': Core, applied: nat, msgs: seq<ApplyMsg>, more: seq<ApplyMsg>,
                      r: Replica<K>, log: seq<Command>)
    requires PeerOk(m, k, applied, msgs, r, log) && Extends(k, k') && Continues(k, applied, more)
    ensures PeerOk(m, k', applied + |more|, msgs + more, r, log)
  {
    ContinuesFurther(k, r.lastApplied, msgs, more);
    ContinuesStands(k, k', r.lastApplied, msgs + more);
  }

  lemma MovedPeerOk<K>(m: Service<K>, x: Served<K>, step: RaftCluster.Step, y: Served<K>, j: nat)
    requires ServedInv(m, x) && Sized(y) && May(x, Peers(step)) && Moved(m, x, step, y) && j < x.raft.n
    requires LogInv(y.raft) && Extends(CoreOf(x.raft), CoreOf(y.raft))
    ensures AtPeer(m, y, j)
  {
    assert PeerFollows(m, x, step, y, j);
    if Restarted(x.raft, y.raft, j) {
      RestartedIsEmpty(x.raft, step, j);
    } else {
      SentContinues(x.raft, step, j);
      assert AtPeer(m, x, j);
      PeerStands(m, CoreOf(x.raft), CoreOf(y.raft), x.raft.servers[j].lastApplied, x.channels[j], Sent(x.raft, step, j),
                 x.replicas[j], x.log);
    }
  }

  lemma MovedKeeps<K>(m: Service<K>, x: Served<K>, step: RaftCluster.Step, y: Served<K>)
    requires ServedInv(m, x) && Sized(y) && May(x, Peers(step)) && Moved(m, x, step, y)
    ensures ServedInv(m, y)
  {
    StepKeepsLogInv(x.raft, step);
    LogStands(CoreOf(x.raft), CoreOf(y.raft), x.log);
    forall j: nat | j < y.raft.n ensures AtPeer(m, y, j) {
      MovedPeerOk(m, x, step, y, j);
    }
  }

  // ---------------------------------------------------------------------------------------
  // A step of a service
  // ---------------------------------------------------------------------------------------

  lemma {:induction false} FoldOfPrefix<K>(m: Service<K>, log: seq<Command>, more: seq<Command>, n: nat)
    requires n <= |log| && log <= more
    ensures Delivery.Fold(m, TruthOf(log), n) == Delivery.Fold(m, TruthOf(more), n)
  {
    if n > 0 {
      FoldOfPrefix(m, log, more, n - 1);
      assert log[n - 1] == more[n - 1];
    }
  }

  lemma FoldOneMore<K>(m: Service<K>, log: seq<Command>, more: seq<Command>, n: nat)
    requires n <= |log| && log <= more && n < |more|
    ensures Delivery.Fold(m, TruthOf(more), n + 1) == m.exec(Delivery.Fold(m, TruthOf(log), n), more[n])
  {
    FoldOfPrefix(m, log, more, n);
  }

  // The next command is the recorded one, or the next to be recorded.
  lemma NextIsRecorded(k: Core, log: seq<Command>, from: nat, msg: ApplyMsg)
    requires CoreInv(k) && LogChosen(k, log) && from <= |log| && Continues(k, from, [msg])
    ensures msg.CommandMsg? && msg.index == from + 1 <= |Recorded(log, msg)| && log <= Recorded(log, msg)
    ensures Recorded(log, msg)[from] == msg.command && LogChosen(k, Recorded(log, msg))
  {
    assert [msg][0] == msg;
    assert IsChosen(k, from + 1, msg.command);
    if from < |log| {
      assert IsChosen(k, from + 1, log[from]);
      AppliedAgree(k, Applied(0, from + 1, log[from]), Applied(0, from + 1, msg.command));
    }
  }

  lemma TailContinues(k: Core, from: nat, msgs: seq<ApplyMsg>)
    requires Continues(k, from, msgs) && msgs != []
    ensures Continues(k, from, [msgs[0]]) && Continues(k, from + 1, msgs[1..])
  {
    forall q | 0 <= q < |msgs[1..]|
      ensures var p := msgs[1..][q]; p.CommandMsg? && p.index == from + 2 + q && IsChosen(k, from + 2 + q, p.command)
    {
      assert msgs[1..][q] == msgs[q + 1];
      assert IsChosen(k, from + 1 + (q + 1), msgs[q + 1].command);
    }
  }

  lemma ReceiveOne<K>(m: Service<K>, k: Core, msgs: seq<ApplyMsg>, r: Replica<K>, log: seq<Command>, more: seq<Command>)
    requires r.lastApplied <= |log| && r.state == Delivery.Fold(m, TruthOf(log), r.lastApplied) && msgs != []
    requires log <= more && r.lastApplied < |more| && msgs[0] == CommandMsg(r.lastApplied + 1, more[r.lastApplied])
    requires Continues(k, r.lastApplied + 1, msgs[1..])
    ensures Delivery.Receive(m, r, msgs[0]).Done?
    ensures PeerOk(m, k, r.lastApplied + |msgs|, msgs[1..], Delivery.Receive(m, r, msgs[0]).value, more)
  {
    FoldOneMore(m, log, more, r.lastApplied);
  }

  // A service never meets a gap.
  lemma ReceiveIs<K>(m: Service<K>, k: Core, applied: nat, msgs: seq<ApplyMsg>, r: Replica<K>, log: seq<Command>)
    requires CoreInv(k) && LogChosen(k, log) && PeerOk(m, k, applied, msgs, r, log) && msgs != []
    ensures Delivery.Receive(m, r, msgs[0]).Done?
    ensures PeerOk(m, k, applied, msgs[1..], Delivery.Receive(m, r, msgs[0]).value, Recorded(log, msgs[0]))
    ensures log <= Recorded(log, msgs[0]) && LogChosen(k, Recorded(log, msgs[0]))
  {
    TailContinues(k, r.lastApplied, msgs);
    NextIsRecorded(k, log, r.lastApplied, msgs[0]);
    ReceiveOne(m, k, msgs, r, log, Recorded(log, msgs[0]));
  }

  lemma OtherPeerStands<K>(m: Service<K>, k: Core, applied: nat, msgs: seq<ApplyMsg>, r: Replica<K>, log: seq<Command>,
                           more: seq<Command>)
    requires PeerOk(m, k, applied, msgs, r, log) && log <= more
    ensures PeerOk(m, k, applied, msgs, r, more)
  {
    FoldOfPrefix(m, log, more, r.lastApplied);
  }

  lemma ConsumedKeeps<K>(m: Service<K>, x: Served<K>, i: nat, y: Served<K>)
    requires ServedInv(m, x) && Sized(y) && May(x, Consume(i)) && Consumed(m, x, i, y)
    ensures ServedInv(m, y)
  {
    var k := CoreOf(x.raft);
    assert AtPeer(m, x, i);
    ReceiveIs(m, k, x.raft.servers[i].lastApplied, x.channels[i], x.replicas[i], x.log);
    forall j: nat | j < y.raft.n ensures AtPeer(m, y, j) {
      assert AtPeer(m, x, j);
      if j != i {
        OtherPeerStands(m, k, x.raft.servers[j].lastApplied, x.channels[j], x.replicas[j], x.log, y.log);
      }
    }
  }

  lemma StepKeepsServed<K>(m: Service<K>, x: Served<K>, step: ServedStep, y: Served<K>)
    requires ServedInv(m, x) && Sized(y) && May(x, step) && Follows(m, x, step, y)
    ensures ServedInv(m, y) && x.log <= y.log
  {
    match step
    case Peers(step) => MovedKeeps(m, x, step, y);
    case Consume(i) => ConsumedKeeps(m, x, i, y);
  }

  // ---------------------------------------------------------------------------------------
  // Commands come from Start
  // ---------------------------------------------------------------------------------------

  // The command is in the log of a leader.
  ghost predicate Known(leaders: map<nat, Lead>, command: Command) {
    exists t, j :: t in leaders && 1 <= j < |leaders[t].log| && leaders[t].log[j].command == command
  }

  lemma WinnerKnows(leaders: map<nat, Lead>, more: map<nat, Lead>, log: Log, command: Command)
    requires Genuine(log, leaders) && Known(more, command)
    requires forall t :: t in more ==> (t in leaders && more[t] == leaders[t]) || more[t].log == log
    ensures Known(leaders, command)
  {
    var t, j :| t in more && 1 <= j < |more[t].log| && more[t].log[j].command == command;
    if more[t].log == log {
      var u := log[j].term;
      assert u in leaders && Agree(log, leaders[u].log, j);
      assert leaders[u].log[j].command == command;
    }
  }

  lemma AppendKnows(k: Core, t: nat, i: nat, e: LogEntry, command: Command)
    requires t in k.leaders && i < |k.logs| && Known(Append(k, t, i, e).leaders, command)
    ensures Known(k.leaders, command) || command == e.command
  {
    var more := Append(k, t, i, e).leaders;
    var u, j :| u in more && 1 <= j < |more[u].log| && more[u].log[j].command == command;
    if u != t || j < |k.leaders[t].log| {
      assert u in k.leaders && k.leaders[u].log[j].command == command;
    }
  }

  // A new leader starts with its own log.
  lemma VoteRepLeaders(c: Cluster, m: Message)
    requires Shape(c) && m in c.net && m.VoteRep?
    ensures var leaders := OnVoteRep(c, m).hist.leaders;
            forall t :: t in leaders ==>
              (t in c.hist.leaders && leaders[t] == c.hist.leaders[t]) || leaders[t].log == c.servers[m.caller].logs
  {
  }

  lemma VoteRepKnows(c: Cluster, m: Message, command: Command)
    requires Shape(c) && m in c.net && m.VoteRep? && Genuine(c.servers[m.caller].logs, c.hist.leaders)
    requires Known(OnVoteRep(c, m).hist.leaders, command)
    ensures Known(c.hist.leaders, command)
  {
    VoteRepLeaders(c, m);
    WinnerKnows(c.hist.leaders, OnVoteRep(c, m).hist.leaders, c.servers[m.caller].logs, command);
  }

  lemma StartKnows(c: Cluster, i: nat, submitted: Command, command: Command)
    requires Shape(c) && i < c.n && Known(OnStart(c, i, submitted).hist.leaders, command)
    ensures Known(c.hist.leaders, command) || command == submitted
  {
    var t := c.servers[i].currentTerm;
    if t in c.hist.leaders {
      AppendKnows(CoreOf(c), t, i, LogEntry(submitted, t), command);
    }
  }

  lemma LeadersStay(c: Cluster, step: RaftCluster.Step)
    requires Shape(c) && Enabled(c, step) && !step.DeliverVoteRep? && !step.Start?
    ensures Next(c, step).hist.leaders == c.hist.leaders
  {
    match step
    case Timeout(i) => assert OnTimeout(c, i).hist.leaders == c.hist.leaders;
    case DeliverVoteReq(m) => assert OnVoteReq(c, m).hist.leaders == c.hist.leaders;
    case Send(i, j) => assert OnSend(c, i, j).hist.leaders == c.hist.leaders;
    case DeliverAppendReq(m) => assert OnAppendReq(c, m).hist.leaders == c.hist.leaders;
    case DeliverAppendRep(m) => assert OnAppendRep(c, m).hist.leaders == c.hist.leaders;
    case Snap(_, _, _) =>
    case DeliverSnapReq(m) =>
    case DeliverSnapRep(m) =>
    case Apply(i) => assert OnApply(c, i).hist.leaders == c.hist.leaders;
    case Crash(i) =>
  }

  // No step makes a command up.
  lemma StepKnows(c: Cluster, step: RaftCluster.Step, command: Command)
    requires LogInv(c) && Enabled(c, step) && Known(Next(c, step).hist.leaders, command)
    ensures Known(c.hist.leaders, command) || (step.Start? && step.command == command)
  {
    if step.DeliverVoteRep? {
      RaftSafety.AtPeer(c, step.m.caller);
      VoteRepKnows(c, step.m, command);
    } else if step.Start? {
      StartKnows(c, step.i, step.command, command);
    } else {
      LeadersStay(c, step);
    }
  }

  lemma ChosenIsKnown(k: Core, index: nat, command: Command)
    requires IsChosen(k, index, command)
    ensures Known(k.leaders, command)
  {
    var t: nat, i: nat :| 1 <= index <= i && Chosen(k, t, i) && k.leaders[t].log[index].command == command;
  }

  // ---------------------------------------------------------------------------------------
  // Runs
  // ---------------------------------------------------------------------------------------

  ghost predicate Takes<K>(m: Service<K>, x: Served<K>, step: ServedStep, y: Served<K>) {
    Sized(x) && Sized(y) && May(x, step) && Follows(m, x, step, y)
  }

  // A step executes at most one command that was not executed before.
  lemma OneAtATime<K>(m: Service<K>, x: Served<K>, step: ServedStep, y: Served<K>)
    requires Takes(m, x, step, y)
    ensures y.log == x.log || |y.log| == |x.log| + 1
  {
  }

  // A command some service has executed is in the log of a leader.
  lemma ExecutedIsKnown<K>(m: Service<K>, x: Served<K>, q: nat)
    requires ServedInv(m, x) && q < |x.log|
    ensures Known(x.raft.hist.leaders, x.log[q])
  {
    assert IsChosen(CoreOf(x.raft), q + 1, x.log[q]);
    ChosenIsKnown(CoreOf(x.raft), q + 1, x.log[q]);
  }

  ghost predicate IsServedRun<K>(m: Service<K>, n: nat, run: seq<Served<K>>, steps: seq<ServedStep>) {
    && |run| == |steps| + 1 && run[0] == Begin(m, n)
    && forall x :: 0 <= x < |steps| ==> Takes(m, run[x], steps[x], run[x + 1])
  }

  lemma {:induction false} RunIsServed<K>(m: Service<K>, n: nat, run: seq<Served<K>>, steps: seq<ServedStep>, x: nat)
    requires IsServedRun(m, n, run, steps) && x < |run|
    ensures ServedInv(m, run[x])
  {
    if x == 0 {
      BeginIsOk(m, n);
    } else {
      RunIsServed(m, n, run, steps, x - 1);
      assert Takes(m, run[x - 1], steps[x - 1], run[x]);
      StepKeepsServed(m, run[x - 1], steps[x - 1], run[x]);
    }
  }

  lemma OneStep<K>(m: Service<K>, n: nat, run: seq<Served<K>>, steps: seq<ServedStep>, x: nat)
    requires IsServedRun(m, n, run, steps) && x < |steps|
    ensures ServedInv(m, run[x]) && Takes(m, run[x], steps[x], run[x + 1])
    ensures run[x].log <= run[x + 1].log
  {
    RunIsServed(m, n, run, steps, x);
    assert Takes(m, run[x], steps[x], run[x + 1]);
    StepKeepsServed(m, run[x], steps[x], run[x + 1]);
  }

  lemma {:induction false} PrefixChain(logs: seq<seq<Command>>, x: nat, y: nat)
    requires forall z :: 0 <= z < |logs| - 1 ==> logs[z] <= logs[z + 1]
    requires x <= y < |logs|
    ensures logs[x] <= logs[y]
    decreases y - x
  {
    if x < y {
      PrefixChain(logs, x, y - 1);
      assert logs[y - 1] <= logs[y - 1 + 1];
    }
  }

  lemma LogGrows<K>(m: Service<K>, n: nat, run: seq<Served<K>>, steps: seq<ServedStep>, x: nat, y: nat)
    requires IsServedRun(m, n, run, steps) && x <= y < |run|
    ensures run[x].log <= run[y].log
  {
    var logs := seq(|run|, z requires 0 <= z < |run| => run[z].log);
    forall z | 0 <= z < |logs| - 1 ensures logs[z] <= logs[z + 1] {
      OneStep(m, n, run, steps, z);
    }
    PrefixChain(logs, x, y);
  }

  // The log of the last state is the one sequence: whatever any service holds at any time is what
  // executing a prefix of that sequence gives, and the next message is the next command.
  lemma ServicesFollowOneLog<K>(m: Service<K>, n: nat, run: seq<Served<K>>, steps: seq<ServedStep>, x: nat, i: nat)
    requires IsServedRun(m, n, run, steps) && x < |run| && i < run[x].raft.n
    ensures Sized(run[x])
    ensures var r, log := run[x].replicas[i], run[|run| - 1].log;
            && r.lastApplied <= |log| && r.state == Delivery.Fold(m, TruthOf(log), r.lastApplied)
            && (run[x].channels[i] != [] ==> Delivery.Receive(m, r, run[x].channels[i][0]).Done?)
  {
    RunIsServed(m, n, run, steps, x);
    LogGrows(m, n, run, steps, x, |run| - 1);
    assert AtPeer(m, run[x], i);
    FoldOfPrefix(m, run[x].log, run[|run| - 1].log, run[x].replicas[i].lastApplied);
    if run[x].channels[i] != [] {
      ReceiveIs(m, CoreOf(run[x].raft), run[x].raft.servers[i].lastApplied, run[x].channels[i], run[x].replicas[i],
                run[x].log);
    }
  }

  ghost predicate Submits(step: ServedStep, command: Command) {
    step.Peers? && step.step.Start? && step.step.command == command
  }

  lemma KnownBefore<K>(m: Service<K>, x: Served<K>, step: ServedStep, y: Served<K>, command: Command)
    requires ServedInv(m, x) && Takes(m, x, step, y) && Known(y.raft.hist.leaders, command) && !Submits(step, command)
    ensures Known(x.raft.hist.leaders, command)
  {
    if step.Peers? {
      StepKnows(x.raft, step.step, command);
    }
  }

  lemma {:induction false} KnownWasStarted<K>(m: Service<K>, n: nat, run: seq<Served<K>>, steps: seq<ServedStep>,
                                              x: nat,
                                              command: Command) returns (y: nat)
    requires IsServedRun(m, n, run, steps) && x < |run| && Known(run[x].raft.hist.leaders, command)
    ensures y < x && Submits(steps[y], command)
  {
    y := x - 1;
    if !Submits(steps[y], command) {
      OneStep(m, n, run, steps, y);
      KnownBefore(m, run[y], steps[y], run[x], command);
      y := KnownWasStarted(m, n, run, steps, y, command);
    }
  }

  // Every command a service has executed was handed to Start before.
  lemma ExecutedWasStarted<K>(m: Service<K>, n: nat, run: seq<Served<K>>, steps: seq<ServedStep>, x: nat, q: nat)
    returns (y: nat)
    requires IsServedRun(m, n, run, steps) && x < |run| && q < |run[x].log|
    ensures y < x && Submits(steps[y], run[x].log[q])
  {
    RunIsServed(m, n, run, steps, x);
    ExecutedIsKnown(m, run[x], q);
    y := KnownWasStarted(m, n, run, steps, x, run[x].log[q]);
  }
}

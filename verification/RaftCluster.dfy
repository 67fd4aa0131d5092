/**
 A cluster of Raft peers and a network that loses, delays and reorders messages.

 A step is one critical section of one peer, or a crash followed by a restart from the
 persister.  A message in `net` may never be delivered.  Vote requests and their replies are
 delivered at most once, as the network promises for every call; all other messages may even
 be delivered again.  A call made before a crash never returns to the restarted peer: every
 call carries the number of restarts its caller had gone through.

 `History` is written by the steps and read by none of them.
 */
module RaftCluster {
  import opened Collections
  import opened RaftServer
  import opened RaftCore

  datatype Message =
    | VoteReq(caller: nat, callee: nat, epoch: nat, vote: VoteArgs)
    | VoteRep(caller: nat, callee: nat, epoch: nat, vote: VoteArgs, voteReply: VoteReply)
    | AppendReq(caller: nat, callee: nat, epoch: nat, append: AppendArgs)
    | AppendRep(caller: nat, callee: nat, epoch: nat, append: AppendArgs, appendReply: AppendReply)
    | SnapReq(caller: nat, callee: nat, epoch: nat, install: SnapArgs)
    | SnapRep(caller: nat, callee: nat, epoch: nat, install: SnapArgs, installReply: SnapReply)

  // Peer `server` delivered `command` as the one with index `index`.
  datatype Applied = Applied(server: nat, index: nat, command: Command)

  datatype History = History(
    leaders: map<nat, Lead>,
    stored: map<(nat, nat), nat>,
    campaigns: map<(nat, nat), Log>,
    ballots: set<Ballot>,
    voted: map<(nat, nat), nat>,           // (voter, term): whom it voted for
    counted: map<(nat, nat), set<nat>>,    // (term, candidate): whose votes it has counted
    elected: set<(nat, nat)>,              // (term, peer)
    applied: set<Applied>)

  datatype Cluster = Cluster(n: nat, servers: seq<Server>, epochs: seq<nat>, net: set<Message>, hist: History)

  datatype Step =
    | Timeout(i: nat)
    | DeliverVoteReq(m: Message)
    | DeliverVoteRep(m: Message)
    | Start(i: nat, command: Command)
    | Send(i: nat, j: nat)
    | DeliverAppendReq(m: Message)
    | DeliverAppendRep(m: Message)
    | Snap(i: nat, index: nat, data: string)
    | DeliverSnapReq(m: Message)
    | DeliverSnapRep(m: Message)
    | Apply(i: nat)
    | Crash(i: nat)

  ghost predicate Shape(c: Cluster) {
    && |c.servers| == c.n
    && |c.epochs| == c.n
    && (forall i :: 0 <= i < c.n ==> c.servers[i].WellFormed() && c.servers[i].me == i && c.servers[i].n == c.n)
    && (forall m :: m in c.net ==> m.caller < c.n && m.callee < c.n && m.caller != m.callee)
  }

  function Init(n: nat): Cluster {
    Cluster(n, seq(n, i requires 0 <= i => Boot(n, i, BlankDisk)), seq(n, _ => 0), {},
            History(map[], map[], map[], {}, map[], map[], {}, {}))
  }

  function CoreOf(c: Cluster): Core
    requires |c.servers| == c.n
  {
    Core(c.n, seq(c.n, i requires 0 <= i < c.n => c.servers[i].currentTerm),
         seq(c.n, i requires 0 <= i < c.n => c.servers[i].logs),
         c.hist.leaders, c.hist.stored, c.hist.campaigns, c.hist.ballots)
  }

  // The history with the core's part replaced.
  function WithCore(h: History, k: Core): History {
    h.(leaders := k.leaders, stored := k.stored, campaigns := k.campaigns, ballots := k.ballots)
  }

  ghost predicate Enabled(c: Cluster, step: Step)
    requires |c.servers| == c.n
  {
    match step
    case Timeout(i) => i < c.n && c.servers[i].identity != Leader
    case DeliverVoteReq(m) => m in c.net && m.VoteReq?
    case DeliverVoteRep(m) => m in c.net && m.VoteRep?
    case Start(i, _) => i < c.n && c.servers[i].identity == Leader
    case Send(i, j) => i < c.n && j < c.n && i != j && c.servers[i].identity == Leader
    case DeliverAppendReq(m) => m in c.net && m.AppendReq?
    case DeliverAppendRep(m) => m in c.net && m.AppendRep?
    case Snap(i, _, _) => i < c.n
    case DeliverSnapReq(m) => m in c.net && m.SnapReq?
    case DeliverSnapRep(m) => m in c.net && m.SnapRep?
    case Apply(i) => i < c.n && ApplyReady(c.servers[i])
    case Crash(i) => i < c.n
  }

  function Put(c: Cluster, i: nat, s: Server): Cluster
    requires i < |c.servers|
  {
    c.(servers := c.servers[i := s])
  }

  // Peer i dies and comes back with what it had persisted.
  function Restart(c: Cluster, i: nat): Cluster
    requires i < |c.servers| && i < |c.epochs|
  {
    Put(c, i, Boot(c.n, i, c.servers[i].disk)).(epochs := c.epochs[i := c.epochs[i] + 1])
  }

  ghost function VoteReqs(c: Cluster, i: nat, args: VoteArgs): set<Message>
    requires i < |c.epochs|
  {
    set j: nat | j in Indices(c.n) && j != i :: VoteReq(i, j, c.epochs[i], args)
  }

  ghost function OnTimeout(c: Cluster, i: nat): Cluster
    requires Shape(c) && i < c.n
  {
    var s := Campaign(c.servers[i]);
    var k := StartCampaign(CoreOf(c), i, s.currentTerm);
    var h := WithCore(c.hist, k).(voted := c.hist.voted[(i, s.currentTerm) := i],
                                  counted := c.hist.counted[(s.currentTerm, i) := {}]);
    Put(c, i, s).(net := c.net + VoteReqs(c, i, VoteRequest(s)), hist := h)
  }

  ghost function OnVoteReq(c: Cluster, m: Message): Cluster
    requires Shape(c) && m in c.net && m.VoteReq?
  {
    var (s, reply) := HandleVote(c.servers[m.callee], m.vote);
    var h := if !reply.granted then c.hist
             else
               var h1 := c.hist.(voted := c.hist.voted[(m.callee, m.vote.term) := m.caller]);
               if m.vote.term in c.hist.leaders then h1
               else h1.(ballots := c.hist.ballots + {Ballot(m.vote.term, m.callee, m.caller)});
    Put(c, m.callee, s).(net := c.net - {m} + {VoteRep(m.caller, m.callee, m.epoch, m.vote, reply)}, hist := h)
  }

  // The replies so far that count for candidate i of term t.
  function CountedBy(h: History, t: nat, i: nat): set<nat> {
    if (t, i) in h.counted then h.counted[(t, i)] else {}
  }

  ghost function OnVoteRep(c: Cluster, m: Message): Cluster
    requires Shape(c) && m in c.net && m.VoteRep?
  {
    var i := m.caller;
    var old_s := c.servers[i];
    if m.epoch != c.epochs[i] then c.(net := c.net - {m})
    else
      var s := HandleVoteReply(old_s, m.voteReply);
      var t := old_s.currentTerm;
      var h1 := if m.voteReply.granted && m.voteReply.term == t then
                  c.hist.(counted := c.hist.counted[(t, i) := CountedBy(c.hist, t, i) + {m.callee}])
                else c.hist;
      var h := if s.identity == Leader && old_s.identity == Candidate then
                 h1.(elected := h1.elected + {(t, i)},
                     leaders := h1.leaders[t := Lead(i, {i} + CountedBy(h1, t, i), s.logs, s.logs)],
                     stored := h1.stored[(i, t) := |s.logs| - 1])
               else h1;
      Put(c, i, s).(net := c.net - {m}, hist := h)
  }

  ghost function OnStart(c: Cluster, i: nat, command: Command): Cluster
    requires Shape(c) && i < c.n
  {
    var t := c.servers[i].currentTerm;
    var h := if t in c.hist.leaders then WithCore(c.hist, Append(CoreOf(c), t, i, LogEntry(command, t))) else c.hist;
    Put(c, i, StartCommand(c.servers[i], command)).(hist := h)
  }

  function OnSend(c: Cluster, i: nat, j: nat): Cluster
    requires |c.servers| == c.n && |c.epochs| == c.n && i < c.n && j < c.n && c.servers[i].WellFormed()
             && c.servers[i].n == c.n
  {
    match HeartBeatTo(c.servers[i], j)
    case Panic => Restart(c, i)
    case Done(SendAppend(a)) => c.(net := c.net + {AppendReq(i, j, c.epochs[i], a)})
    case Done(SendSnapshot(a)) => c.(net := c.net + {SnapReq(i, j, c.epochs[i], a)})
  }

  ghost function OnAppendReq(c: Cluster, m: Message): Cluster
    requires Shape(c) && m in c.net && m.AppendReq?
  {
    match HandleAppend(c.servers[m.callee], m.append)
    case Panic =>  // the deferred persist still runs
      Restart(Put(c, m.callee, FollowLeader(c.servers[m.callee], m.append.term).Persist()), m.callee)
    case Done((s, reply)) =>
      var a := m.append;
      var last := a.prevLogIndex + |a.entries|;
      var stores := reply.success && |a.entries| > 0 && a.term in c.hist.leaders && last < |c.hist.leaders[a.term].log|;
      var h := if stores then
                 WithCore(c.hist, Store(CoreOf(c), m.callee, a.term, last + 1))
               else c.hist;
      Put(c, m.callee, s).(net := c.net + {AppendRep(m.caller, m.callee, m.epoch, a, reply)}, hist := h)
  }

  function OnAppendRep(c: Cluster, m: Message): Cluster
    requires |c.servers| == c.n && |c.epochs| == c.n && m.AppendRep? && m.caller < c.n && m.callee < c.n
    requires c.servers[m.caller].WellFormed() && c.servers[m.caller].n == c.n
  {
    if m.epoch != c.epochs[m.caller] then c
    else
      match HandleAppendReply(c.servers[m.caller], m.callee, m.append, m.appendReply)
      case Panic => Restart(c, m.caller)
      case Done(s) => Put(c, m.caller, s)
  }

  function OnSnapReq(c: Cluster, m: Message): Cluster
    requires |c.servers| == c.n && m.SnapReq? && m.callee < c.n && c.servers[m.callee].WellFormed()
  {
    var (s, reply) := HandleSnapshot(c.servers[m.callee], m.install);
    Put(c, m.callee, s).(net := c.net + {SnapRep(m.caller, m.callee, m.epoch, m.install, reply)})
  }

  function OnSnapRep(c: Cluster, m: Message): Cluster
    requires |c.servers| == c.n && |c.epochs| == c.n && m.SnapRep? && m.caller < c.n && m.callee < c.n
    requires c.servers[m.caller].WellFormed() && c.servers[m.caller].n == c.n
  {
    if m.epoch != c.epochs[m.caller] then c
    else Put(c, m.caller, HandleSnapshotReply(c.servers[m.caller], m.callee, m.install, m.installReply))
  }

  ghost function OnApply(c: Cluster, i: nat): Cluster
    requires Shape(c) && i < c.n
  {
    match ApplyRound(c.servers[i])
    case Panic => Restart(c, i)
    case Done((s, msgs)) =>
      var delivered := set m | m in msgs && m.CommandMsg? :: Applied(i, m.index, m.command);
      Put(c, i, s).(hist := c.hist.(applied := c.hist.applied + delivered))
  }

  ghost function Next(c: Cluster, step: Step): Cluster
    requires Shape(c) && Enabled(c, step)
  {
    match step
    case Timeout(i) => OnTimeout(c, i)
    case DeliverVoteReq(m) => OnVoteReq(c, m)
    case DeliverVoteRep(m) => OnVoteRep(c, m)
    case Start(i, command) => OnStart(c, i, command)
    case Send(i, j) => OnSend(c, i, j)
    case DeliverAppendReq(m) => OnAppendReq(c, m)
    case DeliverAppendRep(m) => OnAppendRep(c, m)
    case Snap(i, index, data) => Put(c, i, TakeSnapshot(c.servers[i], index, data))
    case DeliverSnapReq(m) => OnSnapReq(c, m)
    case DeliverSnapRep(m) => OnSnapRep(c, m)
    case Apply(i) => OnApply(c, i)
    case Crash(i) => Restart(c, i)
  }

  // ---------------------------------------------------------------------------------------
  // Runs
  // ---------------------------------------------------------------------------------------

  // run[x] is the cluster after x of the steps.  (Every cluster so reached has its Shape; see
  // RaftElection.RunKeepsElectionInv.)
  ghost predicate IsRun(n: nat, run: seq<Cluster>, steps: seq<Step>) {
    && |run| == |steps| + 1
    && run[0] == Init(n)
    && forall x :: 0 <= x < |steps| ==>
         Shape(run[x]) && Enabled(run[x], steps[x]) && run[x + 1] == Next(run[x], steps[x])
  }

  lemma {:induction false} ChainGrows<T>(sets: seq<set<T>>, x: nat, y: nat)
    requires forall z :: 0 <= z < |sets| - 1 ==> sets[z] <= sets[z + 1]
    requires x <= y < |sets|
    ensures sets[x] <= sets[y]
    decreases y - x
  {
    if x < y {
      ChainGrows(sets, x, y - 1);
    }
  }
}

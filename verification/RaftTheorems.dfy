/**
 What every run of the cluster guarantees when no service takes snapshots: log matching,
 leader completeness, the meaning of matchIndex, the progress of fast backoff, the absence of
 panics, and state machine safety.  The statements are about the states of the peers along a
 run; the history variables appear only in the proofs.
 */
module RaftTheorems {
  import opened RaftServer
  import opened RaftCore
  import opened RaftCluster
  import opened RaftElection
  import opened RaftSafety
  import opened RaftReplication

  ghost predicate NoSnapshots(steps: seq<Step>) {
    forall x :: 0 <= x < |steps| ==> !steps[x].Snap?
  }

  lemma InitKeepsLogInv(n: nat)
    ensures LogInv(Init(n))
  {
    var c := Init(n);
    forall v | 0 <= v < n ensures Genuine(CoreOf(c).logs[v], CoreOf(c).leaders) {
      assert CoreOf(c).logs[v] == [Root];
    }
  }

  lemma StepKeepsLogInv(c: Cluster, step: Step)
    requires LogInv(c) && Enabled(c, step) && !step.Snap?
    ensures LogInv(Next(c, step)) && Extends(CoreOf(c), CoreOf(Next(c, step)))
  {
    match step
    case Timeout(i) => TimeoutKeepsLogInv(c, i);
    case DeliverVoteReq(m) => VoteReqKeepsLogInv(c, m);
    case DeliverVoteRep(m) => VoteRepKeepsLogInv(c, m);
    case Start(i, command) => StartKeepsLogInv(c, i, command);
    case Send(i, j) => SendKeepsLogInv(c, i, j);
    case DeliverAppendReq(m) => AppendReqKeepsLogInv(c, m);
    case DeliverAppendRep(m) => AppendRepKeepsLogInv(c, m);
    case DeliverSnapReq(m) => AtMessage(c, m);
    case DeliverSnapRep(m) => AtMessage(c, m);
    case Apply(i) => ApplyKeepsLogInv(c, i);
    case Crash(i) => CrashKeepsLogInv(c, i);
  }

  lemma {:induction false} RunKeepsLogInv(n: nat, run: seq<Cluster>, steps: seq<Step>, x: nat)
    requires IsRun(n, run, steps) && NoSnapshots(steps) && x < |run|
    ensures LogInv(run[x])
  {
    if x == 0 {
      InitKeepsLogInv(n);
    } else {
      RunKeepsLogInv(n, run, steps, x - 1);
      StepKeepsLogInv(run[x - 1], steps[x - 1]);
    }
  }

  lemma StepInRun(n: nat, run: seq<Cluster>, steps: seq<Step>, x: nat)
    requires IsRun(n, run, steps) && NoSnapshots(steps) && x < |steps|
    ensures LogInv(run[x]) && LogInv(run[x + 1]) && Extends(CoreOf(run[x]), CoreOf(run[x + 1]))
  {
    RunKeepsLogInv(n, run, steps, x);
    StepKeepsLogInv(run[x], steps[x]);
  }

  lemma ExtendsReflexive(k: Core)
    ensures Extends(k, k)
  {
  }

  lemma ExtendsTransitive(a: Core, b: Core, c: Core)
    requires Extends(a, b) && Extends(b, c)
    ensures Extends(a, c)
  {
  }

  lemma {:induction false} ChainExtends(ks: seq<Core>, x: nat, y: nat)
    requires forall z :: 0 <= z < |ks| - 1 ==> Extends(ks[z], ks[z + 1])
    requires x <= y < |ks|
    ensures Extends(ks[x], ks[y])
    decreases y - x
  {
    if x < y {
      ChainExtends(ks, x, y - 1);
      ExtendsTransitive(ks[x], ks[y - 1], ks[y]);
    } else {
      ExtendsReflexive(ks[x]);
    }
  }

  lemma RunExtends(n: nat, run: seq<Cluster>, steps: seq<Step>, x: nat, y: nat)
    requires IsRun(n, run, steps) && NoSnapshots(steps) && x <= y < |run|
    ensures LogInv(run[x]) && LogInv(run[y]) && Extends(CoreOf(run[x]), CoreOf(run[y]))
  {
    forall z | 0 <= z < |run| ensures LogInv(run[z]) {
      RunKeepsLogInv(n, run, steps, z);
    }
    var ks := seq(|run|, z requires 0 <= z < |run| => CoreOf(run[z]));
    forall z | 0 <= z < |ks| - 1 ensures Extends(ks[z], ks[z + 1]) {
      StepInRun(n, run, steps, z);
    }
    ChainExtends(ks, x, y);
  }

  // ---------------------------------------------------------------------------------------
  // Logs
  // ---------------------------------------------------------------------------------------

  // Terms never decrease along a log.
  lemma LogTermsNeverDecrease(n: nat, run: seq<Cluster>, steps: seq<Step>, x: nat, i: nat)
    requires IsRun(n, run, steps) && NoSnapshots(steps) && x < |run| && i < |run[x].servers|
    ensures Sorted(run[x].servers[i].logs)
  {
    RunKeepsLogInv(n, run, steps, x);
    AtPeer(run[x], i);
    GenuineIsSorted(CoreOf(run[x]), run[x].servers[i].logs);
  }

  // Two logs, of any peers at any times, that hold the same term at an index hold the same
  // entries up to and including it.
  lemma LogMatchingInRuns(n: nat, run: seq<Cluster>, steps: seq<Step>, x: nat, y: nat, i: nat, j: nat, index: nat)
    requires IsRun(n, run, steps) && NoSnapshots(steps) && x <= y < |run|
    requires i < |run[x].servers| && j < |run[y].servers|
    requires index < |run[x].servers[i].logs| && index < |run[y].servers[j].logs|
    requires run[x].servers[i].logs[index].term == run[y].servers[j].logs[index].term
    ensures Agree(run[x].servers[i].logs, run[y].servers[j].logs, index)
  {
    RunExtends(n, run, steps, x, y);
    AtPeer(run[x], i);
    AtPeer(run[y], j);
    GenuineExtends(CoreOf(run[x]), CoreOf(run[y]), run[x].servers[i].logs);
    LogMatching(CoreOf(run[y]), run[x].servers[i].logs, run[y].servers[j].logs, index);
  }

  // ---------------------------------------------------------------------------------------
  // Commitment
  // ---------------------------------------------------------------------------------------

  lemma CommittedInLeader(k: Core, k': Core, log: Log, ci: nat, bound: nat, u: nat)
    requires CoreInv(k') && Extends(k, k') && Committed(k, log, ci, bound) && bound <= u && u in k'.leaders
    requires 1 <= |log| && log[0] == Root && Genuine(k'.leaders[u].log, k'.leaders)
    ensures Agree(log, k'.leaders[u].log, ci)
  {
    if ci > 0 {
      var t: nat, z: nat :| t <= bound && ci <= z && Chosen(k, t, z) && Agree(log, k.leaders[t].log, ci);
      ChosenExtends(k, k', t, z);
      LeaderCompleteness(k', t, z, u);
    }
  }

  // What a peer has once marked committed is in the log of every leader of the same or a
  // later term from then on.
  lemma LeaderCompletenessInRuns(n: nat, run: seq<Cluster>, steps: seq<Step>, x: nat, y: nat, i: nat, j: nat)
    requires IsRun(n, run, steps) && NoSnapshots(steps) && x <= y < |run|
    requires i < |run[x].servers| && j < |run[y].servers|
    requires run[y].servers[j].identity == Leader
    requires run[x].servers[i].currentTerm <= run[y].servers[j].currentTerm
    ensures Agree(run[x].servers[i].logs, run[y].servers[j].logs, run[x].servers[i].committedIndex)
  {
    RunExtends(n, run, steps, x, y);
    AtPeer(run[x], i);
    AtPeer(run[y], j);
    var s, l := run[x].servers[i], run[y].servers[j];
    CommittedInLeader(CoreOf(run[x]), CoreOf(run[y]), s.logs, s.committedIndex, s.currentTerm, l.currentTerm);
  }

  // Who newly records having stored a leader's log is of that leader's term.
  ghost predicate FreshlyStored(c: Cluster, c': Cluster)
    requires |c.servers| == c.n && |c'.servers| == c'.n == c.n
  {
    forall j: nat, t: nat, index: nat ::
      j < c.n && Stored(CoreOf(c'), j, t, index) && !Stored(CoreOf(c), j, t, index) ==> c'.servers[j].currentTerm == t
  }

  lemma NothingStored(c: Cluster, c': Cluster)
    requires |c.servers| == c.n && |c'.servers| == c'.n == c.n && c'.hist.stored == c.hist.stored
    ensures FreshlyStored(c, c')
  {
    forall j: nat, t: nat, index: nat ensures Stored(CoreOf(c'), j, t, index) == Stored(CoreOf(c), j, t, index) {
    }
  }

  lemma VoteRepStores(c: Cluster, m: Message)
    requires Shape(c) && m in c.net && m.VoteRep?
    ensures FreshlyStored(c, OnVoteRep(c, m))
  {
    if !Counts(c, m) || !Wins(c, m) {
      NothingStored(c, OnVoteRep(c, m));
    }
  }

  lemma StartStores(c: Cluster, i: nat, command: Command)
    requires Shape(c) && i < c.n
    ensures FreshlyStored(c, OnStart(c, i, command))
  {
  }

  lemma AppendReqStores(c: Cluster, m: Message)
    requires LogInv(c) && m in c.net && m.AppendReq?
    ensures |OnAppendReq(c, m).servers| == OnAppendReq(c, m).n == c.n && FreshlyStored(c, OnAppendReq(c, m))
  {
    if Accepts(c, m) {
      AcceptStores(c, m);
    } else {
      RejectFacts(c, m);
      NothingStored(c, OnAppendReq(c, m));
    }
  }

  lemma AcceptStores(c: Cluster, m: Message)
    requires LogInv(c) && m in c.net && m.AppendReq? && Accepts(c, m)
    ensures |OnAppendReq(c, m).servers| == OnAppendReq(c, m).n == c.n && FreshlyStored(c, OnAppendReq(c, m))
  {
    AcceptFacts(c, m);
  }

  lemma OtherStepsStoreNothing(c: Cluster, step: Step)
    requires Shape(c) && Enabled(c, step)
    requires step.Timeout? || step.DeliverVoteReq? || step.Send? || step.DeliverAppendRep? || step.Apply? || step.Crash?
    ensures |Next(c, step).servers| == Next(c, step).n == c.n && Next(c, step).hist.stored == c.hist.stored
  {
    match step
    case Timeout(i) =>
    case DeliverVoteReq(m) => assert OnVoteReq(c, m).hist.stored == c.hist.stored;
    case Send(i, j) => assert OnSend(c, i, j).hist == c.hist;
    case DeliverAppendRep(m) => assert OnAppendRep(c, m).hist == c.hist;
    case Apply(i) => assert OnApply(c, i).hist.stored == c.hist.stored;
    case Crash(i) =>
  }

  lemma StepStores(c: Cluster, step: Step)
    requires LogInv(c) && Enabled(c, step) && !step.Snap?
    ensures |Next(c, step).servers| == Next(c, step).n == c.n && FreshlyStored(c, Next(c, step))
  {
    match step
    case DeliverVoteRep(m) => VoteRepStores(c, m);
    case Start(i, command) => StartStores(c, i, command);
    case DeliverAppendReq(m) => AppendReqStores(c, m);
    case DeliverSnapReq(m) => AtMessage(c, m);
    case DeliverSnapRep(m) => AtMessage(c, m);
    case _ =>
      OtherStepsStoreNothing(c, step);
      NothingStored(c, Next(c, step));
  }

  // Peer j of term t has the log through index.
  ghost predicate Holds(c: Cluster, j: nat, t: nat, log: Log, index: nat) {
    j < |c.servers| && c.servers[j].currentTerm == t && Agree(c.servers[j].logs, log, index)
  }

  lemma FreshIsHeld(c: Cluster, c': Cluster, j: nat, t: nat, index: nat)
    requires |c.servers| == c.n && |c'.servers| == c'.n == c.n && FreshlyStored(c, c') && j < c.n
    requires StoredOk(CoreOf(c')) && Stored(CoreOf(c'), j, t, index) && !Stored(CoreOf(c), j, t, index)
    ensures t in c'.hist.leaders && Holds(c', j, t, c'.hist.leaders[t].log, index)
  {
    assert Kept(CoreOf(c'), j, t, index);
  }

  lemma StoredByStep(n: nat, run: seq<Cluster>, steps: seq<Step>, x: nat, j: nat, t: nat, index: nat)
    requires IsRun(n, run, steps) && NoSnapshots(steps) && 1 <= x < |run|
    requires |run[x].servers| == run[x].n && j < run[x].n && Stored(CoreOf(run[x]), j, t, index)
    ensures |run[x - 1].servers| == run[x - 1].n && j < run[x - 1].n && t in run[x].hist.leaders
    ensures Stored(CoreOf(run[x - 1]), j, t, index) ==>
              t in run[x - 1].hist.leaders && run[x - 1].hist.leaders[t].log <= run[x].hist.leaders[t].log
    ensures !Stored(CoreOf(run[x - 1]), j, t, index) ==> Holds(run[x], j, t, run[x].hist.leaders[t].log, index)
  {
    StepInRun(n, run, steps, x - 1);
    StepStores(run[x - 1], steps[x - 1]);
    if !Stored(CoreOf(run[x - 1]), j, t, index) {
      FreshIsHeld(run[x - 1], run[x], j, t, index);
    }
  }

  lemma NothingStoredAtFirst(n: nat, run: seq<Cluster>, steps: seq<Step>, x: nat, j: nat, t: nat, index: nat)
    requires IsRun(n, run, steps) && x < |run|
    requires |run[x].servers| == run[x].n && Stored(CoreOf(run[x]), j, t, index)
    ensures 1 <= x
  {
  }

  lemma HoldsLonger(c: Cluster, j: nat, t: nat, log: Log, log': Log, index: nat)
    requires Holds(c, j, t, log, index) && log <= log'
    ensures Holds(c, j, t, log', index)
  {
  }

  lemma {:induction false} FirstTime(flags: seq<bool>, x: nat) returns (y: nat)
    requires x < |flags| && flags[x]
    ensures y <= x && flags[y] && (y == 0 || !flags[y - 1])
  {
    y := x;
    if x > 0 && flags[x - 1] {
      y := FirstTime(flags, x - 1);
    }
  }

  ghost predicate Recorded(c: Cluster, j: nat, t: nat, index: nat) {
    |c.servers| == c.n && j < c.n && Stored(CoreOf(c), j, t, index)
  }

  lemma RecordedIsHeld(n: nat, run: seq<Cluster>, steps: seq<Step>, x: nat, y: nat, j: nat, t: nat, index: nat)
    requires IsRun(n, run, steps) && NoSnapshots(steps) && y <= x < |run|
    requires Recorded(run[y], j, t, index) && (y == 0 || !Recorded(run[y - 1], j, t, index))
    ensures t in run[x].hist.leaders && Holds(run[y], j, t, run[x].hist.leaders[t].log, index)
  {
    NothingStoredAtFirst(n, run, steps, y, j, t, index);
    StoredByStep(n, run, steps, y, j, t, index);
    RunExtends(n, run, steps, y, x);
    HoldsLonger(run[y], j, t, run[y].hist.leaders[t].log, run[x].hist.leaders[t].log, index);
  }

  // What is recorded as stored was at some time in the peer's log, in that leader's term.
  lemma StoredWasHeld(n: nat, run: seq<Cluster>, steps: seq<Step>, x: nat, j: nat, t: nat, index: nat)
    returns (y: nat)
    requires IsRun(n, run, steps) && NoSnapshots(steps) && x < |run| && Recorded(run[x], j, t, index)
    ensures y <= x && t in run[x].hist.leaders && Holds(run[y], j, t, run[x].hist.leaders[t].log, index)
  {
    var flags := seq(|run|, z requires 0 <= z < |run| => Recorded(run[z], j, t, index));
    y := FirstTime(flags, x);
    RecordedIsHeld(n, run, steps, x, y, j, t, index);
  }

  // matchIndex[j] >= index on a leader means that peer j, in this leader's term, had the
  // leader's log through index.
  lemma MatchIndexMeansStored(n: nat, run: seq<Cluster>, steps: seq<Step>, x: nat, i: nat, j: nat, index: nat)
    returns (y: nat)
    requires IsRun(n, run, steps) && NoSnapshots(steps) && x < |run|
    requires i < |run[x].servers| && j < |run[x].servers| && i != j && run[x].servers[i].identity == Leader
    requires j < |run[x].servers[i].matchIndex| && 1 <= index <= run[x].servers[i].matchIndex[j]
    ensures y <= x && Holds(run[y], j, run[x].servers[i].currentTerm, run[x].servers[i].logs, index)
  {
    RunKeepsLogInv(n, run, steps, x);
    AtPeer(run[x], i);
    y := StoredWasHeld(n, run, steps, x, j, run[x].servers[i].currentTerm, index);
  }

  // ---------------------------------------------------------------------------------------
  // Panics and progress
  // ---------------------------------------------------------------------------------------

  // The step runs into a panic.
  ghost predicate Panics(c: Cluster, step: Step)
    requires Shape(c) && Enabled(c, step)
  {
    match step
    case Send(i, j) => HeartBeatTo(c.servers[i], j).Panic?
    case DeliverAppendReq(m) => HandleAppend(c.servers[m.callee], m.append).Panic?
    case DeliverAppendRep(m) =>
      m.epoch == c.epochs[m.caller] && HandleAppendReply(c.servers[m.caller], m.callee, m.append, m.appendReply).Panic?
    case Apply(i) => ApplyRound(c.servers[i]).Panic?
    case _ => false
  }

  lemma StepDoesNotPanic(c: Cluster, step: Step)
    requires LogInv(c) && Enabled(c, step) && !step.Snap?
    ensures !Panics(c, step)
  {
    match step
    case Send(i, j) => SendDoesNotPanic(c, i, j);
    case DeliverAppendReq(m) => RequestDoesNotPanic(c, m);
    case DeliverAppendRep(m) =>
      if m.epoch == c.epochs[m.caller] {
        ReplyDoesNotPanic(c, m);
      }
    case Apply(i) => ApplyDoesNotPanic(c, i);
    case _ =>
  }

  lemma SendDoesNotPanic(c: Cluster, i: nat, j: nat)
    requires LogInv(c) && Enabled(c, Send(i, j))
    ensures HeartBeatTo(c.servers[i], j).Done?
  {
    AtPeer(c, i);
    HeartBeatIsSlice(CoreOf(c), i, c.servers[i], j, CountedBy(c.hist, c.servers[i].currentTerm, i));
  }

  lemma ApplyDoesNotPanic(c: Cluster, i: nat)
    requires LogInv(c) && i < c.n
    ensures ApplyRound(c.servers[i]).Done?
  {
    AtPeer(c, i);
    ApplyIs(c.servers[i]);
  }

  lemma RequestDoesNotPanic(c: Cluster, m: Message)
    requires LogInv(c) && m in c.net && m.AppendReq?
    ensures HandleAppend(c.servers[m.callee], m.append).Done?
  {
    AtPeer(c, m.callee);
    AtMessage(c, m);
    HandlerDoesNotPanic(CoreOf(c), m.caller, c.servers[m.callee], m.append);
  }

  lemma HandlerDoesNotPanic(k: Core, caller: nat, s: Server, a: AppendArgs)
    requires LeadersOk(k) && Genuine(s.logs, k.leaders) && SliceOk(k, caller, a) && s.WellFormed() && Plain(s)
    ensures HandleAppend(s, a).Done?
  {
    var s1 := FollowLeader(s, a.term);
    if s.currentTerm <= a.term && !ReplicateCheck(s1, a) {
      RejectIsTrue(k, caller, s1, a);
    }
  }

  lemma ReplyDoesNotPanic(c: Cluster, m: Message)
    requires LogInv(c) && m in c.net && m.AppendRep? && m.epoch == c.epochs[m.caller]
    ensures HandleAppendReply(c.servers[m.caller], m.callee, m.append, m.appendReply).Done?
  {
    var i, s := m.caller, c.servers[m.caller];
    AtPeer(c, i);
    AtMessage(c, m);
    if m.append.term == s.currentTerm == m.appendReply.term {
      CurrentReplyServer(CoreOf(c), i, s, m.callee, m.append, m.appendReply, CountedBy(c.hist, s.currentTerm, i));
    } else {
      OldReplyServer(s, m.callee, m.append, m.appendReply);
    }
  }

  // No panic in raft.go is ever reached.
  lemma NoPanicInRuns(n: nat, run: seq<Cluster>, steps: seq<Step>, x: nat)
    requires IsRun(n, run, steps) && NoSnapshots(steps) && x < |steps|
    ensures !Panics(run[x], steps[x])
  {
    RunKeepsLogInv(n, run, steps, x);
    StepDoesNotPanic(run[x], steps[x]);
  }

  // Each rejection of a probe at the current nextIndex, processed in the term it was sent in,
  // strictly lowers nextIndex, and never below 1.
  lemma BackOffProgressInRuns(n: nat, run: seq<Cluster>, steps: seq<Step>, x: nat, m: Message)
    requires IsRun(n, run, steps) && NoSnapshots(steps) && x < |steps| && steps[x] == DeliverAppendRep(m)
    requires m.epoch == run[x].epochs[m.caller] && !m.appendReply.success
    requires m.append.term == run[x].servers[m.caller].currentTerm == m.appendReply.term
    requires m.append.prevLogIndex + 1 == run[x].servers[m.caller].nextIndex[m.callee]
    ensures m.caller < |run[x + 1].servers| && m.callee < |run[x + 1].servers[m.caller].nextIndex|
    ensures 1 <= run[x + 1].servers[m.caller].nextIndex[m.callee] < run[x].servers[m.caller].nextIndex[m.callee]
  {
    ReplyInRun(n, run, steps, x, m);
    RejectedProbeLowers(run[x], m);
  }

  // A reply delivered in a run, step by hand.
  lemma ReplyInRun(n: nat, run: seq<Cluster>, steps: seq<Step>, x: nat, m: Message)
    requires IsRun(n, run, steps) && NoSnapshots(steps) && x < |steps| && steps[x] == DeliverAppendRep(m)
    ensures LogInv(run[x]) && m in run[x].net && m.AppendRep? && run[x + 1] == OnAppendRep(run[x], m)
  {
    RunKeepsLogInv(n, run, steps, x);
    assert Shape(run[x]) && Enabled(run[x], steps[x]) && run[x + 1] == Next(run[x], steps[x]);
  }

  lemma RejectedProbeLowers(c: Cluster, m: Message)
    requires LogInv(c) && m in c.net && m.AppendRep? && m.epoch == c.epochs[m.caller] && !m.appendReply.success
    requires m.append.term == c.servers[m.caller].currentTerm == m.appendReply.term
    ensures var s' := OnAppendRep(c, m).servers[m.caller];
            m.callee < |s'.nextIndex| && 1 <= s'.nextIndex[m.callee] <= m.append.prevLogIndex
  {
    var i, s := m.caller, c.servers[m.caller];
    AtPeer(c, i);
    AtMessage(c, m);
    ProbeOutcome(CoreOf(c), i, s, m.callee, m.append, m.appendReply, CountedBy(c.hist, s.currentTerm, i));
    AppendRepIs(c, m, HandleAppendReply(s, m.callee, m.append, m.appendReply).value);
  }

  lemma ProbeOutcome(k: Core, i: nat, s: Server, j: nat, a: AppendArgs, r: AppendReply, q: set<nat>)
    requires CurrentReply(k, i, s, j, a, r, q) && !r.success
    ensures var o := HandleAppendReply(s, j, a, r);
            o.Done? && j < |o.value.nextIndex| && 1 <= o.value.nextIndex[j] <= a.prevLogIndex
  {
    RejectedProbe(k, i, s, j, a, r, q);
  }

  lemma AppendRepIs(c: Cluster, m: Message, s': Server)
    requires Shape(c) && m in c.net && m.AppendRep? && m.epoch == c.epochs[m.caller]
    requires HandleAppendReply(c.servers[m.caller], m.callee, m.append, m.appendReply) == Done(s')
    ensures OnAppendRep(c, m).servers == c.servers[m.caller := s']
  {
  }

  // The reply acknowledges the entries that the leader was waiting for.
  ghost predicate Acknowledges(c: Cluster, m: Message)
    requires Shape(c)
  {
    && m in c.net && m.AppendRep? && m.epoch == c.epochs[m.caller] && m.appendReply.success && |m.append.entries| > 0
    && c.servers[m.caller].currentTerm <= m.appendReply.term
    && m.append.prevLogIndex + 1 == c.servers[m.caller].nextIndex[m.callee]
  }

  // The commit rule, in runs: an acknowledgement never moves the leader's commit index down, and
  // moves it to exactly the highest index of its term that a majority holds.
  lemma CommitRuleInRuns(n: nat, run: seq<Cluster>, steps: seq<Step>, x: nat, m: Message)
    requires IsRun(n, run, steps) && NoSnapshots(steps) && x < |steps| && steps[x] == DeliverAppendRep(m)
    requires Acknowledges(run[x], m)
    ensures m.caller < |run[x + 1].servers|
    ensures MovesToHighest(run[x].servers[m.caller], run[x + 1].servers[m.caller])
  {
    ReplyInRun(n, run, steps, x, m);
    AcknowledgedCommit(run[x], m);
  }

  // An index of the peer's own term that a majority holds.
  ghost predicate IsMajorityIndex(s: Server, index: nat)
    requires |s.matchIndex| == s.n
  {
    index < |s.logs| && s.logs[index].term == s.currentTerm && HasMajority(s, index)
  }

  // The commit index stays or goes up, to an index of that kind, and none of that kind is above it.
  ghost predicate MovesToHighest(s: Server, t: Server) {
    && |t.matchIndex| == t.n && t.logs == s.logs && s.committedIndex <= t.committedIndex
    && (s.committedIndex < t.committedIndex ==> IsMajorityIndex(t, t.committedIndex))
    && forall index: nat :: IsMajorityIndex(t, index) ==> index <= t.committedIndex
  }

  lemma AcknowledgedCommit(c: Cluster, m: Message)
    requires LogInv(c) && Acknowledges(c, m)
    ensures m.caller < |OnAppendRep(c, m).servers|
    ensures MovesToHighest(c.servers[m.caller], OnAppendRep(c, m).servers[m.caller])
  {
    AtPeer(c, m.caller);
    TermsAreKnown(c, m.caller);
    AcknowledgedStep(c, m);
  }

  lemma AcknowledgedStep(c: Cluster, m: Message)
    requires Shape(c) && Acknowledges(c, m) && c.servers[m.caller].discardCount == 0
    requires Sorted(c.servers[m.caller].logs)
             && TermsBelow(c.servers[m.caller].logs, c.servers[m.caller].currentTerm + 1)
    ensures m.caller < |OnAppendRep(c, m).servers|
    ensures MovesToHighest(c.servers[m.caller], OnAppendRep(c, m).servers[m.caller])
  {
    var s := c.servers[m.caller];
    var acked := Acknowledge(s, m.callee, m.append.prevLogIndex + |m.append.entries|);
    UpdateMeets(acked);
    AppendRepIs(c, m, UpdateCommitted(acked).value);
  }

  lemma TermsAreKnown(c: Cluster, i: nat)
    requires LogInv(c) && i < c.n
    ensures Sorted(c.servers[i].logs) && TermsBelow(c.servers[i].logs, c.servers[i].currentTerm + 1)
  {
    assert CoreOf(c).logs[i] == c.servers[i].logs && CoreOf(c).terms[i] == c.servers[i].currentTerm;
    GenuineIsSorted(CoreOf(c), c.servers[i].logs);
  }

  lemma UpdateMeets(s: Server)
    requires s.WellFormed() && s.discardCount == 0 && Sorted(s.logs) && TermsBelow(s.logs, s.currentTerm + 1)
    ensures UpdateCommitted(s).Done?
    ensures MovesToHighest(s, UpdateCommitted(s).value)
  {
    CommitRule(s);
    var t := UpdateCommitted(s).value;
    SameMajority(s, t);
    forall index: nat | IsMajorityIndex(t, index) ensures index <= t.committedIndex {
      assert HasMajority(s, s.RaftIndex(index));
    }
  }

  // The commit index plays no part in counting.
  lemma SameMajority(s: Server, t: Server)
    requires s.WellFormed() && t == s.(committedIndex := t.committedIndex)
    ensures forall index: nat :: HasMajority(s, index) == HasMajority(t, index)
  {
    forall index: nat ensures HasMajority(s, index) == HasMajority(t, index) {
      SameCount(s, t, index, s.n);
    }
  }

  lemma {:induction false} SameCount(s: Server, t: Server, index: int, upTo: nat)
    requires s.WellFormed() && t == s.(committedIndex := t.committedIndex) && upTo <= s.n
    ensures MatchCount(s, index, upTo) == MatchCount(t, index, upTo)
  {
    if upTo > 0 {
      SameCount(s, t, index, upTo - 1);
    }
  }

  // ---------------------------------------------------------------------------------------
  // State machine safety
  // ---------------------------------------------------------------------------------------

  // In this step peer i puts the command with this index on its apply channel.
  ghost predicate Delivers(c: Cluster, step: Step, i: nat, index: nat, command: Command)
    requires Shape(c) && Enabled(c, step)
  {
    && step == Apply(i)
    && ApplyRound(c.servers[i]).Done?
    && CommandMsg(index, command) in ApplyRound(c.servers[i]).value.1
  }

  lemma DeliveryIsRecorded(c: Cluster, step: Step, i: nat, index: nat, command: Command)
    requires Shape(c) && Enabled(c, step) && Delivers(c, step, i, index, command)
    ensures Applied(i, index, command) in Next(c, step).hist.applied
  {
  }

  lemma AppliedStays(c: Cluster, step: Step)
    requires Shape(c) && Enabled(c, step)
    ensures c.hist.applied <= Next(c, step).hist.applied
  {
    match step
    case Timeout(i) =>
    case DeliverVoteReq(m) => assert OnVoteReq(c, m).hist.applied == c.hist.applied;
    case DeliverVoteRep(m) => assert OnVoteRep(c, m).hist.applied == c.hist.applied;
    case Start(i, command) => assert OnStart(c, i, command).hist.applied == c.hist.applied;
    case Send(i, j) => assert OnSend(c, i, j).hist.applied == c.hist.applied;
    case DeliverAppendReq(m) => assert OnAppendReq(c, m).hist.applied == c.hist.applied;
    case DeliverAppendRep(m) => assert OnAppendRep(c, m).hist.applied == c.hist.applied;
    case Snap(i, index, data) =>
    case DeliverSnapReq(m) =>
    case DeliverSnapRep(m) =>
    case Apply(i) => assert c.hist.applied <= OnApply(c, i).hist.applied;
    case Crash(i) =>
  }

  lemma DeliveredStaysRecorded(n: nat, run: seq<Cluster>, steps: seq<Step>, x: nat, i: nat, index: nat,
                               command: Command)
    requires IsRun(n, run, steps) && x < |steps| && Delivers(run[x], steps[x], i, index, command)
    ensures Applied(i, index, command) in run[|run| - 1].hist.applied
  {
    var sets := seq(|run|, z requires 0 <= z < |run| => run[z].hist.applied);
    forall z | 0 <= z < |sets| - 1 ensures sets[z] <= sets[z + 1] {
      AppliedStays(run[z], steps[z]);
    }
    DeliveryIsRecorded(run[x], steps[x], i, index, command);
    ChainGrows(sets, x + 1, |run| - 1);
  }

  // Any two peers that apply a command at the same index, at any times, apply the same command.
  lemma StateMachineSafety(n: nat, run: seq<Cluster>, steps: seq<Step>,
                           x: nat, i: nat, a: Command, y: nat, j: nat, b: Command, index: nat)
    requires IsRun(n, run, steps) && NoSnapshots(steps) && x < |steps| && y < |steps|
    requires Delivers(run[x], steps[x], i, index, a) && Delivers(run[y], steps[y], j, index, b)
    ensures a == b
  {
    var k := DeliveredIsFinal(n, run, steps, x, i, index, a);
    var k' := DeliveredIsFinal(n, run, steps, y, j, index, b);
    AppliedAgree(k, Applied(i, index, a), Applied(j, index, b));
  }

  lemma DeliveredIsFinal(n: nat, run: seq<Cluster>, steps: seq<Step>, x: nat, i: nat, index: nat, command: Command)
    returns (k: Core)
    requires IsRun(n, run, steps) && NoSnapshots(steps) && x < |steps|
    requires Delivers(run[x], steps[x], i, index, command)
    ensures |run[|run| - 1].servers| == run[|run| - 1].n && k == CoreOf(run[|run| - 1])
    ensures CoreInv(k) && AppliedOk(k, Applied(i, index, command))
  {
    DeliveredStaysRecorded(n, run, steps, x, i, index, command);
    RunKeepsLogInv(n, run, steps, |run| - 1);
    k := CoreOf(run[|run| - 1]);
  }

  lemma AppliedAgree(k: Core, a: Applied, b: Applied)
    requires CoreInv(k) && AppliedOk(k, a) && AppliedOk(k, b) && a.index == b.index
    ensures a.command == b.command
  {
    var t: nat, x: nat :| 1 <= a.index <= x && Chosen(k, t, x) && k.leaders[t].log[a.index].command == a.command;
    var u: nat, y: nat :| 1 <= b.index <= y && Chosen(k, u, y) && k.leaders[u].log[b.index].command == b.command;
    ChosenAgree(k, t, x, u, y, a.index);
  }

  // ---------------------------------------------------------------------------------------
  // What the code does not keep, and exactly when
  // ---------------------------------------------------------------------------------------

  // Every entry of the request is covered by the snapshot, or is in the log at its index.
  predicate HasAll(s: Server, a: AppendArgs) {
    forall k: nat :: k < |a.entries| ==> a.prevLogIndex + 1 + k <= s.discardCount || IsAt(s, a, k)
  }

  // A follower that answers success has the entries exactly when the request does not start behind
  // its snapshot, or when it had them all before.
  lemma SuccessMeansStoredIff(s: Server, a: AppendArgs)
    requires s.WellFormed() && HandleAppend(s, a).Done? && HandleAppend(s, a).value.1.success
    ensures HasAll(HandleAppend(s, a).value.0, a) <==> s.discardCount <= a.prevLogIndex || HasAll(s, a)
  {
    var s1, t := FollowLeader(s, a.term), HandleAppend(s, a).value.0;
    if s.discardCount <= a.prevLogIndex {
      AcceptTakes(s1, a);
      forall k: nat | k < |a.entries| ensures IsAt(t, a, k) {
        MergeHasEntry(s1, a, k);
      }
    } else {
      assert t.logs == s.logs && t.discardCount == s.discardCount;
      assert forall k: nat :: k < |a.entries| ==> (IsAt(t, a, k) <==> IsAt(s, a, k));
    }
  }

  // A request lowers the follower's commit index exactly when it is accepted, names a higher one,
  // and ends its own reach, the index after the previous one, below the present one.
  lemma CommitLoweredIff(s: Server, a: AppendArgs)
    requires s.WellFormed() && HandleAppend(s, a).Done?
    ensures HandleAppend(s, a).value.0.committedIndex < s.committedIndex
       <==> && s.currentTerm <= a.term && ReplicateCheck(FollowLeader(s, a.term), a)
            && s.committedIndex < a.leaderCommit
            && (if a.entries == [] then s.LastIndex() else a.prevLogIndex + 1) < s.committedIndex
  {
    var s1 := FollowLeader(s, a.term);
    if s.currentTerm <= a.term && ReplicateCheck(s1, a) {
      AcceptTakes(s1, a);
    }
  }

  // InstallSnapshot leaves a term in memory that is not on disk exactly when the term is new and
  // the snapshot is not.
  lemma TermUnsavedIff(s: Server, args: SnapArgs)
    requires s.WellFormed() && s.disk.term == s.currentTerm
    ensures var t := HandleSnapshot(s, args).0;
            t.disk.term != t.currentTerm <==> args.term > s.currentTerm && args.lastIncludedIndex <= s.lastIncludedIndex
  {
  }
}

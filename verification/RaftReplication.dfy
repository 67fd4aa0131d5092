/**
 Replication keeps the invariant of RaftSafety.dfy: appending on the leader, sending, storing
 and rejecting on the follower, the leader's use of the replies, and the apply loop.
 */
module RaftReplication {
  import opened RaftServer
  import opened RaftCore
  import opened RaftCluster
  import opened RaftElection
  import opened RaftSafety

  // ---------------------------------------------------------------------------------------
  // The leader appends and sends
  // ---------------------------------------------------------------------------------------

  lemma StartIs(c: Cluster, i: nat, command: Command)
    requires Shape(c) && i < c.n && LeadersElected(c.hist)
    requires c.servers[i].currentTerm in c.hist.leaders && c.hist.leaders[c.servers[i].currentTerm].id == i
    ensures var c', t := OnStart(c, i, command), c.servers[i].currentTerm;
            && CoreOf(c') == Append(CoreOf(c), t, i, LogEntry(command, t))
            && Moves(c, c', i) && Records(c.hist, c'.hist, i)
            && c'.servers[i] == StartCommand(c.servers[i], command)
            && c'.net == c.net && c'.hist.applied == c.hist.applied
            && c'.hist.counted == c.hist.counted
  {
    CoreAfterPut(c, OnStart(c, i, command), i);
  }

  lemma StartServer(k: Core, k': Core, i: nat, s: Server, command: Command, q: set<nat>)
    requires ServerInv(k, i, s, q) && s.identity == Leader && Extends(k, k')
    requires s.currentTerm in k'.leaders && k'.leaders[s.currentTerm].id == i
    requires k'.leaders[s.currentTerm].log == s.logs + [LogEntry(command, s.currentTerm)]
    requires Stored(k', i, s.currentTerm, |s.logs|)
    ensures ServerInv(k', i, StartCommand(s, command), q)
  {
    var s' := StartCommand(s, command);
    CommittedStands(k, k', s.logs, s'.logs, s.committedIndex, s.currentTerm, s.currentTerm);
  }

  lemma StartKeepsLogInv(c: Cluster, i: nat, command: Command)
    requires LogInv(c) && Enabled(c, Start(i, command))
    ensures LogInv(OnStart(c, i, command))
    ensures Extends(CoreOf(c), CoreOf(OnStart(c, i, command)))
  {
    var c' := OnStart(c, i, command);
    var s := c.servers[i];
    AtPeer(c, i);
    StartIs(c, i, command);
    AppendKeepsInv(CoreOf(c), s.currentTerm, i, LogEntry(command, s.currentTerm));
    StartServer(CoreOf(c), CoreOf(c'), i, s, command, CountedBy(c.hist, s.currentTerm, i));
    LeaderStepsKeepInv(c, Start(i, command));
    GoodStepKeepsInv(c, c', i);
  }

  // A leader sends a slice of its log: never a snapshot, and never a panic.
  lemma HeartBeatIsSlice(k: Core, i: nat, s: Server, j: nat, q: set<nat>)
    requires ServerInv(k, i, s, q) && s.identity == Leader && s.WellFormed() && s.me == i && j < s.n && j != i
    ensures var o := HeartBeatTo(s, j);
            o.Done? && o.value.SendAppend? && o.value.append.term == s.currentTerm && SliceOk(k, i, o.value.append)
  {
    assert PeersOk(k, i, s);
    var a := HeartBeatTo(s, j).value.append;
    assert a.entries == s.logs[a.prevLogIndex + 1..a.prevLogIndex + 1 + |a.entries|];
  }

  lemma SendIs(c: Cluster, i: nat, j: nat, a: AppendArgs)
    requires Shape(c) && i < c.n && j < c.n && c.servers[i].identity == Leader && Plain(c.servers[i])
    requires HeartBeatTo(c.servers[i], j) == Done(SendAppend(a)) && SliceOk(CoreOf(c), i, a)
    requires a.term == c.servers[i].currentTerm
    ensures var c' := OnSend(c, i, j);
            && Moves(c, c', i) && Quiet(c.servers[i], c'.servers[i])
            && c'.hist == c.hist && NewMessagesOk(c, c')
  {
    assert CoreOf(OnSend(c, i, j)) == CoreOf(c);
  }

  lemma SendKeepsLogInv(c: Cluster, i: nat, j: nat)
    requires LogInv(c) && Enabled(c, Send(i, j))
    ensures LogInv(OnSend(c, i, j))
    ensures Extends(CoreOf(c), CoreOf(OnSend(c, i, j)))
  {
    AtPeer(c, i);
    HeartBeatIsSlice(CoreOf(c), i, c.servers[i], j, CountedBy(c.hist, c.servers[i].currentTerm, i));
    SendIs(c, i, j, HeartBeatTo(c.servers[i], j).value.append);
    LeaderStepsKeepInv(c, Send(i, j));
    QuietKeepsLogInv(c, OnSend(c, i, j), i);
  }

  // ---------------------------------------------------------------------------------------
  // The follower stores or rejects
  // ---------------------------------------------------------------------------------------

  // The follower's log passes the check exactly when it agrees with the leader's through the
  // entry before the new ones.
  lemma CheckIsAgreement(k: Core, caller: nat, s: Server, a: AppendArgs)
    requires LeadersOk(k) && Genuine(s.logs, k.leaders) && SliceOk(k, caller, a)
    requires s.discardCount == 0 && s.lastIncludedIndex == 0
    ensures ReplicateCheck(s, a) <==> Agree(s.logs, k.leaders[a.term].log, a.prevLogIndex)
  {
    assert LeadOk(k, a.term);
    var log := k.leaders[a.term].log;
    if ReplicateCheck(s, a) {
      LogMatching(k, s.logs, log, a.prevLogIndex);
    }
  }

  lemma MergeWithoutConflict(log: Log, at: nat, entries: Log)
    requires at + |entries| <= |log| && entries == log[at..at + |entries|]
    ensures Merge(log, at, entries) == log
  {
    assert !Conflicts(log, at, entries);
    assert log == log[..at] + entries + log[at + |entries|..];
  }

  // Storing entries of the leader's log leaves the log as it was if it had them all, and
  // otherwise exactly the leader's log through the last of them.
  lemma MergeIsStore(k: Core, log: Log, theirs: Log, at: nat, entries: Log)
    requires Genuine(log, k.leaders) && Genuine(theirs, k.leaders) && |entries| > 0
    requires 1 <= at && at + |entries| <= |theirs| && entries == theirs[at..at + |entries|]
    requires Agree(log, theirs, at - 1)
    ensures Merge(log, at, entries)
            == if Agree(log, theirs, at + |entries| - 1) then log else theirs[..at + |entries|]
  {
    var last := at + |entries| - 1;
    if Agree(log, theirs, last) {
      assert entries == log[at..last + 1];
      MergeWithoutConflict(log, at, entries);
    } else {
      if last < |log| {
        if log[last].term == theirs[last].term {
          LogMatching(k, log, theirs, last);
        }
        assert entries[|entries| - 1] == theirs[last];
        assert Conflicts(log, at, entries);
      }
      assert log[..at] == theirs[..at];
      assert theirs[..at] + entries == theirs[..last + 1];
    }
  }

  lemma AgreementSurvives(log: Log, theirs: Log, target: Log, ci: nat, last: nat)
    requires Agree(log, target, ci) && Agree(theirs, target, ci)
    requires last < |theirs| && !Agree(log, theirs, last)
    ensures Agree(theirs[..last + 1], target, ci)
  {
    assert ci <= last;
  }

  // What was committed stays committed in the follower's new log.
  lemma CommitSurvivesStore(k: Core, log: Log, ci: nat, bound: nat, t: nat, last: nat)
    requires CoreInv(k) && t in k.leaders && bound <= t && last < |k.leaders[t].log| && 1 <= |log|
    requires Committed(k, log, ci, bound) && !Agree(log, k.leaders[t].log, last)
    ensures Committed(k, k.leaders[t].log[..last + 1], ci, t)
  {
    if ci != 0 {
      var u: nat, i: nat :| u <= bound && ci <= i && Chosen(k, u, i) && Agree(log, k.leaders[u].log, ci);
      LeaderCompleteness(k, u, i, t);
      AgreementSurvives(log, k.leaders[t].log, k.leaders[u].log, ci, last);
    }
  }

  // What the leader knew committed is committed in a log that agrees with the leader's.
  lemma CommitFromLeader(k: Core, log: Log, t: nat, lc: nat, at: nat, ci: nat)
    requires t in k.leaders && Committed(k, k.leaders[t].log, lc, t)
    requires Agree(log, k.leaders[t].log, at) && ci <= at && ci <= lc
    ensures Committed(k, log, ci, t)
  {
    if ci != 0 {
      var u: nat, i: nat :| u <= t && lc <= i && Chosen(k, u, i) && Agree(k.leaders[t].log, k.leaders[u].log, lc);
      assert Agree(log, k.leaders[u].log, ci);
    }
  }

  // The log the follower ends up with.
  ghost function StoredLog(k: Core, log: Log, a: AppendArgs): Log
    requires a.term in k.leaders && a.prevLogIndex + |a.entries| < |k.leaders[a.term].log|
  {
    var last := a.prevLogIndex + |a.entries|;
    if |a.entries| == 0 || Agree(log, k.leaders[a.term].log, last) then log
    else k.leaders[a.term].log[..last + 1]
  }

  lemma StoredAgrees(k: Core, log: Log, a: AppendArgs)
    requires a.term in k.leaders && a.prevLogIndex + |a.entries| < |k.leaders[a.term].log|
    requires Agree(log, k.leaders[a.term].log, a.prevLogIndex)
    ensures Agree(StoredLog(k, log, a), k.leaders[a.term].log, a.prevLogIndex + |a.entries|)
  {
  }

  lemma MergedLog(k: Core, log: Log, a: AppendArgs, at: nat)
    requires a.term in k.leaders && a.prevLogIndex + |a.entries| < |k.leaders[a.term].log|
    requires Genuine(log, k.leaders) && Genuine(k.leaders[a.term].log, k.leaders)
    requires a.entries == k.leaders[a.term].log[a.prevLogIndex + 1..a.prevLogIndex + 1 + |a.entries|]
    requires Agree(log, k.leaders[a.term].log, a.prevLogIndex) && |a.entries| > 0 && at == a.prevLogIndex + 1
    ensures Merge(log, at, a.entries) == StoredLog(k, log, a)
  {
    MergeIsStore(k, log, k.leaders[a.term].log, at, a.entries);
  }

  lemma AcceptMerges(s: Server, a: AppendArgs)
    requires s.WellFormed() && s.discardCount == 0 && ReplicateCheck(s, a)
    ensures a.prevLogIndex < |s.logs|
    ensures Accept(s, a).logs == if |a.entries| > 0 then Merge(s.logs, a.prevLogIndex + 1, a.entries) else s.logs
  {
    MergeAt(s, a, a.prevLogIndex + 1);
  }

  lemma MergeAt(s: Server, a: AppendArgs, at: nat)
    requires s.WellFormed() && ReplicateCheck(s, a) && at == s.RealIndex(a.prevLogIndex) + 1
    ensures at <= |s.logs|
    ensures Accept(s, a).logs == if |a.entries| > 0 then Merge(s.logs, at, a.entries) else s.logs
  {
    if |a.entries| > 0 {
      var s1 := s.(logs := Merge(s.logs, at, a.entries));
      assert Accept(s, a) == s1.(committedIndex := FollowerCommit(s1, a));
    }
  }

  lemma LeaderIsGenuine(k: Core, t: nat)
    requires LeadersOk(k) && t in k.leaders
    ensures Genuine(k.leaders[t].log, k.leaders)
  {
    assert LeadOk(k, t);
  }

  // The check passed, so the leader's entries fit the follower's log.
  ghost predicate Fits(k: Core, log: Log, a: AppendArgs)
    requires a.term in k.leaders && a.prevLogIndex + |a.entries| < |k.leaders[a.term].log|
  {
    && Agree(log, k.leaders[a.term].log, a.prevLogIndex)
    && (|a.entries| > 0 ==> Merge(log, a.prevLogIndex + 1, a.entries) == StoredLog(k, log, a))
  }

  lemma CheckedFits(k: Core, caller: nat, s: Server, a: AppendArgs)
    requires LeadersOk(k) && Genuine(s.logs, k.leaders) && SliceOk(k, caller, a) && s.WellFormed()
    requires s.discardCount == 0 && ReplicateCheck(s, a)
    ensures Fits(k, s.logs, a)
  {
    CheckIsAgreement(k, caller, s, a);
    LeaderIsGenuine(k, a.term);
    AgreementFits(k, s.logs, a);
  }

  lemma AgreementFits(k: Core, log: Log, a: AppendArgs)
    requires a.term in k.leaders && a.prevLogIndex + |a.entries| < |k.leaders[a.term].log|
    requires Genuine(log, k.leaders) && Genuine(k.leaders[a.term].log, k.leaders)
    requires a.entries == k.leaders[a.term].log[a.prevLogIndex + 1..a.prevLogIndex + 1 + |a.entries|]
    requires Agree(log, k.leaders[a.term].log, a.prevLogIndex)
    ensures Fits(k, log, a)
  {
    if |a.entries| > 0 {
      MergedLog(k, log, a, a.prevLogIndex + 1);
    }
  }

  lemma FittingLog(k: Core, s: Server, a: AppendArgs)
    requires a.term in k.leaders && a.prevLogIndex + |a.entries| < |k.leaders[a.term].log| && Fits(k, s.logs, a)
    requires s.WellFormed() && s.discardCount == 0 && ReplicateCheck(s, a)
    ensures Accept(s, a).logs == StoredLog(k, s.logs, a)
    ensures Agree(StoredLog(k, s.logs, a), k.leaders[a.term].log, a.prevLogIndex + |a.entries|)
  {
    StoredAgrees(k, s.logs, a);
    AcceptMerges(s, a);
  }

  lemma AcceptedLog(k: Core, caller: nat, s: Server, a: AppendArgs)
    requires LeadersOk(k) && Genuine(s.logs, k.leaders) && SliceOk(k, caller, a) && s.WellFormed()
    requires s.discardCount == 0 && ReplicateCheck(s, a)
    ensures Accept(s, a).logs == StoredLog(k, s.logs, a)
    ensures Agree(StoredLog(k, s.logs, a), k.leaders[a.term].log, a.prevLogIndex + |a.entries|)
  {
    CheckedFits(k, caller, s, a);
    FittingLog(k, s, a);
  }

  // The commit index stays, or moves to one the leader vouches for and the log agrees on.
  lemma AcceptedIndex(s: Server, a: AppendArgs)
    requires s.WellFormed() && ReplicateCheck(s, a) && (|a.entries| == 0 ==> a.leaderCommit <= a.prevLogIndex)
    ensures var ci := Accept(s, a).committedIndex;
            ci == s.committedIndex || (ci <= a.leaderCommit && ci <= a.prevLogIndex + |a.entries|)
  {
  }

  lemma StoredLogCommit(k: Core, caller: nat, log: Log, a: AppendArgs, ci: nat, ci': nat, bound: nat)
    requires CoreInv(k) && SliceOk(k, caller, a) && 1 <= |log| && bound <= a.term
    requires Committed(k, log, ci, bound)
    requires Agree(StoredLog(k, log, a), k.leaders[a.term].log, a.prevLogIndex + |a.entries|)
    requires ci' == ci || (ci' <= a.leaderCommit && ci' <= a.prevLogIndex + |a.entries|)
    ensures Committed(k, StoredLog(k, log, a), ci', a.term)
  {
    var log', last := StoredLog(k, log, a), a.prevLogIndex + |a.entries|;
    if ci' != ci {
      CommitFromLeader(k, log', a.term, a.leaderCommit, last, ci');
    } else if log' == log {
      CommittedStands(k, k, log, log, ci, bound, a.term);
    } else {
      CommitSurvivesStore(k, log, ci, bound, a.term, last);
    }
  }

  lemma AcceptedCommit(k: Core, caller: nat, s: Server, a: AppendArgs, bound: nat)
    requires CoreInv(k) && Genuine(s.logs, k.leaders) && SliceOk(k, caller, a) && s.WellFormed()
    requires s.discardCount == 0 && ReplicateCheck(s, a)
    requires bound <= a.term && Committed(k, s.logs, s.committedIndex, bound)
    ensures Committed(k, Accept(s, a).logs, Accept(s, a).committedIndex, a.term)
  {
    AcceptedLog(k, caller, s, a);
    AcceptedIndex(s, a);
    StoredLogCommit(k, caller, s.logs, a, s.committedIndex, Accept(s, a).committedIndex, bound);
  }

  ghost function AcceptNext(k: Core, m: Message): Core
    requires m.AppendReq? && m.callee < |k.terms| && m.callee < |k.logs|
    requires m.append.term in k.leaders && m.append.prevLogIndex + |m.append.entries| < |k.leaders[m.append.term].log|
  {
    var a := m.append;
    if |a.entries| > 0 then Store(k, m.callee, a.term, a.prevLogIndex + |a.entries| + 1)
    else Raise(k, m.callee, a.term)
  }

  ghost predicate Accepts(c: Cluster, m: Message)
    requires Shape(c) && m in c.net && m.AppendReq?
  {
    var s := c.servers[m.callee];
    s.currentTerm <= m.append.term && ReplicateCheck(FollowLeader(s, m.append.term), m.append)
  }

  // The follower after it accepted.
  function Accepted(s: Server, a: AppendArgs): Server
    requires s.WellFormed() && ReplicateCheck(FollowLeader(s, a.term), a)
  {
    Accept(FollowLeader(s, a.term), a).Persist()
  }

  // What the step records.
  ghost function AcceptHistory(c: Cluster, m: Message): History
    requires |c.servers| == c.n && m.callee < c.n && m.AppendReq? && SliceOk(CoreOf(c), m.caller, m.append)
  {
    var a := m.append;
    if |a.entries| > 0 then WithCore(c.hist, Store(CoreOf(c), m.callee, a.term, a.prevLogIndex + |a.entries| + 1))
    else c.hist
  }

  lemma AcceptStep(c: Cluster, m: Message)
    requires Shape(c) && m in c.net && m.AppendReq? && Accepts(c, m) && SliceOk(CoreOf(c), m.caller, m.append)
    ensures OnAppendReq(c, m) == Put(c, m.callee, Accepted(c.servers[m.callee], m.append)).(
                                 net := c.net + {AppendRep(m.caller, m.callee, m.epoch, m.append,
                                                           AppendReply(m.append.term, true, 0, 0, 0))},
                                 hist := AcceptHistory(c, m))
  {
  }

  lemma AcceptedIs(s: Server, a: AppendArgs)
    requires s.WellFormed() && s.currentTerm <= a.term && ReplicateCheck(FollowLeader(s, a.term), a)
    ensures var s' := Accepted(s, a);
            && s'.currentTerm == a.term && s'.identity == Follower
            && s'.logs == Accept(FollowLeader(s, a.term), a).logs
  {
  }

  lemma AcceptCore(c: Cluster, c': Cluster, m: Message)
    requires |c.servers| == c.n && m.callee < c.n && m.AppendReq? && SliceOk(CoreOf(c), m.caller, m.append)
    requires c'.n == c.n && |c'.servers| == c.n && c'.servers == c.servers[m.callee := c'.servers[m.callee]]
    requires c'.servers[m.callee].currentTerm == m.append.term && c'.hist == AcceptHistory(c, m)
    requires c'.servers[m.callee].logs == StoredLog(CoreOf(c), c.servers[m.callee].logs, m.append)
    ensures CoreOf(c') == AcceptNext(CoreOf(c), m)
  {
    CoreAfterPut(c, c', m.callee);
    var k, k', next, v := CoreOf(c), CoreOf(c'), AcceptNext(CoreOf(c), m), m.callee;
    assert k.logs[v] == c.servers[v].logs;
    assert k'.terms == next.terms;
    assert |m.append.entries| == 0 ==> k'.logs == k.logs;
    assert k'.logs == next.logs;
  }

  lemma AcceptRecords(c: Cluster, m: Message)
    requires |c.servers| == c.n && m.callee < c.n && m.AppendReq? && SliceOk(CoreOf(c), m.caller, m.append)
    requires LeadersElected(c.hist)
    ensures Records(c.hist, AcceptHistory(c, m), m.callee) && AcceptHistory(c, m).applied == c.hist.applied
  {
  }

  lemma AcceptIs(c: Cluster, m: Message)
    requires Shape(c) && m in c.net && m.AppendReq? && Accepts(c, m) && SliceOk(CoreOf(c), m.caller, m.append)
    requires Accept(FollowLeader(c.servers[m.callee], m.append.term), m.append).logs
             == StoredLog(CoreOf(c), c.servers[m.callee].logs, m.append)
    requires LeadersElected(c.hist)
    requires c.servers[m.callee].identity == Leader ==> c.servers[m.callee].currentTerm < m.append.term
    ensures var c', v := OnAppendReq(c, m), m.callee;
            && c'.servers[v] == Accepted(c.servers[v], m.append)
            && CoreOf(c') == AcceptNext(CoreOf(c), m)
            && Moves(c, c', v) && Records(c.hist, c'.hist, v)
            && c'.net == c.net + {AppendRep(m.caller, v, m.epoch, m.append, AppendReply(m.append.term, true, 0, 0, 0))}
            && c'.hist.applied == c.hist.applied
  {
    AcceptStep(c, m);
    AcceptedIs(c.servers[m.callee], m.append);
    AcceptCore(c, OnAppendReq(c, m), m);
    AcceptRecords(c, m);
  }

  lemma AcceptNextIs(k: Core, m: Message)
    requires m.AppendReq? && m.callee < |k.terms| && m.callee < |k.logs|
    requires m.append.term in k.leaders && m.append.prevLogIndex + |m.append.entries| < |k.leaders[m.append.term].log|
    ensures var a, next := m.append, AcceptNext(k, m);
            if |a.entries| > 0 then
              && next == Store(k, m.callee, a.term, a.prevLogIndex + |a.entries| + 1)
              && Stored(next, m.callee, a.term, a.prevLogIndex + |a.entries|)
            else next == Raise(k, m.callee, a.term)
  {
  }

  lemma AcceptNextInv(k: Core, m: Message, next: Core)
    requires CoreInv(k) && m.AppendReq? && m.callee < k.n && k.terms[m.callee] <= m.append.term
    requires m.append.term in k.leaders && m.append.prevLogIndex + |m.append.entries| < |k.leaders[m.append.term].log|
    requires var a := m.append;
             next == if |a.entries| > 0 then Store(k, m.callee, a.term, a.prevLogIndex + |a.entries| + 1)
                     else Raise(k, m.callee, a.term)
    ensures CoreInv(next) && Extends(k, next)
  {
    var a := m.append;
    if |a.entries| > 0 {
      StoreKeepsInv(k, m.callee, a.term, a.prevLogIndex + |a.entries| + 1);
    } else {
      RaiseKeepsInv(k, m.callee, a.term);
    }
  }

  lemma AcceptedServer(k: Core, k': Core, caller: nat, i: nat, s: Server, a: AppendArgs, q: set<nat>, q': set<nat>)
    requires CoreInv(k) && Extends(k, k') && SliceOk(k, caller, a) && s.WellFormed()
    requires ServerInv(k, i, s, q) && Genuine(s.logs, k.leaders)
    requires s.currentTerm <= a.term && ReplicateCheck(FollowLeader(s, a.term), a)
    ensures ServerInv(k', i, Accepted(s, a), q')
  {
    var s1 := FollowLeader(s, a.term);
    var s2 := Accept(s1, a);
    AcceptedCommit(k, caller, s1, a, s.currentTerm);
    CommittedStands(k, k', s2.logs, s2.logs, s2.committedIndex, a.term, a.term);
  }

  // A peer that gets a request of its own term from another peer is not that term's leader.
  lemma NotTheLeader(c: Cluster, m: Message)
    requires LogInv(c) && m in c.net && m.AppendReq?
    ensures var s := c.servers[m.callee];
            s.identity == Leader ==> s.currentTerm != m.append.term
  {
    AtPeer(c, m.callee);
    AtMessage(c, m);
  }

  lemma AcceptFacts(c: Cluster, m: Message)
    requires LogInv(c) && m in c.net && m.AppendReq? && Accepts(c, m)
    ensures var c', v := OnAppendReq(c, m), m.callee;
            && c'.servers[v] == Accepted(c.servers[v], m.append)
            && CoreOf(c') == AcceptNext(CoreOf(c), m)
            && Moves(c, c', v) && Records(c.hist, c'.hist, v)
            && c'.net == c.net + {AppendRep(m.caller, v, m.epoch, m.append, AppendReply(m.append.term, true, 0, 0, 0))}
            && (|m.append.entries| > 0 ==>
                  Stored(CoreOf(c'), v, m.append.term, m.append.prevLogIndex + |m.append.entries|))
            && c'.hist.applied == c.hist.applied
            && CoreInv(CoreOf(c')) && Extends(CoreOf(c), CoreOf(c'))
  {
    AtPeer(c, m.callee);
    AtMessage(c, m);
    NotTheLeader(c, m);
    AcceptedLog(CoreOf(c), m.caller, FollowLeader(c.servers[m.callee], m.append.term), m.append);
    AcceptIs(c, m);
    AcceptNextIs(CoreOf(c), m);
    AcceptNextInv(CoreOf(c), m, CoreOf(OnAppendReq(c, m)));
  }

  // The step put at most a reply to m on the network, and the reply is true.
  ghost predicate Replies(c: Cluster, c': Cluster, m: Message, k: Core)
    requires |c'.servers| == c'.n && |c'.epochs| == c'.n && m.AppendReq?
  {
    forall x :: x in c'.net && x !in c.net ==>
      && x.AppendRep? && x.caller == m.caller && x.epoch == m.epoch && x.append == m.append
      && ReplyOk(k, x.callee, x.append, x.appendReply)
  }

  lemma ReplyMessages(c: Cluster, c': Cluster, m: Message, k: Core)
    requires Shape(c) && Moves(c, c', m.callee) && m.AppendReq? && m in c.net && CallerOk(c, m)
    requires SliceOk(CoreOf(c), m.caller, m.append) && Extends(CoreOf(c), CoreOf(c'))
    requires Replies(c, c', m, k) && (k == CoreOf(c) || k == CoreOf(c'))
    ensures NewMessagesOk(c, c')
  {
    SliceStands(CoreOf(c), CoreOf(c'), m.caller, m.append);
  }

  lemma AcceptReplies(c: Cluster, c': Cluster, m: Message)
    requires |c'.servers| == c'.n && |c'.epochs| == c'.n && m.AppendReq?
    requires c'.net
             == c.net + {AppendRep(m.caller, m.callee, m.epoch, m.append, AppendReply(m.append.term, true, 0, 0, 0))}
    requires |m.append.entries| > 0 ==>
               Stored(CoreOf(c'), m.callee, m.append.term, m.append.prevLogIndex + |m.append.entries|)
    ensures Replies(c, c', m, CoreOf(c'))
  {
  }

  lemma AcceptGood(c: Cluster, m: Message)
    requires LogInv(c) && m in c.net && m.AppendReq? && Accepts(c, m)
    ensures GoodStep(c, OnAppendReq(c, m), m.callee)
  {
    AtMessage(c, m);
    AcceptFacts(c, m);
    AcceptReplies(c, OnAppendReq(c, m), m);
    ReplyMessages(c, OnAppendReq(c, m), m, CoreOf(OnAppendReq(c, m)));
  }

  lemma AcceptServer(c: Cluster, m: Message)
    requires LogInv(c) && m in c.net && m.AppendReq? && Accepts(c, m)
    ensures var c' := OnAppendReq(c, m);
            ServerInv(CoreOf(c'), m.callee, c'.servers[m.callee],
                      CountedBy(c'.hist, c'.servers[m.callee].currentTerm, m.callee))
  {
    var c', s := OnAppendReq(c, m), c.servers[m.callee];
    AtPeer(c, m.callee);
    AtMessage(c, m);
    AcceptFacts(c, m);
    AcceptedServer(CoreOf(c), CoreOf(c'), m.caller, m.callee, s, m.append,
                   CountedBy(c.hist, s.currentTerm, m.callee),
                   CountedBy(c'.hist, c'.servers[m.callee].currentTerm, m.callee));
  }

  // A rejection never panics, and tells the leader where the logs part.
  lemma RejectIsTrue(k: Core, caller: nat, s: Server, a: AppendArgs)
    requires LeadersOk(k) && Genuine(s.logs, k.leaders) && SliceOk(k, caller, a)
    requires s.discardCount == 0 && s.lastIncludedIndex == 0 && s.currentTerm == a.term
    requires !ReplicateCheck(s, a)
    ensures Reject(s, a).Done? && !Reject(s, a).value.success && Reject(s, a).value.term == a.term
    ensures RejectOk(k, a, Reject(s, a).value)
  {
    assert LeadOk(k, a.term);
    var prev := a.prevLogIndex;
    if prev < |s.logs| {
      assert prev != 0;
      GenuineIsSorted(k, s.logs);
      var x := s.logs[prev].term;
      assert LeadOk(k, x) && Agree(s.logs, k.leaders[x].log, prev);
      FindFirstOnSorted(s.logs, x);
    }
  }

  lemma StaleIs(c: Cluster, m: Message)
    requires Shape(c) && m in c.net && m.AppendReq? && m.append.term < c.servers[m.callee].currentTerm
    requires Plain(c.servers[m.callee])
    ensures var c' := OnAppendReq(c, m);
            && Moves(c, c', m.callee) && Quiet(c.servers[m.callee], c'.servers[m.callee])
            && c'.hist == c.hist && Replies(c, c', m, CoreOf(c))
  {
  }

  lemma RejectIs(c: Cluster, m: Message, reply: AppendReply)
    requires Shape(c) && m in c.net && m.AppendReq? && !Accepts(c, m) && Plain(c.servers[m.callee])
    requires c.servers[m.callee].currentTerm <= m.append.term
    requires c.servers[m.callee].identity == Leader ==> c.servers[m.callee].currentTerm != m.append.term
    requires Reject(FollowLeader(c.servers[m.callee], m.append.term), m.append) == Done(reply)
    requires !reply.success && reply.term == m.append.term && RejectOk(CoreOf(c), m.append, reply)
    ensures var c' := OnAppendReq(c, m);
            && Moves(c, c', m.callee) && Quiet(c.servers[m.callee], c'.servers[m.callee])
            && c'.hist == c.hist && Replies(c, c', m, CoreOf(c))
  {
  }

  lemma RejectedStep(c: Cluster, m: Message)
    requires Shape(c) && m in c.net && m.AppendReq? && !Accepts(c, m) && Plain(c.servers[m.callee])
    requires LeadersOk(CoreOf(c)) && Genuine(c.servers[m.callee].logs, c.hist.leaders)
    requires SliceOk(CoreOf(c), m.caller, m.append)
    requires c.servers[m.callee].identity == Leader ==> c.servers[m.callee].currentTerm != m.append.term
    ensures var c' := OnAppendReq(c, m);
            && Moves(c, c', m.callee) && Quiet(c.servers[m.callee], c'.servers[m.callee])
            && c'.hist == c.hist && Replies(c, c', m, CoreOf(c))
  {
    var s := c.servers[m.callee];
    if s.currentTerm <= m.append.term {
      var s1 := FollowLeader(s, m.append.term);
      RejectIsTrue(CoreOf(c), m.caller, s1, m.append);
      RejectIs(c, m, Reject(s1, m.append).value);
    } else {
      StaleIs(c, m);
    }
  }

  lemma RejectFacts(c: Cluster, m: Message)
    requires LogInv(c) && m in c.net && m.AppendReq? && !Accepts(c, m)
    ensures var c' := OnAppendReq(c, m);
            && Moves(c, c', m.callee) && Quiet(c.servers[m.callee], c'.servers[m.callee])
            && c'.hist == c.hist && Replies(c, c', m, CoreOf(c))
  {
    AtPeer(c, m.callee);
    AtMessage(c, m);
    NotTheLeader(c, m);
    RejectedStep(c, m);
  }

  lemma RejectKeepsLogInv(c: Cluster, m: Message)
    requires LogInv(c) && m in c.net && m.AppendReq? && !Accepts(c, m)
    ensures LogInv(OnAppendReq(c, m))
    ensures Extends(CoreOf(c), CoreOf(OnAppendReq(c, m)))
  {
    AtMessage(c, m);
    RejectFacts(c, m);
    QuietCore(c, OnAppendReq(c, m), m.callee);
    ReplyMessages(c, OnAppendReq(c, m), m, CoreOf(c));
    AppendReqKeepsInv(c, m);
    QuietKeepsLogInv(c, OnAppendReq(c, m), m.callee);
  }

  lemma AppendReqKeepsLogInv(c: Cluster, m: Message)
    requires LogInv(c) && m in c.net && m.AppendReq?
    ensures LogInv(OnAppendReq(c, m))
    ensures Extends(CoreOf(c), CoreOf(OnAppendReq(c, m)))
  {
    if Accepts(c, m) {
      AppendReqKeepsInv(c, m);
      AcceptFacts(c, m);
      AcceptGood(c, m);
      AcceptServer(c, m);
      GoodStepKeepsInv(c, OnAppendReq(c, m), m.callee);
    } else {
      RejectKeepsLogInv(c, m);
    }
  }

  // ---------------------------------------------------------------------------------------
  // The leader uses a reply
  // ---------------------------------------------------------------------------------------

  // The leader's entries of term x end before an index where a log of x's leader has one.
  lemma RunEndsBefore(logs: Log, theirs: Log, x: nat, at: nat)
    requires Sorted(logs) && at < |logs| && at < |theirs| && theirs[at].term == x && logs[at].term != x
    requires logs[0].term < x && forall i :: 1 <= i < |logs| && logs[i].term == x ==> Agree(logs, theirs, i)
    requires var f := FindFirst(logs, x); f < |logs| && logs[f].term == x
    ensures var f := FindFirst(logs, x + 1); 2 <= f <= at && logs[f - 1].term == x
  {
    FindFirstOnSorted(logs, x);
    FindFirstOnSorted(logs, x + 1);
    var lo, hi := FindFirst(logs, x), FindFirst(logs, x + 1);
    assert lo < hi;
    assert logs[hi - 1].term == x;
    assert Agree(logs, theirs, hi - 1);
    assert hi - 1 < at;
  }

  lemma BackOffBounds(s: Server, r: AppendReply, theirs: Log, prev: nat)
    requires Sorted(s.logs) && s.discardCount == 0 && prev < |s.logs| && prev < |theirs|
    requires 1 <= r.xIndex <= prev && theirs[prev].term == r.xTerm && s.logs[prev].term != r.xTerm
             && s.logs[0].term < r.xTerm
    requires forall i :: 1 <= i < |s.logs| && s.logs[i].term == r.xTerm ==> Agree(s.logs, theirs, i)
    ensures BackOff(s, r).Done? && 1 <= BackOff(s, r).value <= prev
  {
    var index := FindFirst(s.logs, r.xTerm);
    if index != |s.logs| && s.logs[index].term == r.xTerm {
      RunEndsBefore(s.logs, theirs, r.xTerm, prev);
    }
  }

  // Fast backoff: a rejected probe moves the leader's next probe below the one rejected,
  // never below index 1, and no panic of this path is reached.
  lemma BackOffProgress(k: Core, caller: nat, s: Server, a: AppendArgs, r: AppendReply)
    requires LeadersOk(k) && SliceOk(k, caller, a) && RejectOk(k, a, r)
    requires s.currentTerm == a.term && s.logs == k.leaders[a.term].log && s.discardCount == 0
    ensures BackOff(s, r).Done?
    ensures 1 <= BackOff(s, r).value <= a.prevLogIndex
  {
    LeaderIsGenuine(k, a.term);
    GenuineIsSorted(k, s.logs);
    if r.xIndex != InvalidIndex {
      assert LeadOk(k, r.xTerm);
      BackOffBounds(s, r, k.leaders[r.xTerm].log, a.prevLogIndex);
    }
  }

  // The other peers among the first upTo that hold `index`.
  ghost function Matching(s: Server, index: int, upTo: nat): (q: set<nat>)
    requires upTo <= |s.matchIndex|
    ensures |q| == MatchCount(s, index, upTo)
    ensures forall j: nat :: j in q <==> j < upTo && j != s.me && s.matchIndex[j] >= index
  {
    if upTo == 0 then {}
    else if upTo - 1 != s.me && s.matchIndex[upTo - 1] >= index then Matching(s, index, upTo - 1) + {upTo - 1}
    else Matching(s, index, upTo - 1)
  }

  // An index of the leader's own term that a majority holds is chosen.
  lemma MajorityIsChosen(k: Core, i: nat, s: Server, q: set<nat>, at: nat)
    requires ServerInv(k, i, s, q) && s.identity == Leader && s.WellFormed() && s.me == i && k.n == s.n
    requires 1 <= at < |s.logs| && s.logs[at].term == s.currentTerm && HasMajority(s, at)
    ensures Chosen(k, s.currentTerm, at)
  {
    var others := Matching(s, at, s.n);
    var all := others + {i};
    assert |all| == 1 + |others|;
    assert PeersOk(k, i, s);
    assert Majority(all, k.n) && HeldBy(k, all, s.currentTerm, at);
  }

  // ScanCommit stops at the highest position that has a majority.
  lemma {:induction false} ScanFindsHighest(s: Server, low: nat, at: int)
    requires |s.matchIndex| == s.n
    ensures var ci := ScanCommit(s, low, at);
            && s.committedIndex <= ci
            && (s.committedIndex < ci ==>
                  low <= ci - s.discardCount <= at && HasMajority(s, ci))
            && (forall x: nat ::
                  low <= x <= at && s.committedIndex < s.RaftIndex(x) && HasMajority(s, s.RaftIndex(x)) ==>
                  s.RaftIndex(x) <= ci)
    decreases at
  {
    if !(at < low || s.RaftIndex(at) <= s.committedIndex) && !HasMajority(s, s.RaftIndex(at)) {
      ScanFindsHighest(s, low, at - 1);
    }
  }

  lemma NoneAbove(logs: Log, term: nat)
    requires Sorted(logs) && 1 <= |logs| && forall x :: 0 <= x < |logs| ==> logs[x].term <= term
    ensures FindFirst(logs, term + 1) == |logs|
  {
    FindFirstOnSorted(logs, term + 1);
    assert logs[|logs| - 1].term <= term;
  }

  // The commit rule: updateCommittedIndex never panics and never moves the commit index down;
  // it moves to exactly the highest index of the current term that a majority holds.
  lemma CommitRule(s: Server)
    requires s.WellFormed() && Sorted(s.logs) && (forall x :: 0 <= x < |s.logs| ==> s.logs[x].term <= s.currentTerm)
    ensures UpdateCommitted(s).Done?
    ensures var s' := UpdateCommitted(s).value;
            && s' == s.(committedIndex := s'.committedIndex)
            && s.committedIndex <= s'.committedIndex
            && (s.committedIndex < s'.committedIndex ==>
                  var x := s'.committedIndex - s.discardCount;
                  0 <= x < |s.logs| && s.logs[x].term == s.currentTerm && HasMajority(s, s'.committedIndex))
            && (forall x: nat :: x < |s.logs| && s.logs[x].term == s.currentTerm && HasMajority(s, s.RaftIndex(x)) ==>
                  s.RaftIndex(x) <= s'.committedIndex)
  {
    FindFirstOnSorted(s.logs, s.currentTerm);
    NoneAbove(s.logs, s.currentTerm);
    var low, high := FindFirst(s.logs, s.currentTerm), FindFirst(s.logs, s.currentTerm + 1);
    if low != |s.logs| && s.logs[low].term == s.currentTerm {
      ScanFindsHighest(s, low, high - 1);
    }
  }

  // What a leader may change of itself: only what it knows of its peers and of commitment.
  ghost predicate Tracks(s: Server, s': Server) {
    s' == s.(nextIndex := s'.nextIndex, matchIndex := s'.matchIndex, committedIndex := s'.committedIndex)
  }

  ghost predicate CurrentReply(k: Core, i: nat, s: Server, j: nat, a: AppendArgs, r: AppendReply, q: set<nat>) {
    && ServerInv(k, i, s, q) && s.WellFormed() && s.me == i && s.n == k.n && j < s.n && j != i
    && LeadersOk(k) && SliceOk(k, i, a) && ReplyOk(k, j, a, r)
    && s.identity == Leader && a.term == s.currentTerm == r.term
  }

  lemma RejectedProbe(k: Core, i: nat, s: Server, j: nat, a: AppendArgs, r: AppendReply, q: set<nat>)
    requires CurrentReply(k, i, s, j, a, r, q) && !r.success
    ensures var o := HandleAppendReply(s, j, a, r);
            && o.Done? && Tracks(s, o.value) && ServerInv(k, i, o.value, q)
            && 1 <= o.value.nextIndex[j] <= a.prevLogIndex
  {
    BackOffProgress(k, i, s, a, r);
    assert PeersOk(k, i, s);
  }

  lemma AckKeepsPeers(k: Core, i: nat, s: Server, j: nat, a: AppendArgs, r: AppendReply, q: set<nat>)
    requires CurrentReply(k, i, s, j, a, r, q) && r.success && |a.entries| > 0
    ensures ServerInv(k, i, Acknowledge(s, j, a.prevLogIndex + |a.entries|), q)
  {
    assert PeersOk(k, i, s);
  }

  // A commit index found by the leader is chosen.
  lemma CommitIsSafe(k: Core, i: nat, s: Server, q: set<nat>)
    requires ServerInv(k, i, s, q) && s.identity == Leader && s.WellFormed() && s.me == i && k.n == s.n
    requires LeadersOk(k)
    ensures var o := UpdateCommitted(s);
            o.Done? && Tracks(s, o.value) && ServerInv(k, i, o.value, q)
  {
    assert LeadOk(k, s.currentTerm);
    GenuineIsSorted(k, s.logs);
    CommitRule(s);
    var ci := UpdateCommitted(s).value.committedIndex;
    if s.committedIndex < ci {
      assert s.logs[ci].term == s.currentTerm;
      MajorityIsChosen(k, i, s, q, ci);
      assert Agree(s.logs, k.leaders[s.currentTerm].log, ci);
      assert Committed(k, s.logs, ci, s.currentTerm);
    }
  }

  lemma AcknowledgeIs(s: Server, j: nat, a: AppendArgs, r: AppendReply)
    requires s.WellFormed() && j < s.n && s.currentTerm <= r.term && r.success
    requires |a.entries| > 0 && a.prevLogIndex + 1 == s.nextIndex[j]
    ensures HandleAppendReply(s, j, a, r) == UpdateCommitted(Acknowledge(s, j, a.prevLogIndex + |a.entries|))
    ensures Tracks(s, Acknowledge(s, j, a.prevLogIndex + |a.entries|))
  {
  }

  lemma AcknowledgedServer(k: Core, i: nat, s: Server, j: nat, a: AppendArgs, r: AppendReply, q: set<nat>)
    requires CurrentReply(k, i, s, j, a, r, q) && r.success && |a.entries| > 0 && a.prevLogIndex + 1 == s.nextIndex[j]
    ensures var o := HandleAppendReply(s, j, a, r); o.Done? && Tracks(s, o.value) && ServerInv(k, i, o.value, q)
  {
    AckKeepsPeers(k, i, s, j, a, r, q);
    AcknowledgeIs(s, j, a, r);
    CommitIsSafe(k, i, Acknowledge(s, j, a.prevLogIndex + |a.entries|), q);
  }

  lemma CurrentReplyServer(k: Core, i: nat, s: Server, j: nat, a: AppendArgs, r: AppendReply, q: set<nat>)
    requires CurrentReply(k, i, s, j, a, r, q)
    ensures var o := HandleAppendReply(s, j, a, r); o.Done? && Tracks(s, o.value) && ServerInv(k, i, o.value, q)
  {
    if !r.success {
      RejectedProbe(k, i, s, j, a, r, q);
    } else if |a.entries| > 0 && a.prevLogIndex + 1 == s.nextIndex[j] {
      AcknowledgedServer(k, i, s, j, a, r, q);
    }
  }

  // A reply of another term changes at most the term.
  lemma OldReplyServer(s: Server, j: nat, a: AppendArgs, r: AppendReply)
    requires s.WellFormed() && Plain(s) && j < s.n && a.term <= r.term && a.term <= s.currentTerm
    requires r.success ==> r.term == a.term
    requires a.term < s.currentTerm || a.term < r.term
    ensures var o := HandleAppendReply(s, j, a, r); o.Done? && Quiet(s, o.value) && Steady(s, o.value)
  {
  }

  lemma TracksKeepsLogInv(c: Cluster, i: nat, s': Server)
    requires LogInv(c) && i < c.n && ElectionInv(Put(c, i, s')) && Tracks(c.servers[i], s')
    requires ServerInv(CoreOf(c), i, s', CountedBy(c.hist, c.servers[i].currentTerm, i))
    ensures LogInv(Put(c, i, s'))
    ensures Extends(CoreOf(c), CoreOf(Put(c, i, s')))
  {
    TracksIsGood(c, i, s');
    GoodStepKeepsInv(c, Put(c, i, s'), i);
  }

  lemma TracksCore(c: Cluster, i: nat, s': Server)
    requires |c.servers| == c.n && i < c.n && Tracks(c.servers[i], s')
    ensures CoreOf(Put(c, i, s')) == CoreOf(c)
  {
    var c' := Put(c, i, s');
    CoreAfterPut(c, c', i);
    assert CoreOf(c').terms == CoreOf(c).terms && CoreOf(c').logs == CoreOf(c).logs;
  }

  lemma TracksIsGood(c: Cluster, i: nat, s': Server)
    requires Shape(c) && i < c.n && Tracks(c.servers[i], s') && LeadersElected(c.hist)
    ensures CoreOf(Put(c, i, s')) == CoreOf(c) && GoodStep(c, Put(c, i, s'), i)
  {
    TracksCore(c, i, s');
  }

  lemma CurrentReplyKeepsLogInv(c: Cluster, m: Message)
    requires LogInv(c) && m in c.net && m.AppendRep? && m.epoch == c.epochs[m.caller]
    requires m.append.term == c.servers[m.caller].currentTerm == m.appendReply.term
    ensures LogInv(OnAppendRep(c, m))
    ensures Extends(CoreOf(c), CoreOf(OnAppendRep(c, m)))
  {
    var i, s := m.caller, c.servers[m.caller];
    AtPeer(c, i);
    AtMessage(c, m);
    CurrentReplyServer(CoreOf(c), i, s, m.callee, m.append, m.appendReply, CountedBy(c.hist, s.currentTerm, i));
    AppendRepKeepsInv(c, m);
    TracksKeepsLogInv(c, i, HandleAppendReply(s, m.callee, m.append, m.appendReply).value);
  }

  lemma OldReplyKeepsLogInv(c: Cluster, m: Message)
    requires LogInv(c) && m in c.net && m.AppendRep? && m.epoch == c.epochs[m.caller]
    requires !(m.append.term == c.servers[m.caller].currentTerm == m.appendReply.term)
    ensures LogInv(OnAppendRep(c, m))
    ensures Extends(CoreOf(c), CoreOf(OnAppendRep(c, m)))
  {
    var i, s := m.caller, c.servers[m.caller];
    AtPeer(c, i);
    AtMessage(c, m);
    OldReplyServer(s, m.callee, m.append, m.appendReply);
    AppendRepKeepsInv(c, m);
    QuietKeepsLogInv(c, Put(c, i, HandleAppendReply(s, m.callee, m.append, m.appendReply).value), i);
  }

  lemma AppendRepKeepsLogInv(c: Cluster, m: Message)
    requires LogInv(c) && m in c.net && m.AppendRep?
    ensures LogInv(OnAppendRep(c, m))
    ensures Extends(CoreOf(c), CoreOf(OnAppendRep(c, m)))
  {
    if m.epoch == c.epochs[m.caller] {
      if m.append.term == c.servers[m.caller].currentTerm == m.appendReply.term {
        CurrentReplyKeepsLogInv(c, m);
      } else {
        OldReplyKeepsLogInv(c, m);
      }
    }
  }

  // ---------------------------------------------------------------------------------------
  // The apply loop
  // ---------------------------------------------------------------------------------------

  lemma {:induction false} CommandsAre(logs: Log, base: nat, lo: nat, hi: nat)
    requires base <= lo && hi < base + |logs|
    ensures forall m :: m in Commands(logs, base, lo, hi) ==>
              m.CommandMsg? && lo < m.index <= hi && m.command == logs[m.index - base].command
    decreases hi
  {
    if lo < hi {
      CommandsAre(logs, base, lo, hi - 1);
    }
  }

  // The loop never panics, and it delivers entries of the log no further than the commit index.
  lemma ApplyIs(s: Server)
    requires s.WellFormed() && Plain(s) && s.committedIndex < |s.logs|
    ensures var o := ApplyRound(s);
            && o.Done? && o.value.0 == s.(lastApplied := o.value.0.lastApplied)
            && forall m :: m in o.value.1 ==>
                 m.CommandMsg? && 1 <= m.index <= s.committedIndex && m.command == s.logs[m.index].command
  {
    CommandsAre(s.logs, s.discardCount, s.lastApplied, s.committedIndex);
  }

  lemma DeliveredIsChosen(k: Core, i: nat, s: Server, q: set<nat>, index: nat)
    requires ServerInv(k, i, s, q) && 1 <= index <= s.committedIndex
    ensures index < |s.logs| && AppliedOk(k, Applied(i, index, s.logs[index].command))
  {
    var t: nat, x: nat :| t <= s.currentTerm && s.committedIndex <= x && Chosen(k, t, x)
                          && Agree(s.logs, k.leaders[t].log, s.committedIndex);
    assert k.leaders[t].log[index] == s.logs[index];
  }

  lemma DeliveryServer(k: Core, i: nat, s: Server, last: nat, q: set<nat>)
    requires ServerInv(k, i, s, q)
    ensures ServerInv(k, i, s.(lastApplied := last), q)
  {
    var s' := s.(lastApplied := last);
    assert PeersOk(k, i, s) ==> PeersOk(k, i, s');
  }

  function Deliver(c: Cluster, i: nat, last: nat, delivered: set<Applied>): Cluster
    requires i < |c.servers|
  {
    Put(c, i, c.servers[i].(lastApplied := last)).(hist := c.hist.(applied := c.hist.applied + delivered))
  }

  lemma DeliverIs(c: Cluster, i: nat, last: nat, delivered: set<Applied>)
    requires Shape(c) && i < c.n && LeadersElected(c.hist) && forall a :: a in delivered ==> AppliedOk(CoreOf(c), a)
    ensures var c' := Deliver(c, i, last, delivered);
            && CoreOf(c') == CoreOf(c) && Moves(c, c', i) && Records(c.hist, c'.hist, i)
            && NewMessagesOk(c, c') && NewAppliedOk(c, c')
  {
    var c' := Deliver(c, i, last, delivered);
    CoreAfterPut(c, c', i);
    assert CoreOf(c').terms == CoreOf(c).terms && CoreOf(c').logs == CoreOf(c).logs;
  }

  lemma DeliverKeepsLogInv(c: Cluster, i: nat, last: nat, delivered: set<Applied>)
    requires LogInv(c) && i < c.n && forall a :: a in delivered ==> AppliedOk(CoreOf(c), a)
    requires ElectionInv(Deliver(c, i, last, delivered))
    ensures LogInv(Deliver(c, i, last, delivered))
    ensures Extends(CoreOf(c), CoreOf(Deliver(c, i, last, delivered)))
  {
    AtPeer(c, i);
    DeliveryServer(CoreOf(c), i, c.servers[i], last, CountedBy(c.hist, c.servers[i].currentTerm, i));
    DeliverIs(c, i, last, delivered);
    GoodStepKeepsInv(c, Deliver(c, i, last, delivered), i);
  }

  lemma ApplyKeepsLogInv(c: Cluster, i: nat)
    requires LogInv(c) && i < c.n
    ensures LogInv(OnApply(c, i))
    ensures Extends(CoreOf(c), CoreOf(OnApply(c, i)))
  {
    var s := c.servers[i];
    AtPeer(c, i);
    ApplyIs(s);
    var (s', msgs) := ApplyRound(s).value;
    var delivered := set m | m in msgs && m.CommandMsg? :: Applied(i, m.index, m.command);
    forall a | a in delivered ensures AppliedOk(CoreOf(c), a) {
      DeliveredIsChosen(CoreOf(c), i, s, CountedBy(c.hist, s.currentTerm, i), a.index);
    }
    ApplyKeepsInv(c, i);
    DeliverKeepsLogInv(c, i, s'.lastApplied, delivered);
  }
}

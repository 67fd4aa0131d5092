/**
 Log matching, leader completeness, the commit rule and state machine safety, in every run in
 which no service takes a snapshot: any loss, delay and reordering of messages, any crashes
 and restarts.
 */
module RaftSafety {
  import opened RaftServer
  import opened RaftCore
  import opened RaftCluster
  import opened RaftElection

  // ---------------------------------------------------------------------------------------
  // The invariant
  // ---------------------------------------------------------------------------------------

  // No snapshot was ever taken, and everything that must survive a crash is on disk.
  ghost predicate Plain(s: Server) {
    && s.discardCount == 0 && s.lastIncludedIndex == 0
    && s.snapshot.NoSnapshot? && !s.applySnapPending
    && s.disk == Disk(s.currentTerm, s.voteFor, s.logs, NoSnapshot)
  }

  // Index ci of the log is part of a prefix chosen in a term not above `bound`.
  ghost predicate Committed(k: Core, log: Log, ci: nat, bound: nat) {
    ci == 0 || exists t: nat, i: nat :: t <= bound && ci <= i && Chosen(k, t, i) && Agree(log, k.leaders[t].log, ci)
  }

  ghost predicate PeersOk(k: Core, i: nat, s: Server) {
    forall j: nat :: j < s.n && j != i && j < |s.nextIndex| && j < |s.matchIndex| ==>
      && 1 <= s.nextIndex[j] <= |s.logs|
      && (0 < s.matchIndex[j] ==> Stored(k, j, s.currentTerm, s.matchIndex[j]))
  }

  ghost predicate LeaderOk(k: Core, i: nat, s: Server) {
    s.identity == Leader ==>
      && s.currentTerm in k.leaders
      && k.leaders[s.currentTerm].id == i
      && k.leaders[s.currentTerm].log == s.logs
      && 1 <= |s.logs| && Stored(k, i, s.currentTerm, |s.logs| - 1)
      && PeersOk(k, i, s)
  }

  ghost predicate CandidateOk(k: Core, i: nat, s: Server, counted: set<nat>) {
    s.identity == Candidate ==>
      && (s.currentTerm, i) in k.campaigns
      && k.campaigns[(s.currentTerm, i)] == s.logs
      && (s.currentTerm !in k.leaders ==>
            forall v :: v in counted + {i} ==> Ballot(s.currentTerm, v, i) in k.ballots)
  }

  ghost predicate ServerInv(k: Core, i: nat, s: Server, counted: set<nat>) {
    && Plain(s)
    && LeaderOk(k, i, s)
    && CandidateOk(k, i, s, counted)
    && Committed(k, s.logs, s.committedIndex, s.currentTerm)
  }

  // The request is a slice of the log its leader has built.
  ghost predicate SliceOk(k: Core, caller: nat, a: AppendArgs) {
    && a.term in k.leaders
    && k.leaders[a.term].id == caller
    && var log := k.leaders[a.term].log;
       && a.prevLogIndex + |a.entries| < |log|
       && log[a.prevLogIndex].term == a.prevLogTerm
       && a.entries == log[a.prevLogIndex + 1..a.prevLogIndex + 1 + |a.entries|]
       && Committed(k, log, a.leaderCommit, a.term)
       && (|a.entries| == 0 ==> a.leaderCommit <= a.prevLogIndex)
  }

  // What a rejection by a peer of the same term tells.
  ghost predicate RejectOk(k: Core, a: AppendArgs, r: AppendReply) {
    if r.xIndex == InvalidIndex then 1 <= r.xLen <= a.prevLogIndex
    else
      && 1 <= r.xIndex <= a.prevLogIndex
      && r.xTerm != a.prevLogTerm
      && r.xTerm in k.leaders
      && a.prevLogIndex < |k.leaders[r.xTerm].log|
      && k.leaders[r.xTerm].log[a.prevLogIndex].term == r.xTerm
  }

  ghost predicate ReplyOk(k: Core, callee: nat, a: AppendArgs, r: AppendReply) {
    && a.term <= r.term
    && (r.success ==> r.term == a.term && (|a.entries| > 0 ==> Stored(k, callee, a.term, a.prevLogIndex + |a.entries|)))
    && (!r.success && r.term == a.term ==> RejectOk(k, a, r))
  }

  ghost predicate RequestOk(k: Core, caller: nat, a: VoteArgs) {
    && (a.term, caller) in k.campaigns
    && var log := k.campaigns[(a.term, caller)];
       1 <= |log| && a.lastLogIndex == |log| - 1 && a.lastLogTerm == log[|log| - 1].term
  }

  ghost predicate MessageOk(k: Core, m: Message) {
    match m
    case VoteReq(caller, callee, _, a) => RequestOk(k, caller, a)
    case VoteRep(caller, callee, _, a, r) =>
      r.granted && a.term !in k.leaders ==> Ballot(a.term, callee, caller) in k.ballots
    case AppendReq(caller, callee, _, a) => SliceOk(k, caller, a)
    case AppendRep(caller, callee, _, a, r) => SliceOk(k, caller, a) && ReplyOk(k, callee, a, r)
    case SnapReq(_, _, _, _) => false
    case SnapRep(_, _, _, _, _) => false
  }

  // A call of replication still has its caller waiting only if that caller is of the same
  // term and leader, or of a later term.
  ghost predicate CallerOk(c: Cluster, m: Message)
    requires |c.servers| == c.n && |c.epochs| == c.n && m.caller < c.n
  {
    && m.epoch <= c.epochs[m.caller]
    && ((m.AppendReq? || m.AppendRep?) && m.epoch == c.epochs[m.caller] ==>
          var s := c.servers[m.caller];
          m.append.term <= s.currentTerm && (m.append.term == s.currentTerm ==> s.identity == Leader))
  }

  // A delivered command is the one chosen for its index.
  ghost predicate AppliedOk(k: Core, a: Applied) {
    exists t: nat, i: nat :: 1 <= a.index <= i && Chosen(k, t, i) && k.leaders[t].log[a.index].command == a.command
  }

  ghost predicate LeadersElected(h: History) {
    forall t :: t in h.leaders ==> (t, h.leaders[t].id) in h.elected
  }

  ghost predicate ServersInv(c: Cluster)
    requires |c.servers| == c.n
  {
    forall i: nat :: i < c.n ==>
      ServerInv(CoreOf(c), i, c.servers[i], CountedBy(c.hist, c.servers[i].currentTerm, i))
  }

  ghost predicate MessagesInv(c: Cluster)
    requires |c.servers| == c.n && |c.epochs| == c.n
  {
    forall m :: m in c.net ==> m.caller < c.n && MessageOk(CoreOf(c), m) && CallerOk(c, m)
  }

  ghost predicate AppliedInv(c: Cluster)
    requires |c.servers| == c.n
  {
    forall a :: a in c.hist.applied ==> AppliedOk(CoreOf(c), a)
  }

  ghost predicate LogInv(c: Cluster) {
    && ElectionInv(c)
    && CoreInv(CoreOf(c))
    && LeadersElected(c.hist)
    && ServersInv(c)
    && MessagesInv(c)
    && AppliedInv(c)
  }

  // ---------------------------------------------------------------------------------------
  // What is true stays true as history grows
  // ---------------------------------------------------------------------------------------

  lemma CommittedStands(k: Core, k': Core, log: Log, log': Log, ci: nat, bound: nat, bound': nat)
    requires Extends(k, k') && Committed(k, log, ci, bound) && log <= log' && bound <= bound'
    ensures Committed(k', log', ci, bound')
  {
    if ci != 0 {
      var t: nat, i: nat :| t <= bound && ci <= i && Chosen(k, t, i) && Agree(log, k.leaders[t].log, ci);
      ChosenExtends(k, k', t, i);
      assert Agree(log', k'.leaders[t].log, ci);
    }
  }

  lemma SliceStands(k: Core, k': Core, caller: nat, a: AppendArgs)
    requires Extends(k, k') && SliceOk(k, caller, a)
    ensures SliceOk(k', caller, a)
  {
    CommittedStands(k, k', k.leaders[a.term].log, k'.leaders[a.term].log, a.leaderCommit, a.term, a.term);
  }

  lemma MessageStands(k: Core, k': Core, m: Message)
    requires Extends(k, k') && MessageOk(k, m)
    ensures MessageOk(k', m)
  {
    if m.AppendReq? || m.AppendRep? {
      SliceStands(k, k', m.caller, m.append);
    }
  }

  lemma AppliedStands(k: Core, k': Core, a: Applied)
    requires Extends(k, k') && AppliedOk(k, a)
    ensures AppliedOk(k', a)
  {
    var t: nat, i: nat :| 1 <= a.index <= i && Chosen(k, t, i) && k.leaders[t].log[a.index].command == a.command;
    ChosenExtends(k, k', t, i);
  }

  // A peer not taking part in a step keeps its invariant.
  lemma BystanderStands(k: Core, k': Core, i: nat, s: Server, counted: set<nat>)
    requires Extends(k, k') && ServerInv(k, i, s, counted)
    requires s.identity == Leader && s.currentTerm in k.leaders ==>
               k'.leaders[s.currentTerm].log == k.leaders[s.currentTerm].log
    ensures ServerInv(k', i, s, counted)
  {
    CommittedStands(k, k', s.logs, s.logs, s.committedIndex, s.currentTerm, s.currentTerm);
  }

  lemma CoreAfterPut(c: Cluster, c': Cluster, i: nat)
    requires |c.servers| == c.n == c'.n && i < c.n
    requires |c'.servers| == c.n && c'.servers == c.servers[i := c'.servers[i]]
    ensures CoreOf(c').terms == CoreOf(c).terms[i := c'.servers[i].currentTerm]
    ensures CoreOf(c').logs == CoreOf(c).logs[i := c'.servers[i].logs]
  {
  }

  // The peer's later state does not leave an office within its term.
  ghost predicate Steady(s: Server, s': Server) {
    s.currentTerm < s'.currentTerm
    || (s.currentTerm == s'.currentTerm && (s.identity == Leader ==> s'.identity == Leader))
  }

  // Only peer i changes.
  ghost predicate Moves(c: Cluster, c': Cluster, i: nat)
    requires |c.servers| == c.n && |c.epochs| == c.n
  {
    && c'.n == c.n && i < c.n && |c'.servers| == c.n && |c'.epochs| == c.n
    && c'.servers == c.servers[i := c'.servers[i]]
    && c'.epochs == c.epochs[i := c'.epochs[i]]
    && (c.epochs[i] < c'.epochs[i] || (c.epochs[i] == c'.epochs[i] && Steady(c.servers[i], c'.servers[i])))
  }

  ghost predicate Records(h: History, h': History, i: nat) {
    && (forall t :: t in h.leaders && h.leaders[t].id != i ==> t in h'.leaders && h'.leaders[t].log == h.leaders[t].log)
    && LeadersElected(h')
    && (forall j: nat, t: nat :: j != i ==> CountedBy(h', t, j) == CountedBy(h, t, j))
  }

  ghost predicate NewMessagesOk(c: Cluster, c': Cluster)
    requires |c'.servers| == c'.n && |c'.epochs| == c'.n
  {
    forall m :: m in c'.net && m !in c.net ==> m.caller < c'.n && MessageOk(CoreOf(c'), m) && CallerOk(c', m)
  }

  ghost predicate NewAppliedOk(c: Cluster, c': Cluster)
    requires |c'.servers| == c'.n
  {
    forall a :: a in c'.hist.applied && a !in c.hist.applied ==> AppliedOk(CoreOf(c'), a)
  }

  // Peer i takes a step: what has to be shown of it for the invariant to stand.
  ghost predicate GoodStep(c: Cluster, c': Cluster, i: nat)
    requires |c.servers| == c.n && |c.epochs| == c.n
  {
    && Moves(c, c', i)
    && Extends(CoreOf(c), CoreOf(c'))
    && Records(c.hist, c'.hist, i)
    && NewMessagesOk(c, c')
    && NewAppliedOk(c, c')
  }

  lemma GoodStepKeepsServers(c: Cluster, c': Cluster, i: nat)
    requires LogInv(c) && GoodStep(c, c', i)
    requires ServerInv(CoreOf(c'), i, c'.servers[i], CountedBy(c'.hist, c'.servers[i].currentTerm, i))
    ensures ServersInv(c')
  {
    forall j: nat | j < c.n && j != i
      ensures ServerInv(CoreOf(c'), j, c'.servers[j], CountedBy(c'.hist, c'.servers[j].currentTerm, j))
    {
      var s := c.servers[j];
      assert ServerInv(CoreOf(c), j, s, CountedBy(c.hist, s.currentTerm, j));
      BystanderStands(CoreOf(c), CoreOf(c'), j, s, CountedBy(c.hist, s.currentTerm, j));
    }
  }

  lemma GoodStepKeepsMessages(c: Cluster, c': Cluster, i: nat)
    requires LogInv(c) && GoodStep(c, c', i)
    ensures MessagesInv(c')
  {
    forall m | m in c'.net && m in c.net ensures MessageOk(CoreOf(c'), m) && CallerOk(c', m) {
      assert MessageOk(CoreOf(c), m) && CallerOk(c, m);
      MessageStands(CoreOf(c), CoreOf(c'), m);
    }
  }

  lemma GoodStepKeepsInv(c: Cluster, c': Cluster, i: nat)
    requires LogInv(c) && ElectionInv(c') && GoodStep(c, c', i)
    requires CoreInv(CoreOf(c'))
    requires ServerInv(CoreOf(c'), i, c'.servers[i], CountedBy(c'.hist, c'.servers[i].currentTerm, i))
    ensures LogInv(c')
    ensures Extends(CoreOf(c), CoreOf(c'))
  {
    GoodStepKeepsServers(c, c', i);
    GoodStepKeepsMessages(c, c', i);
    forall a | a in c'.hist.applied ensures AppliedOk(CoreOf(c'), a) {
      if a in c.hist.applied {
        AppliedStands(CoreOf(c), CoreOf(c'), a);
      }
    }
  }

  // ---------------------------------------------------------------------------------------
  // Elections
  // ---------------------------------------------------------------------------------------

  lemma TimeoutCore(c: Cluster, i: nat)
    requires LogInv(c) && i < c.n
    ensures CoreOf(OnTimeout(c, i)) == StartCampaign(CoreOf(c), i, c.servers[i].currentTerm + 1)
    ensures CoreInv(CoreOf(OnTimeout(c, i))) && Extends(CoreOf(c), CoreOf(OnTimeout(c, i)))
  {
    CoreAfterPut(c, OnTimeout(c, i), i);
    StartCampaignKeepsInv(CoreOf(c), i, c.servers[i].currentTerm + 1);
  }

  lemma TimeoutMessages(c: Cluster, i: nat)
    requires Shape(c) && i < c.n && Plain(c.servers[i])
    ensures NewMessagesOk(c, OnTimeout(c, i))
  {
    var c' := OnTimeout(c, i);
    var s := Campaign(c.servers[i]);
    assert CoreOf(c').campaigns[(s.currentTerm, i)] == s.logs;
    assert RequestOk(CoreOf(c'), i, VoteRequest(s));
  }

  lemma TimeoutRecords(c: Cluster, i: nat)
    requires Shape(c) && LeadersElected(c.hist) && i < c.n
    ensures Records(c.hist, OnTimeout(c, i).hist, i)
  {
  }

  lemma TimeoutGood(c: Cluster, i: nat)
    requires LogInv(c) && i < c.n
    ensures GoodStep(c, OnTimeout(c, i), i)
  {
    assert ServerInv(CoreOf(c), i, c.servers[i], CountedBy(c.hist, c.servers[i].currentTerm, i));
    TimeoutCore(c, i);
    TimeoutMessages(c, i);
    TimeoutRecords(c, i);
  }

  lemma TimeoutServer(c: Cluster, i: nat)
    requires LogInv(c) && i < c.n
    ensures var c' := OnTimeout(c, i);
            ServerInv(CoreOf(c'), i, c'.servers[i], CountedBy(c'.hist, c'.servers[i].currentTerm, i))
  {
    var c' := OnTimeout(c, i);
    var s := c.servers[i];
    TimeoutCore(c, i);
    assert ServerInv(CoreOf(c), i, s, CountedBy(c.hist, s.currentTerm, i));
    CommittedStands(CoreOf(c), CoreOf(c'), s.logs, s.logs, s.committedIndex, s.currentTerm, s.currentTerm + 1);
  }

  lemma TimeoutKeepsLogInv(c: Cluster, i: nat)
    requires LogInv(c) && i < c.n
    ensures LogInv(OnTimeout(c, i))
    ensures Extends(CoreOf(c), CoreOf(OnTimeout(c, i)))
  {
    TimeoutKeepsInv(c, i);
    TimeoutCore(c, i);
    TimeoutGood(c, i);
    TimeoutServer(c, i);
    GoodStepKeepsInv(c, OnTimeout(c, i), i);
  }

  // The core after the callee handled a vote request.
  ghost function VoteReqNext(k: Core, m: Message, s: Server): Core
    requires m.VoteReq? && m.callee < |k.terms| && 1 <= |s.logs|
  {
    var (s', reply) := HandleVote(s, m.vote);
    if reply.granted && m.vote.term !in k.leaders then CastBallot(k, m.callee, m.vote.term, m.caller)
    else Raise(k, m.callee, s'.currentTerm)
  }

  lemma VoteReqCoreIs(c: Cluster, m: Message)
    requires Shape(c) && m in c.net && m.VoteReq?
    ensures CoreOf(OnVoteReq(c, m)) == VoteReqNext(CoreOf(c), m, c.servers[m.callee])
    ensures CoreOf(OnVoteReq(c, m)).leaders == c.hist.leaders
  {
    CoreAfterPut(c, OnVoteReq(c, m), m.callee);
  }

  lemma GrantPassesCheck(k: Core, m: Message, s: Server)
    requires m.VoteReq? && m.callee < |k.logs| && Plain(s) && s.logs == k.logs[m.callee] && 1 <= |s.logs|
    requires MessageOk(k, m) && HandleVote(s, m.vote).1.granted
    ensures PassesCheck(k, m.callee, m.vote.term, m.caller)
    ensures s.currentTerm <= m.vote.term
  {
  }

  lemma VoteReqNextInv(k: Core, m: Message, s: Server)
    requires CoreInv(k) && m.VoteReq? && m.callee < k.n && Plain(s) && s.logs == k.logs[m.callee]
    requires s.currentTerm == k.terms[m.callee] && 1 <= |s.logs| && MessageOk(k, m)
    ensures CoreInv(VoteReqNext(k, m, s)) && Extends(k, VoteReqNext(k, m, s))
  {
    var (s', reply) := HandleVote(s, m.vote);
    if reply.granted && m.vote.term !in k.leaders {
      GrantPassesCheck(k, m, s);
      CastBallotKeepsInv(k, m.callee, m.vote.term, m.caller);
    } else {
      RaiseKeepsInv(k, m.callee, s'.currentTerm);
    }
  }

  // The invariant, as it speaks of one peer and of one message.
  lemma AtPeer(c: Cluster, i: nat)
    requires LogInv(c) && i < c.n
    ensures var s := c.servers[i];
            && ServerInv(CoreOf(c), i, s, CountedBy(c.hist, s.currentTerm, i))
            && VoterOk(i, s, c.hist) && OfficeOk(i, s, c.hist)
            && s.WellFormed() && s.me == i && s.n == c.n
            && Genuine(s.logs, c.hist.leaders)
  {
    assert CoreOf(c).logs[i] == c.servers[i].logs;
  }

  lemma AtMessage(c: Cluster, m: Message)
    requires LogInv(c) && m in c.net
    ensures m.caller < c.n && m.callee < c.n && m.caller != m.callee
    ensures MessageOk(CoreOf(c), m) && CallerOk(c, m) && CallOk(m, c.hist)
  {
  }

  lemma VoteReqCore(c: Cluster, m: Message)
    requires LogInv(c) && m in c.net && m.VoteReq?
    ensures CoreInv(CoreOf(OnVoteReq(c, m))) && Extends(CoreOf(c), CoreOf(OnVoteReq(c, m)))
    ensures CoreOf(OnVoteReq(c, m)).leaders == c.hist.leaders
  {
    AtPeer(c, m.callee);
    AtMessage(c, m);
    VoteReqCoreIs(c, m);
    VoteReqNextInv(CoreOf(c), m, c.servers[m.callee]);
  }

  lemma VoteReqMoves(c: Cluster, m: Message)
    requires Shape(c) && m in c.net && m.VoteReq? && CallerOk(c, m) && LeadersElected(c.hist)
    requires VoterOk(m.callee, c.servers[m.callee], c.hist) && OfficeOk(m.callee, c.servers[m.callee], c.hist)
    requires m.vote.candidateId == m.caller
    ensures Moves(c, OnVoteReq(c, m), m.callee)
    ensures Records(c.hist, OnVoteReq(c, m).hist, m.callee)
    ensures NewMessagesOk(c, OnVoteReq(c, m)) && NewAppliedOk(c, OnVoteReq(c, m))
  {
  }

  lemma VoteReqServer(c: Cluster, m: Message, k': Core)
    requires Shape(c) && m in c.net && m.VoteReq? && Extends(CoreOf(c), k')
    requires VoterOk(m.callee, c.servers[m.callee], c.hist) && OfficeOk(m.callee, c.servers[m.callee], c.hist)
    requires m.vote.candidateId == m.caller
    requires k'.leaders == c.hist.leaders
    requires ServerInv(CoreOf(c), m.callee, c.servers[m.callee],
                       CountedBy(c.hist, c.servers[m.callee].currentTerm, m.callee))
    ensures var c' := OnVoteReq(c, m);
            ServerInv(k', m.callee, c'.servers[m.callee],
                      CountedBy(c'.hist, c'.servers[m.callee].currentTerm, m.callee))
  {
    var s, s' := c.servers[m.callee], HandleVote(c.servers[m.callee], m.vote).0;
    if s.identity != Follower && m.vote.term <= s.currentTerm {
      BystanderStands(CoreOf(c), k', m.callee, s, CountedBy(c.hist, s.currentTerm, m.callee));
    } else {
      CommittedStands(CoreOf(c), k', s.logs, s.logs, s.committedIndex, s.currentTerm, s'.currentTerm);
    }
  }

  lemma VoteReqGood(c: Cluster, m: Message)
    requires LogInv(c) && m in c.net && m.VoteReq?
    ensures GoodStep(c, OnVoteReq(c, m), m.callee)
  {
    AtPeer(c, m.callee);
    AtMessage(c, m);
    VoteReqCore(c, m);
    VoteReqMoves(c, m);
  }

  lemma VoteReqServerInv(c: Cluster, m: Message)
    requires LogInv(c) && m in c.net && m.VoteReq?
    ensures var c' := OnVoteReq(c, m);
            ServerInv(CoreOf(c'), m.callee, c'.servers[m.callee],
                      CountedBy(c'.hist, c'.servers[m.callee].currentTerm, m.callee))
  {
    AtPeer(c, m.callee);
    AtMessage(c, m);
    VoteReqCore(c, m);
    VoteReqServer(c, m, CoreOf(OnVoteReq(c, m)));
  }

  lemma VoteReqKeepsLogInv(c: Cluster, m: Message)
    requires LogInv(c) && m in c.net && m.VoteReq?
    ensures LogInv(OnVoteReq(c, m))
    ensures Extends(CoreOf(c), CoreOf(OnVoteReq(c, m)))
  {
    VoteReqKeepsInv(c, m);
    VoteReqCore(c, m);
    VoteReqGood(c, m);
    VoteReqServerInv(c, m);
    GoodStepKeepsInv(c, OnVoteReq(c, m), m.callee);
  }

  // A step that changes no log and, unless the peer comes out a follower, nothing else of it.
  ghost predicate Quiet(s: Server, s': Server) {
    && s'.logs == s.logs && s.currentTerm <= s'.currentTerm && Plain(s')
    && (s'.identity == Follower || s' == s)
    && (s'.committedIndex == s.committedIndex || s'.committedIndex == 0)
  }

  lemma QuietCore(c: Cluster, c': Cluster, i: nat)
    requires Shape(c) && CoreInv(CoreOf(c)) && Moves(c, c', i) && Quiet(c.servers[i], c'.servers[i])
    requires WithCore(c'.hist, CoreOf(c)) == c'.hist
    ensures CoreInv(CoreOf(c')) && Extends(CoreOf(c), CoreOf(c'))
  {
    CoreAfterPut(c, c', i);
    var t := c'.servers[i].currentTerm;
    RaiseKeepsInv(CoreOf(c), i, t);
    assert CoreOf(c').logs == CoreOf(c).logs;
    assert CoreOf(c') == Raise(CoreOf(c), i, t);
  }

  lemma QuietServer(k: Core, k': Core, i: nat, s: Server, s': Server, q: set<nat>, q': set<nat>)
    requires ServerInv(k, i, s, q) && Quiet(s, s') && Extends(k, k') && k'.leaders == k.leaders
    requires s' == s ==> q' == q
    ensures ServerInv(k', i, s', q')
  {
    CommittedStands(k, k', s.logs, s.logs, s.committedIndex, s.currentTerm, s'.currentTerm);
  }

  lemma QuietKeepsLogInv(c: Cluster, c': Cluster, i: nat)
    requires LogInv(c) && ElectionInv(c') && Moves(c, c', i) && Quiet(c.servers[i], c'.servers[i])
    requires c'.hist == c.hist && NewMessagesOk(c, c')
    ensures LogInv(c')
    ensures Extends(CoreOf(c), CoreOf(c'))
  {
    QuietCore(c, c', i);
    AtPeer(c, i);
    var s, s' := c.servers[i], c'.servers[i];
    QuietServer(CoreOf(c), CoreOf(c'), i, s, s',
                CountedBy(c.hist, s.currentTerm, i), CountedBy(c.hist, s'.currentTerm, i));
    GoodStepKeepsInv(c, c', i);
  }

  lemma CrashKeepsLogInv(c: Cluster, i: nat)
    requires LogInv(c) && i < c.n
    ensures LogInv(Restart(c, i))
    ensures Extends(CoreOf(c), CoreOf(Restart(c, i)))
  {
    AtPeer(c, i);
    CrashKeepsInv(c, i);
    QuietKeepsLogInv(c, Restart(c, i), i);
  }

  // A reply that changes nothing but, perhaps, the caller's term.
  lemma UncountedKeepsLogInv(c: Cluster, m: Message)
    requires LogInv(c) && m in c.net && m.VoteRep? && !Counts(c, m)
    ensures LogInv(OnVoteRep(c, m))
    ensures Extends(CoreOf(c), CoreOf(OnVoteRep(c, m)))
  {
    AtPeer(c, m.caller);
    VoteRepKeepsInv(c, m);
    QuietKeepsLogInv(c, OnVoteRep(c, m), m.caller);
  }

  // A counted vote that does not decide the election.
  lemma CountedIs(c: Cluster, m: Message)
    requires Shape(c) && m in c.net && m.VoteRep? && Counts(c, m) && !Wins(c, m) && LeadersElected(c.hist)
    ensures var c', s := OnVoteRep(c, m), c.servers[m.caller];
            && CoreOf(c') == CoreOf(c)
            && Moves(c, c', m.caller) && Records(c.hist, c'.hist, m.caller)
            && c'.servers[m.caller] == s.(votes := s.votes + 1)
            && c'.net <= c.net && c'.hist.applied == c.hist.applied
            && CountedBy(c'.hist, s.currentTerm, m.caller) == CountedBy(c.hist, s.currentTerm, m.caller) + {m.callee}
  {
    CoreAfterPut(c, OnVoteRep(c, m), m.caller);
  }

  lemma CountedServer(k: Core, i: nat, s: Server, m: Message, q: set<nat>)
    requires ServerInv(k, i, s, q) && m.VoteRep? && MessageOk(k, m) && m.voteReply.granted
    requires m.vote.term == s.currentTerm && m.caller == i
    ensures ServerInv(k, i, s.(votes := s.votes + 1), q + {m.callee})
  {
  }

  lemma CountedServerAt(c: Cluster, m: Message)
    requires Shape(c) && m in c.net && m.VoteRep? && Counts(c, m) && !Wins(c, m) && LeadersElected(c.hist)
    requires m.vote.term == c.servers[m.caller].currentTerm && MessageOk(CoreOf(c), m)
    requires ServerInv(CoreOf(c), m.caller, c.servers[m.caller],
                       CountedBy(c.hist, c.servers[m.caller].currentTerm, m.caller))
    ensures var c' := OnVoteRep(c, m);
            ServerInv(CoreOf(c'), m.caller, c'.servers[m.caller],
                      CountedBy(c'.hist, c'.servers[m.caller].currentTerm, m.caller))
  {
    CountedIs(c, m);
    var s := c.servers[m.caller];
    CountedServer(CoreOf(c), m.caller, s, m, CountedBy(c.hist, s.currentTerm, m.caller));
  }

  lemma CountedServerInv(c: Cluster, m: Message)
    requires LogInv(c) && m in c.net && m.VoteRep? && Counts(c, m) && !Wins(c, m)
    ensures var c' := OnVoteRep(c, m);
            ServerInv(CoreOf(c'), m.caller, c'.servers[m.caller],
                      CountedBy(c'.hist, c'.servers[m.caller].currentTerm, m.caller))
  {
    AtPeer(c, m.caller);
    AtMessage(c, m);
    CountedServerAt(c, m);
  }

  lemma CountedKeepsLogInv(c: Cluster, m: Message)
    requires LogInv(c) && m in c.net && m.VoteRep? && Counts(c, m) && !Wins(c, m)
    ensures LogInv(OnVoteRep(c, m))
    ensures Extends(CoreOf(c), CoreOf(OnVoteRep(c, m)))
  {
    CountedIs(c, m);
    VoteRepKeepsInv(c, m);
    CountedServerInv(c, m);
    GoodStepKeepsInv(c, OnVoteRep(c, m), m.caller);
  }

  ghost function Voters(c: Cluster, m: Message): set<nat>
    requires m.VoteRep?
  {
    {m.caller} + (CountedBy(c.hist, m.vote.term, m.caller) + {m.callee})
  }

  lemma WinIs(c: Cluster, m: Message)
    requires Shape(c) && m in c.net && m.VoteRep? && Wins(c, m) && LeadersElected(c.hist)
    requires m.vote.term == c.servers[m.caller].currentTerm && m.vote.term !in c.hist.leaders
    requires (m.vote.term, m.caller) in c.hist.campaigns
    requires c.hist.campaigns[(m.vote.term, m.caller)] == c.servers[m.caller].logs
    ensures var c', i := OnVoteRep(c, m), m.caller;
            && CoreOf(c') == Elect(CoreOf(c), m.vote.term, i, Voters(c, m))
            && Moves(c, c', i) && Records(c.hist, c'.hist, i)
            && c'.servers[i] == HandleVoteReply(c.servers[i], m.voteReply)
            && c'.net <= c.net && c'.hist.applied == c.hist.applied
  {
    CoreAfterPut(c, OnVoteRep(c, m), m.caller);
  }

  lemma WinElectable(c: Cluster, m: Message)
    requires LogInv(c) && m in c.net && m.VoteRep? && Wins(c, m)
    ensures m.vote.term == c.servers[m.caller].currentTerm
    ensures Electable(CoreOf(c), m.vote.term, m.caller, Voters(c, m))
  {
    AtPeer(c, m.caller);
    AtMessage(c, m);
    WinKeepsElected(c, m);
    WinningVotes(c, m);
    var t, i := m.vote.term, m.caller;
    assert t !in c.hist.leaders;
    assert |Voters(c, m)| == 1 + c.servers[i].votes;
    assert CampaignsOk(CoreOf(c));
    assert CoreOf(c).campaigns[(t, i)][0].term < t;
  }

  lemma WinnerServer(k: Core, k': Core, i: nat, s: Server, reply: VoteReply, q: set<nat>, q': set<nat>)
    requires ServerInv(k, i, s, q) && Extends(k, k') && s.WellFormed() && s.n == |s.nextIndex|
    requires s.identity == Candidate && reply == VoteReply(s.currentTerm, true) && 2 * (s.votes + 1) > s.n
    requires s.currentTerm in k'.leaders && k'.leaders[s.currentTerm].id == i && k'.leaders[s.currentTerm].log == s.logs
    requires Stored(k', i, s.currentTerm, |s.logs| - 1)
    ensures ServerInv(k', i, HandleVoteReply(s, reply), q')
  {
    CommittedStands(k, k', s.logs, s.logs, s.committedIndex, s.currentTerm, s.currentTerm);
  }

  lemma WinGood(c: Cluster, m: Message)
    requires LogInv(c) && m in c.net && m.VoteRep? && Wins(c, m)
    ensures CoreInv(CoreOf(OnVoteRep(c, m))) && GoodStep(c, OnVoteRep(c, m), m.caller)
  {
    WinElectable(c, m);
    WinIs(c, m);
    ElectKeepsInv(CoreOf(c), m.vote.term, m.caller, Voters(c, m));
  }

  lemma WinServer(c: Cluster, m: Message)
    requires LogInv(c) && m in c.net && m.VoteRep? && Wins(c, m)
    ensures var c' := OnVoteRep(c, m);
            ServerInv(CoreOf(c'), m.caller, c'.servers[m.caller],
                      CountedBy(c'.hist, c'.servers[m.caller].currentTerm, m.caller))
  {
    var c' := OnVoteRep(c, m);
    WinElectable(c, m);
    WinIs(c, m);
    WinGood(c, m);
    AtPeer(c, m.caller);
    AtMessage(c, m);
    var s := c.servers[m.caller];
    WinnerServer(CoreOf(c), CoreOf(c'), m.caller, s, m.voteReply, CountedBy(c.hist, s.currentTerm, m.caller),
                 CountedBy(c'.hist, c'.servers[m.caller].currentTerm, m.caller));
  }

  lemma VoteRepKeepsLogInv(c: Cluster, m: Message)
    requires LogInv(c) && m in c.net && m.VoteRep?
    ensures LogInv(OnVoteRep(c, m))
    ensures Extends(CoreOf(c), CoreOf(OnVoteRep(c, m)))
  {
    if !Counts(c, m) {
      UncountedKeepsLogInv(c, m);
    } else if !Wins(c, m) {
      CountedKeepsLogInv(c, m);
    } else {
      VoteRepKeepsInv(c, m);
      WinGood(c, m);
      WinServer(c, m);
      GoodStepKeepsInv(c, OnVoteRep(c, m), m.caller);
    }
  }
}

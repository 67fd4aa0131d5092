/**
 Election safety, in every run: crashes, restarts, snapshots taken and installed at any time,
 and the InstallSnapshot handler that raises the term in memory without persisting it.
 */
module RaftElection {
  import opened RaftServer
  import opened RaftCore
  import opened RaftCluster

  // A step of peer s that casts no vote and counts none: the term may rise, which drops the
  // vote and the office, and what is on disk stays or becomes what is in memory.
  ghost predicate NoVote(s: Server, s': Server) {
    && s'.WellFormed() && s'.me == s.me && s'.n == s.n
    && s.currentTerm <= s'.currentTerm
    && (s.currentTerm == s'.currentTerm ==>
          s'.voteFor == s.voteFor && s'.votes == s.votes && s'.identity in {s.identity, Follower})
    && (s.currentTerm < s'.currentTerm ==> s'.voteFor == Unvote && s'.identity == Follower)
    && (|| (s'.disk.term == s.disk.term && s'.disk.voteFor == s.disk.voteFor)
        || (s'.disk.term == s'.currentTerm && s'.disk.voteFor == s'.voteFor))
  }

  lemma AppendNoVote(s: Server, args: AppendArgs)
    requires s.WellFormed()
    ensures HandleAppend(s, args).Done? ==> NoVote(s, HandleAppend(s, args).value.0)
  {
  }

  lemma AppendReplyNoVote(s: Server, j: nat, args: AppendArgs, reply: AppendReply)
    requires s.WellFormed() && j < s.n
    ensures var o := HandleAppendReply(s, j, args, reply); o.Done? ==> NoVote(s, o.value)
  {
  }

  lemma TakeSnapshotNoVote(s: Server, index: nat, data: string)
    requires s.WellFormed()
    ensures NoVote(s, TakeSnapshot(s, index, data))
  {
  }

  lemma HandleSnapshotNoVote(s: Server, args: SnapArgs)
    requires s.WellFormed()
    ensures NoVote(s, HandleSnapshot(s, args).0)
  {
  }

  lemma SnapshotReplyNoVote(s: Server, j: nat, args: SnapArgs, reply: SnapReply)
    requires s.WellFormed() && j < s.n
    ensures NoVote(s, HandleSnapshotReply(s, j, args, reply))
  {
  }

  lemma ApplyNoVote(s: Server)
    requires s.WellFormed()
    ensures ApplyRound(s).Done? ==> NoVote(s, ApplyRound(s).value.0)
  {
  }

  // ---------------------------------------------------------------------------------------
  // The invariant
  // ---------------------------------------------------------------------------------------

  ghost predicate VotedFor(h: History, v: nat, t: nat, c: nat) {
    (v, t) in h.voted && h.voted[(v, t)] == c
  }

  // What peer i remembers of its votes, in memory and on disk.
  ghost predicate VoterOk(i: nat, s: Server, h: History) {
    && s.disk.term <= s.currentTerm
    && (s.disk.term == s.currentTerm ==> s.voteFor == s.disk.voteFor)
    && (s.disk.term < s.currentTerm ==> s.voteFor == Unvote && s.identity == Follower)
    && (forall t: nat :: (i, t) in h.voted ==>
          t <= s.disk.term && (t == s.disk.term ==> s.disk.voteFor == h.voted[(i, t)]))
  }

  ghost predicate OfficeOk(i: nat, s: Server, h: History) {
    && (s.identity != Follower ==> VotedFor(h, i, s.currentTerm, i))
    && (s.identity == Leader ==> (s.currentTerm, i) in h.elected)
    && (s.identity == Candidate ==>
          && (s.currentTerm, i) !in h.elected
          && (s.currentTerm, i) in h.counted
          && var q := h.counted[(s.currentTerm, i)];
             && i !in q && s.votes == 1 + |q|
             && forall v :: v in q ==> v < s.n && VotedFor(h, v, s.currentTerm, i))
  }

  ghost predicate ElectedOk(n: nat, h: History) {
    forall t: nat, i: nat :: (t, i) in h.elected ==>
      && t in h.leaders && h.leaders[t].id == i && i in h.leaders[t].voters
      && Majority(h.leaders[t].voters, n)
      && forall v :: v in h.leaders[t].voters ==> VotedFor(h, v, t, i)
  }

  // A vote call on its way, out or back: nobody counted it, and a granted one was cast.
  ghost predicate CallOk(m: Message, h: History) {
    m.VoteReq? || m.VoteRep? ==>
      && m.vote.candidateId == m.caller
      && VotedFor(h, m.caller, m.vote.term, m.caller)
      && (m.vote.term, m.caller) in h.counted
      && m.callee !in h.counted[(m.vote.term, m.caller)]
      && (m.VoteRep? && m.voteReply.granted ==>
            m.voteReply.term == m.vote.term && VotedFor(h, m.callee, m.vote.term, m.caller))
  }

  ghost predicate SameCall(m: Message, m': Message) {
    && (m.VoteReq? || m.VoteRep?) && (m'.VoteReq? || m'.VoteRep?)
    && m.caller == m'.caller && m.callee == m'.callee && m.vote.term == m'.vote.term
  }

  ghost predicate CallsOk(c: Cluster) {
    && (forall m :: m in c.net ==> CallOk(m, c.hist))
    && (forall m, m' :: m in c.net && m' in c.net && SameCall(m, m') ==> m == m')
  }

  ghost predicate ElectionInv(c: Cluster) {
    && Shape(c)
    && (forall i :: 0 <= i < c.n ==> VoterOk(i, c.servers[i], c.hist) && OfficeOk(i, c.servers[i], c.hist))
    && ElectedOk(c.n, c.hist)
    && CallsOk(c)
  }

  // ---------------------------------------------------------------------------------------
  // Steps that cast and count no votes
  // ---------------------------------------------------------------------------------------

  // The part of the history elections are about.
  ghost predicate SameElections(h: History, h': History) {
    && h'.voted == h.voted && h'.counted == h.counted && h'.elected == h.elected
    && h'.leaders.Keys == h.leaders.Keys
    && forall t :: t in h.leaders ==> h'.leaders[t].id == h.leaders[t].id && h'.leaders[t].voters == h.leaders[t].voters
  }

  ghost predicate SameCalls(c: Cluster, c': Cluster) {
    && (forall m :: m in c'.net ==> m in c.net || !(m.VoteReq? || m.VoteRep?))
    && (forall m :: m in c'.net ==> m.caller < c.n && m.callee < c.n && m.caller != m.callee)
  }

  // Peer s died, possibly after such a step, and came back with what it had persisted.
  ghost predicate Restarted(s: Server, s': Server) {
    exists mid :: NoVote(s, mid) && s' == Boot(s.n, s.me, mid.disk)
  }

  lemma RestartKeepsVoter(i: nat, s: Server, s': Server, h: History)
    requires VoterOk(i, s, h) && s.me == i && Restarted(s, s')
    ensures VoterOk(i, s', h) && OfficeOk(i, s', h)
    ensures s'.WellFormed() && s'.me == s.me && s'.n == s.n
  {
  }

  lemma OtherStepKeepsInv(c: Cluster, c': Cluster, i: nat)
    requires ElectionInv(c) && i < c.n && c'.n == c.n
    requires |c'.servers| == c.n && |c'.epochs| == c.n
    requires c'.servers == c.servers[i := c'.servers[i]]
    requires NoVote(c.servers[i], c'.servers[i]) || Restarted(c.servers[i], c'.servers[i])
    requires SameElections(c.hist, c'.hist) && SameCalls(c, c')
    ensures ElectionInv(c')
  {
    if Restarted(c.servers[i], c'.servers[i]) {
      RestartKeepsVoter(i, c.servers[i], c'.servers[i], c.hist);
    }
  }

  lemma CrashKeepsInv(c: Cluster, i: nat)
    requires ElectionInv(c) && i < c.n
    ensures ElectionInv(Restart(c, i))
  {
    assert NoVote(c.servers[i], c.servers[i]);
    OtherStepKeepsInv(c, Restart(c, i), i);
  }

  lemma AppendReqKeepsInv(c: Cluster, m: Message)
    requires ElectionInv(c) && m in c.net && m.AppendReq?
    ensures ElectionInv(OnAppendReq(c, m))
  {
    var s := c.servers[m.callee];
    if HandleAppend(s, m.append).Panic? {
      assert NoVote(s, FollowLeader(s, m.append.term).Persist());
    } else {
      AppendNoVote(s, m.append);
    }
    OtherStepKeepsInv(c, OnAppendReq(c, m), m.callee);
  }

  lemma AppendRepKeepsInv(c: Cluster, m: Message)
    requires ElectionInv(c) && m in c.net && m.AppendRep?
    ensures ElectionInv(OnAppendRep(c, m))
  {
    if m.epoch == c.epochs[m.caller] {
      var s := c.servers[m.caller];
      if HandleAppendReply(s, m.callee, m.append, m.appendReply).Panic? {
        CrashKeepsInv(c, m.caller);
      } else {
        AppendReplyNoVote(s, m.callee, m.append, m.appendReply);
        OtherStepKeepsInv(c, OnAppendRep(c, m), m.caller);
      }
    }
  }

  lemma LeaderStepsKeepInv(c: Cluster, step: Step)
    requires ElectionInv(c) && Enabled(c, step) && (step.Start? || step.Send?)
    ensures ElectionInv(Next(c, step))
  {
    match step
    case Start(i, command) => OtherStepKeepsInv(c, OnStart(c, i, command), i);
    case Send(i, j) =>
      if HeartBeatTo(c.servers[i], j).Panic? {
        CrashKeepsInv(c, i);
      } else {
        OtherStepKeepsInv(c, OnSend(c, i, j), i);
      }
  }

  lemma SnapshotStepsKeepInv(c: Cluster, step: Step)
    requires ElectionInv(c) && Enabled(c, step) && (step.Snap? || step.DeliverSnapReq? || step.DeliverSnapRep?)
    ensures ElectionInv(Next(c, step))
  {
    match step
    case Snap(i, index, data) =>
      TakeSnapshotNoVote(c.servers[i], index, data);
      OtherStepKeepsInv(c, Next(c, step), i);
    case DeliverSnapReq(m) =>
      HandleSnapshotNoVote(c.servers[m.callee], m.install);
      OtherStepKeepsInv(c, OnSnapReq(c, m), m.callee);
    case DeliverSnapRep(m) =>
      SnapshotReplyNoVote(c.servers[m.caller], m.callee, m.install, m.installReply);
      OtherStepKeepsInv(c, OnSnapRep(c, m), m.caller);
  }

  lemma ApplyKeepsInv(c: Cluster, i: nat)
    requires ElectionInv(c) && i < c.n
    ensures ElectionInv(OnApply(c, i))
  {
    if ApplyRound(c.servers[i]).Panic? {
      CrashKeepsInv(c, i);
    } else {
      ApplyNoVote(c.servers[i]);
      OtherStepKeepsInv(c, OnApply(c, i), i);
    }
  }

  // ---------------------------------------------------------------------------------------
  // Steps of an election
  // ---------------------------------------------------------------------------------------

  // No vote is ever revoked.
  ghost predicate VotesStand(h: History, h': History) {
    forall x :: x in h.voted ==> x in h'.voted && h'.voted[x] == h.voted[x]
  }

  lemma OfficeStands(i: nat, s: Server, h: History, h': History)
    requires OfficeOk(i, s, h) && VotesStand(h, h')
    requires h.elected <= h'.elected && ((s.currentTerm, i) in h'.elected ==> (s.currentTerm, i) in h.elected)
    requires s.identity == Candidate ==>
               (s.currentTerm, i) in h'.counted && h'.counted[(s.currentTerm, i)] == h.counted[(s.currentTerm, i)]
    ensures OfficeOk(i, s, h')
  {
  }

  lemma ElectedStands(n: nat, h: History, h': History)
    requires ElectedOk(n, h) && VotesStand(h, h')
    requires h'.elected == h.elected && h'.leaders == h.leaders
    ensures ElectedOk(n, h')
  {
  }

  lemma CallStands(m: Message, h: History, h': History)
    requires CallOk(m, h) && VotesStand(h, h')
    requires m.VoteReq? || m.VoteRep? ==>
               (m.vote.term, m.caller) in h.counted && (m.vote.term, m.caller) in h'.counted
               && h'.counted[(m.vote.term, m.caller)] == h.counted[(m.vote.term, m.caller)]
    ensures CallOk(m, h')
  {
  }

  // Nobody has voted in, and so nobody was elected for, a term above every term on i's disk.
  lemma NewTermIsNew(c: Cluster, i: nat, u: nat)
    requires ElectionInv(c) && i < c.n && c.servers[i].disk.term < u
    ensures (i, u) !in c.hist.voted && (u, i) !in c.hist.elected
  {
    assert VoterOk(i, c.servers[i], c.hist);
  }

  lemma TimeoutKeepsServers(c: Cluster, i: nat)
    requires ElectionInv(c) && i < c.n
    ensures var c' := OnTimeout(c, i);
            forall j :: 0 <= j < c.n ==> VoterOk(j, c'.servers[j], c'.hist) && OfficeOk(j, c'.servers[j], c'.hist)
  {
    var c' := OnTimeout(c, i);
    NewTermIsNew(c, i, c.servers[i].currentTerm + 1);
    forall j | 0 <= j < c.n && j != i
      ensures VoterOk(j, c'.servers[j], c'.hist) && OfficeOk(j, c'.servers[j], c'.hist)
    {
      OfficeStands(j, c.servers[j], c.hist, c'.hist);
    }
  }

  lemma TimeoutKeepsCalls(c: Cluster, i: nat)
    requires ElectionInv(c) && i < c.n
    ensures CallsOk(OnTimeout(c, i))
  {
    var c' := OnTimeout(c, i);
    var u := c.servers[i].currentTerm + 1;
    NewTermIsNew(c, i, u);
    forall m | m in c'.net ensures CallOk(m, c'.hist) {
      if m in c.net {
        CallStands(m, c.hist, c'.hist);
      }
    }
    forall m, m' | m in c'.net && m' in c'.net && SameCall(m, m') ensures m == m' {
      assert m in c.net ==> CallOk(m, c.hist);
      assert m' in c.net ==> CallOk(m', c.hist);
    }
  }

  lemma TimeoutKeepsInv(c: Cluster, i: nat)
    requires ElectionInv(c) && i < c.n
    ensures ElectionInv(OnTimeout(c, i))
  {
    var c' := OnTimeout(c, i);
    NewTermIsNew(c, i, c.servers[i].currentTerm + 1);
    TimeoutKeepsServers(c, i);
    TimeoutKeepsCalls(c, i);
    ElectedStands(c.n, c.hist, c'.hist);
  }

  // A vote granted again goes to the same candidate.
  lemma GrantStands(c: Cluster, m: Message)
    requires ElectionInv(c) && m in c.net && m.VoteReq?
    ensures VotesStand(c.hist, OnVoteReq(c, m).hist)
    ensures HandleVote(c.servers[m.callee], m.vote).1.granted ==>
              VotedFor(OnVoteReq(c, m).hist, m.callee, m.vote.term, m.caller)
  {
    assert VoterOk(m.callee, c.servers[m.callee], c.hist);
    assert CallOk(m, c.hist);
  }

  lemma VoteReqKeepsServers(c: Cluster, m: Message)
    requires ElectionInv(c) && m in c.net && m.VoteReq?
    ensures var c' := OnVoteReq(c, m);
            forall j :: 0 <= j < c.n ==> VoterOk(j, c'.servers[j], c'.hist) && OfficeOk(j, c'.servers[j], c'.hist)
  {
    var c' := OnVoteReq(c, m);
    GrantStands(c, m);
    assert CallOk(m, c.hist);
    forall j | 0 <= j < c.n && j != m.callee
      ensures VoterOk(j, c'.servers[j], c'.hist) && OfficeOk(j, c'.servers[j], c'.hist)
    {
      OfficeStands(j, c.servers[j], c.hist, c'.hist);
    }
    OfficeStands(m.callee, c.servers[m.callee], c.hist, c'.hist);
  }

  lemma VoteReqKeepsCalls(c: Cluster, m: Message)
    requires ElectionInv(c) && m in c.net && m.VoteReq?
    ensures CallsOk(OnVoteReq(c, m))
  {
    var c' := OnVoteReq(c, m);
    GrantStands(c, m);
    assert CallOk(m, c.hist);
    forall x | x in c.net ensures CallOk(x, c'.hist) {
      CallStands(x, c.hist, c'.hist);
    }
  }

  lemma VoteReqKeepsInv(c: Cluster, m: Message)
    requires ElectionInv(c) && m in c.net && m.VoteReq?
    ensures ElectionInv(OnVoteReq(c, m))
  {
    GrantStands(c, m);
    VoteReqKeepsServers(c, m);
    VoteReqKeepsCalls(c, m);
    ElectedStands(c.n, c.hist, OnVoteReq(c, m).hist);
  }

  // The reply is counted by the caller's running election.
  ghost predicate Counts(c: Cluster, m: Message)
    requires Shape(c) && m in c.net && m.VoteRep?
  {
    && m.epoch == c.epochs[m.caller]
    && m.voteReply.granted
    && m.voteReply.term == c.servers[m.caller].currentTerm
  }

  lemma CountedKeepsCalls(c: Cluster, m: Message)
    requires ElectionInv(c) && m in c.net && m.VoteRep? && Counts(c, m)
    ensures CallsOk(OnVoteRep(c, m))
  {
    var c' := OnVoteRep(c, m);
    assert CallOk(m, c.hist);
    forall x | x in c'.net ensures CallOk(x, c'.hist) {
      assert CallOk(x, c.hist);
      assert !SameCall(x, m);
    }
  }

  // The votes behind a majority: those counted, and the candidate's own.
  lemma WinningVotes(c: Cluster, m: Message)
    requires ElectionInv(c) && m in c.net && m.VoteRep? && Counts(c, m)
    requires c.servers[m.caller].identity == Candidate
    ensures var t := m.vote.term;
            var q := CountedBy(c.hist, t, m.caller) + {m.callee};
            && t == c.servers[m.caller].currentTerm
            && m.caller !in q && |q| == c.servers[m.caller].votes
            && (forall v :: v in {m.caller} + q ==> v < c.n && VotedFor(c.hist, v, t, m.caller))
  {
    assert CallOk(m, c.hist);
    assert OfficeOk(m.caller, c.servers[m.caller], c.hist);
  }

  // Nobody else can have been elected for the term.
  lemma WinnerIsOnly(c: Cluster, t: nat, i: nat, voters: set<nat>, y: nat)
    requires ElectionInv(c) && Majority(voters, c.n)
    requires forall v :: v in voters ==> VotedFor(c.hist, v, t, i)
    requires (t, y) in c.hist.elected
    ensures y == i
  {
    var v := QuorumsMeet(voters, c.hist.leaders[t].voters, c.n);
  }

  ghost predicate Wins(c: Cluster, m: Message)
    requires Shape(c) && m in c.net && m.VoteRep?
  {
    && Counts(c, m)
    && c.servers[m.caller].identity == Candidate
    && 2 * (c.servers[m.caller].votes + 1) > c.n
  }

  lemma NobodyElected(c: Cluster, m: Message)
    requires ElectionInv(c) && m in c.net && m.VoteRep? && Wins(c, m)
    ensures forall y: nat :: (m.vote.term, y) !in c.hist.elected
  {
    var t := m.vote.term;
    WinningVotes(c, m);
    var q := CountedBy(c.hist, t, m.caller) + {m.callee};
    assert |{m.caller} + q| == 1 + |q|;
    forall y: nat | (t, y) in c.hist.elected ensures false {
      WinnerIsOnly(c, t, m.caller, {m.caller} + q, y);
    }
  }

  // The history after the winning vote.
  lemma WinHistory(c: Cluster, m: Message)
    requires Shape(c) && m in c.net && m.VoteRep? && Wins(c, m) && m.vote.term == c.servers[m.caller].currentTerm
    ensures var h, h', t, i := c.hist, OnVoteRep(c, m).hist, m.vote.term, m.caller;
            && h'.voted == h.voted && h'.elected == h.elected + {(t, i)}
            && h'.leaders.Keys == h.leaders.Keys + {t}
            && (forall u :: u in h.leaders && u != t ==> h'.leaders[u] == h.leaders[u])
            && h'.leaders[t].id == i && h'.leaders[t].voters == {i} + (CountedBy(h, t, i) + {m.callee})
  {
  }

  lemma NewElectedOk(n: nat, h: History, h': History, t: nat, i: nat, voters: set<nat>)
    requires ElectedOk(n, h) && (forall y: nat :: (t, y) !in h.elected)
    requires h'.voted == h.voted && h'.elected == h.elected + {(t, i)}
    requires h'.leaders.Keys == h.leaders.Keys + {t} && forall u :: u in h.leaders && u != t ==>
             h'.leaders[u] == h.leaders[u]
    requires h'.leaders[t].id == i && h'.leaders[t].voters == voters
    requires i in voters && Majority(voters, n) && forall v :: v in voters ==> VotedFor(h, v, t, i)
    ensures ElectedOk(n, h')
  {
  }

  lemma WinKeepsElected(c: Cluster, m: Message)
    requires ElectionInv(c) && m in c.net && m.VoteRep? && Wins(c, m)
    ensures ElectedOk(c.n, OnVoteRep(c, m).hist)
    ensures forall y: nat :: (m.vote.term, y) !in c.hist.elected
  {
    var t := m.vote.term;
    NobodyElected(c, m);
    WinningVotes(c, m);
    WinHistory(c, m);
    var q := CountedBy(c.hist, t, m.caller) + {m.callee};
    assert |{m.caller} + q| == 1 + |q|;
    NewElectedOk(c.n, c.hist, OnVoteRep(c, m).hist, t, m.caller, {m.caller} + q);
  }

  lemma CountedKeepsCaller(c: Cluster, m: Message)
    requires ElectionInv(c) && m in c.net && m.VoteRep? && Counts(c, m)
    ensures var c', i := OnVoteRep(c, m), m.caller;
            VoterOk(i, c'.servers[i], c'.hist) && OfficeOk(i, c'.servers[i], c'.hist)
  {
    assert VoterOk(m.caller, c.servers[m.caller], c.hist) && OfficeOk(m.caller, c.servers[m.caller], c.hist);
    if c.servers[m.caller].identity == Candidate {
      WinningVotes(c, m);
    }
  }

  lemma CountedKeepsServers(c: Cluster, m: Message)
    requires ElectionInv(c) && m in c.net && m.VoteRep? && Counts(c, m)
    ensures var c' := OnVoteRep(c, m);
            forall j :: 0 <= j < c.n ==> VoterOk(j, c'.servers[j], c'.hist) && OfficeOk(j, c'.servers[j], c'.hist)
  {
    var c' := OnVoteRep(c, m);
    CountedKeepsCaller(c, m);
    forall j | 0 <= j < c.n && j != m.caller
      ensures VoterOk(j, c'.servers[j], c'.hist) && OfficeOk(j, c'.servers[j], c'.hist)
    {
      OfficeStands(j, c.servers[j], c.hist, c'.hist);
    }
  }

  lemma CountedShape(c: Cluster, m: Message)
    requires Shape(c) && m in c.net && m.VoteRep? && Counts(c, m)
    ensures OnVoteRep(c, m).n == c.n && Shape(OnVoteRep(c, m))
  {
  }

  lemma CountedKeepsInv(c: Cluster, m: Message)
    requires ElectionInv(c) && m in c.net && m.VoteRep? && Counts(c, m)
    ensures ElectionInv(OnVoteRep(c, m))
  {
    CountedShape(c, m);
    CountedKeepsCalls(c, m);
    CountedKeepsServers(c, m);
    if Wins(c, m) {
      WinKeepsElected(c, m);
    } else {
      ElectedStands(c.n, c.hist, OnVoteRep(c, m).hist);
    }
  }

  lemma VoteRepKeepsInv(c: Cluster, m: Message)
    requires ElectionInv(c) && m in c.net && m.VoteRep?
    ensures ElectionInv(OnVoteRep(c, m))
  {
    if Counts(c, m) {
      CountedKeepsInv(c, m);
    } else {
      OtherStepKeepsInv(c, OnVoteRep(c, m), m.caller);
    }
  }

  // ---------------------------------------------------------------------------------------
  // Every run
  // ---------------------------------------------------------------------------------------

  lemma StepKeepsElectionInv(c: Cluster, step: Step)
    requires ElectionInv(c) && Enabled(c, step)
    ensures ElectionInv(Next(c, step))
  {
    match step
    case Timeout(i) => TimeoutKeepsInv(c, i);
    case DeliverVoteReq(m) => VoteReqKeepsInv(c, m);
    case DeliverVoteRep(m) => VoteRepKeepsInv(c, m);
    case Start(i, command) => LeaderStepsKeepInv(c, step);
    case Send(i, j) => LeaderStepsKeepInv(c, step);
    case DeliverAppendReq(m) => AppendReqKeepsInv(c, m);
    case DeliverAppendRep(m) => AppendRepKeepsInv(c, m);
    case Snap(i, index, data) => SnapshotStepsKeepInv(c, step);
    case DeliverSnapReq(m) => SnapshotStepsKeepInv(c, step);
    case DeliverSnapRep(m) => SnapshotStepsKeepInv(c, step);
    case Apply(i) => ApplyKeepsInv(c, i);
    case Crash(i) => CrashKeepsInv(c, i);
  }

  lemma {:induction false} RunKeepsElectionInv(n: nat, run: seq<Cluster>, steps: seq<Step>, x: nat)
    requires IsRun(n, run, steps) && x < |run|
    ensures ElectionInv(run[x])
  {
    if x > 0 {
      RunKeepsElectionInv(n, run, steps, x - 1);
      StepKeepsElectionInv(run[x - 1], steps[x - 1]);
    }
  }

  lemma ElectedStays(c: Cluster, step: Step)
    requires Shape(c) && Enabled(c, step)
    ensures c.hist.elected <= Next(c, step).hist.elected
  {
    match step
    case Timeout(i) =>
    case DeliverVoteReq(m) => assert OnVoteReq(c, m).hist.elected == c.hist.elected;
    case DeliverVoteRep(m) => assert c.hist.elected <= OnVoteRep(c, m).hist.elected;
    case Start(i, command) => assert OnStart(c, i, command).hist.elected == c.hist.elected;
    case Send(i, j) => assert OnSend(c, i, j).hist.elected == c.hist.elected;
    case DeliverAppendReq(m) => assert OnAppendReq(c, m).hist.elected == c.hist.elected;
    case DeliverAppendRep(m) => assert OnAppendRep(c, m).hist.elected == c.hist.elected;
    case Snap(i, index, data) =>
    case DeliverSnapReq(m) =>
    case DeliverSnapRep(m) =>
    case Apply(i) => assert OnApply(c, i).hist.elected == c.hist.elected;
    case Crash(i) =>
  }

  lemma ElectedForever(n: nat, run: seq<Cluster>, steps: seq<Step>, x: nat, y: nat)
    requires IsRun(n, run, steps) && x <= y < |run|
    ensures run[x].hist.elected <= run[y].hist.elected
  {
    var sets := seq(|run|, z requires 0 <= z < |run| => run[z].hist.elected);
    forall z | 0 <= z < |sets| - 1 ensures sets[z] <= sets[z + 1] {
      ElectedStays(run[z], steps[z]);
    }
    ChainGrows(sets, x, y);
  }

  // At most one peer is ever leader of a given term.
  lemma ElectionSafety(n: nat, run: seq<Cluster>, steps: seq<Step>, x: nat, y: nat, i: nat, j: nat)
    requires IsRun(n, run, steps) && x < |run| && y < |run|
    requires i < |run[x].servers| && j < |run[y].servers|
    requires run[x].servers[i].identity == Leader && run[y].servers[j].identity == Leader
    requires run[x].servers[i].currentTerm == run[y].servers[j].currentTerm
    ensures i == j
  {
    var z := if x <= y then y else x;
    RunKeepsElectionInv(n, run, steps, x);
    RunKeepsElectionInv(n, run, steps, y);
    ElectedForever(n, run, steps, x, z);
    ElectedForever(n, run, steps, y, z);
    var t := run[x].servers[i].currentTerm;
    assert OfficeOk(i, run[x].servers[i], run[x].hist);
    assert OfficeOk(j, run[y].servers[j], run[y].hist);
    assert ElectedOk(run[z].n, run[z].hist);
    assert (t, i) in run[z].hist.elected && (t, j) in run[z].hist.elected;
  }

  lemma OnePeerStep(c: Cluster, step: Step)
    requires Shape(c) && c.n == 1 && c.net == {} && c.servers[0].identity != Leader && Enabled(c, step)
    ensures var d := Next(c, step); d.n == 1 && d.net == {} && |d.servers| == 1 && d.servers[0].identity != Leader
  {
    match step
    case Timeout(i) => assert VoteReqs(c, i, VoteRequest(Campaign(c.servers[i]))) == {};
    case Snap(i, index, data) => TakeSnapshotNoVote(c.servers[i], index, data);
    case Apply(i) => ApplyNoVote(c.servers[i]);
    case _ =>
  }

  // A peer on its own never becomes leader: votes are counted only when a reply comes back.
  lemma {:induction false} OnePeerNeverLeads(run: seq<Cluster>, steps: seq<Step>, x: nat)
    requires IsRun(1, run, steps) && x < |run|
    ensures run[x].n == 1 && run[x].net == {} && |run[x].servers| == 1 && run[x].servers[0].identity != Leader
  {
    if x > 0 {
      OnePeerNeverLeads(run, steps, x - 1);
      OnePeerStep(run[x - 1], steps[x - 1]);
    }
  }
}

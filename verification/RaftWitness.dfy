/**
 Runs of the Raft cluster that exist, built one step at a time, and with them that exactly the
 clusters of two peers or more can elect a leader.
 */
module RaftWitness {
  import opened RaftServer
  import opened RaftCluster
  import opened RaftElection
  import opened RaftTheorems

  // ---------------------------------------------------------------------------------------
  // One step at a time
  // ---------------------------------------------------------------------------------------

  datatype Path = Path(run: seq<Cluster>, steps: seq<Step>)

  // A run that has come to c.
  ghost predicate Reaches(n: nat, p: Path, c: Cluster) {
    IsRun(n, p.run, p.steps) && p.run[|p.steps|] == c && ElectionInv(c)
  }

  function Then(p: Path, step: Step, d: Cluster): Path {
    Path(p.run + [d], p.steps + [step])
  }

  function First(n: nat): Path {
    Path([Init(n)], [])
  }

  lemma Beginning(n: nat)
    ensures Reaches(n, First(n), Init(n))
  {
    RunKeepsElectionInv(n, [Init(n)], [], 0);
  }

  lemma Extend(n: nat, p: Path, c: Cluster, step: Step)
    requires Reaches(n, p, c) && Enabled(c, step)
    ensures Reaches(n, Then(p, step, Next(c, step)), Next(c, step))
  {
    var run, steps := p.run, p.steps;
    var run', steps' := run + [Next(c, step)], steps + [step];
    forall x | 0 <= x < |steps'|
      ensures Shape(run'[x]) && Enabled(run'[x], steps'[x]) && run'[x + 1] == Next(run'[x], steps'[x])
    {
      if x < |steps| {
        assert run'[x] == run[x] && run'[x + 1] == run[x + 1] && steps'[x] == steps[x];
      }
    }
    StepKeepsElectionInv(c, step);
  }

  // Only peer i changes, and no message is lost but perhaps those in `but`.
  ghost predicate Moved(c: Cluster, d: Cluster, i: nat, s: Server, but: set<Message>) {
    && i < |c.servers| && d.n == c.n && d.servers == c.servers[i := s] && d.epochs == c.epochs && c.net - but <= d.net
  }

  // What each step used below does, as a longer run.

  lemma DoTimeout(n: nat, p: Path, c: Cluster, i: nat) returns (d: Cluster)
    requires Reaches(n, p, c) && i < c.n && c.servers[i].identity != Leader
    ensures Reaches(n, Then(p, Timeout(i), d), d) && Moved(c, d, i, Campaign(c.servers[i]), {})
    ensures forall j: nat :: j < c.n && j != i ==>
            VoteReq(i, j, c.epochs[i], VoteRequest(Campaign(c.servers[i]))) in d.net
  {
    Extend(n, p, c, Timeout(i));
    d := Next(c, Timeout(i));
  }

  lemma DoVoteReq(n: nat, p: Path, c: Cluster, m: Message) returns (d: Cluster)
    requires Reaches(n, p, c) && m in c.net && m.VoteReq?
    ensures Reaches(n, Then(p, DeliverVoteReq(m), d), d)
    ensures var r := HandleVote(c.servers[m.callee], m.vote);
            Moved(c, d, m.callee, r.0, {m}) && VoteRep(m.caller, m.callee, m.epoch, m.vote, r.1) in d.net
  {
    Extend(n, p, c, DeliverVoteReq(m));
    d := Next(c, DeliverVoteReq(m));
  }

  lemma DoVoteRep(n: nat, p: Path, c: Cluster, m: Message) returns (d: Cluster)
    requires Reaches(n, p, c) && m in c.net && m.VoteRep? && m.epoch == c.epochs[m.caller]
    ensures Reaches(n, Then(p, DeliverVoteRep(m), d), d)
    ensures Moved(c, d, m.caller, HandleVoteReply(c.servers[m.caller], m.voteReply), {m})
  {
    Extend(n, p, c, DeliverVoteRep(m));
    d := Next(c, DeliverVoteRep(m));
  }

  lemma DoStart(n: nat, p: Path, c: Cluster, i: nat, command: Command) returns (d: Cluster)
    requires Reaches(n, p, c) && i < c.n && c.servers[i].identity == Leader
    ensures Reaches(n, Then(p, Start(i, command), d), d)
    ensures Moved(c, d, i, StartCommand(c.servers[i], command), {})
  {
    Extend(n, p, c, Start(i, command));
    d := Next(c, Start(i, command));
  }

  lemma DoSend(n: nat, p: Path, c: Cluster, i: nat, j: nat, a: AppendArgs) returns (d: Cluster)
    requires Reaches(n, p, c) && i < c.n && j < c.n && i != j && c.servers[i].identity == Leader
    requires HeartBeatTo(c.servers[i], j) == Done(SendAppend(a))
    ensures Reaches(n, Then(p, Send(i, j), d), d)
    ensures Moved(c, d, i, c.servers[i], {}) && AppendReq(i, j, c.epochs[i], a) in d.net
  {
    Extend(n, p, c, Send(i, j));
    d := Next(c, Send(i, j));
  }

  lemma DoAppendReq(n: nat, p: Path, c: Cluster, m: Message, s: Server, r: AppendReply)
    returns (d: Cluster)
    requires Reaches(n, p, c) && m in c.net && m.AppendReq?
    requires HandleAppend(c.servers[m.callee], m.append) == Done((s, r))
    ensures Reaches(n, Then(p, DeliverAppendReq(m), d), d)
    ensures Moved(c, d, m.callee, s, {}) && AppendRep(m.caller, m.callee, m.epoch, m.append, r) in d.net
  {
    Extend(n, p, c, DeliverAppendReq(m));
    d := Next(c, DeliverAppendReq(m));
  }

  lemma DoAppendRep(n: nat, p: Path, c: Cluster, m: Message, s: Server) returns (d: Cluster)
    requires Reaches(n, p, c) && m in c.net && m.AppendRep? && m.epoch == c.epochs[m.caller]
    requires HandleAppendReply(c.servers[m.caller], m.callee, m.append, m.appendReply) == Done(s)
    ensures Reaches(n, Then(p, DeliverAppendRep(m), d), d) && Moved(c, d, m.caller, s, {})
  {
    Extend(n, p, c, DeliverAppendRep(m));
    d := Next(c, DeliverAppendRep(m));
  }

  lemma DoSnap(n: nat, p: Path, c: Cluster, i: nat, index: nat, data: string) returns (d: Cluster)
    requires Reaches(n, p, c) && i < c.n
    ensures Reaches(n, Then(p, Snap(i, index, data), d), d)
    ensures Moved(c, d, i, TakeSnapshot(c.servers[i], index, data), {})
  {
    Extend(n, p, c, Snap(i, index, data));
    d := Next(c, Snap(i, index, data));
  }

  lemma DoSendSnap(n: nat, p: Path, c: Cluster, i: nat, j: nat, a: SnapArgs) returns (d: Cluster)
    requires Reaches(n, p, c) && i < c.n && j < c.n && i != j && c.servers[i].identity == Leader
    requires HeartBeatTo(c.servers[i], j) == Done(SendSnapshot(a))
    ensures Reaches(n, Then(p, Send(i, j), d), d)
    ensures Moved(c, d, i, c.servers[i], {}) && SnapReq(i, j, c.epochs[i], a) in d.net
  {
    Extend(n, p, c, Send(i, j));
    d := Next(c, Send(i, j));
  }

  lemma DoSnapReq(n: nat, p: Path, c: Cluster, m: Message) returns (d: Cluster)
    requires Reaches(n, p, c) && m in c.net && m.SnapReq?
    ensures Reaches(n, Then(p, DeliverSnapReq(m), d), d)
    ensures Moved(c, d, m.callee, HandleSnapshot(c.servers[m.callee], m.install).0, {})
  {
    Extend(n, p, c, DeliverSnapReq(m));
    d := Next(c, DeliverSnapReq(m));
  }

  lemma DoApply(n: nat, p: Path, c: Cluster, i: nat, s: Server, msgs: seq<ApplyMsg>)
    returns (d: Cluster)
    requires Reaches(n, p, c) && i < c.n && ApplyReady(c.servers[i])
    requires ApplyRound(c.servers[i]) == Done((s, msgs))
    ensures Reaches(n, Then(p, Apply(i), d), d) && Moved(c, d, i, s, {})
    ensures forall index, command :: CommandMsg(index, command) in msgs ==> Delivers(c, Apply(i), i, index, command)
  {
    Extend(n, p, c, Apply(i));
    d := Next(c, Apply(i));
  }

  // ---------------------------------------------------------------------------------------
  // Every cluster of two peers or more can elect a leader
  // ---------------------------------------------------------------------------------------

  // Peer 0 is a candidate of term 1 with the votes of the first k peers; the others are fresh and
  // have its request.
  ghost predicate Campaigning(n: nat, c: Cluster, k: nat) {
    && 1 <= k && 1 <= n && c.n == n == |c.servers| && c.epochs == seq(n, _ => 0)
    && c.servers[0] == Campaign(Boot(n, 0, BlankDisk)).(votes := k)
    && (forall j: nat :: k <= j < n ==> c.servers[j] == Boot(n, j, BlankDisk))
    && (forall j: nat :: k <= j < n ==> VoteReq(0, j, 0, VoteArgs(1, 0, 0, 0)) in c.net)
  }

  lemma FirstCampaign(n: nat) returns (p: Path, c: Cluster)
    requires n >= 1
    ensures Reaches(n, p, c) && Campaigning(n, c, 1)
  {
    Beginning(n);
    c := DoTimeout(n, First(n), Init(n), 0);
    p := Then(First(n), Timeout(0), c);
    assert VoteRequest(Campaign(Boot(n, 0, BlankDisk))) == VoteArgs(1, 0, 0, 0);
  }

  lemma GrantsFresh(n: nat, j: nat)
    requires j < n
    ensures HandleVote(Boot(n, j, BlankDisk), VoteArgs(1, 0, 0, 0)).1 == VoteReply(1, true)
  {
  }

  lemma CountsOne(n: nat, k: nat)
    requires n >= 1
    ensures var s := Campaign(Boot(n, 0, BlankDisk)).(votes := k);
            var t := HandleVoteReply(s, VoteReply(1, true));
            if 2 * (k + 1) > n then t.identity == Leader else t == s.(votes := k + 1)
  {
  }

  // One more peer votes: the candidate is leader, or one vote further.
  lemma OneVote(n: nat, p: Path, c: Cluster, k: nat) returns (q: Path, d: Cluster)
    requires Reaches(n, p, c) && Campaigning(n, c, k) && k < n
    ensures Reaches(n, q, d) && d.n == n && |d.servers| == n
    ensures if 2 * (k + 1) > n then d.servers[0].identity == Leader else Campaigning(n, d, k + 1)
  {
    var m := VoteReq(0, k, 0, VoteArgs(1, 0, 0, 0));
    var e := DoVoteReq(n, p, c, m);
    GrantsFresh(n, k);
    var r := VoteRep(0, k, 0, m.vote, VoteReply(1, true));
    q := Then(p, DeliverVoteReq(m), e);
    d := DoVoteRep(n, q, e, r);
    q := Then(q, DeliverVoteRep(r), d);
    CountsOne(n, k);
  }

  lemma {:induction false} MoreVotes(n: nat, p: Path, c: Cluster, k: nat) returns (q: Path, d: Cluster)
    requires Reaches(n, p, c) && Campaigning(n, c, k) && k < n && 2 * k <= n
    ensures Reaches(n, q, d) && d.n == n && |d.servers| == n && d.servers[0].identity == Leader
    decreases n - k
  {
    q, d := OneVote(n, p, c, k);
    if 2 * (k + 1) <= n {
      q, d := MoreVotes(n, q, d, k + 1);
    }
  }

  // A cluster can have a leader exactly when it has two peers or more.
  lemma LeaderIffTwoPeers(n: nat)
    ensures n >= 2 <==> exists run: seq<Cluster>, steps: seq<Step>, x: nat, i: nat ::
              IsRun(n, run, steps) && x < |run| && i < |run[x].servers| && run[x].servers[i].identity == Leader
  {
    if n >= 2 {
      var p, c := FirstCampaign(n);
      p, c := MoreVotes(n, p, c, 1);
      assert p.run[|p.steps|].servers[0].identity == Leader;
    }
    if run: seq<Cluster>, steps: seq<Step>, x: nat, i: nat :|
       IsRun(n, run, steps) && x < |run| && i < |run[x].servers| && run[x].servers[i].identity == Leader {
      SizeStays(n, run, steps, x);
      if n == 1 {
        OnePeerNeverLeads(run, steps, x);
      }
    }
  }

  lemma {:induction false} SizeStays(n: nat, run: seq<Cluster>, steps: seq<Step>, x: nat)
    requires IsRun(n, run, steps) && x < |run|
    ensures run[x].n == n == |run[x].servers|
  {
    RunKeepsElectionInv(n, run, steps, x);
    if x > 0 {
      SizeStays(n, run, steps, x - 1);
    }
  }
}

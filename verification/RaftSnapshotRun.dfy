/**
 A run of three Raft peers in which a snapshot of the service makes two of them apply different
 commands at the same index: a follower whose snapshot covers index 1 answers success to a request
 that starts behind it, and the leader counts an entry as stored that the follower never got.
 */
module RaftSnapshotRun {
  import opened RaftServer
  import opened RaftCluster
  import opened RaftTheorems
  import opened RaftWitness

  const EntryA := LogEntry("a", 1)
  const EntryB := LogEntry("b", 1)
  const EntryC := LogEntry("c", 2)

  // One of three peers, with nothing unsaved and no snapshot.
  function Peer(me: nat, term: nat, identity: Identity, vote: int, logs: Log, committed: nat, applied: nat,
                next: seq<int>, matched: seq<int>, votes: nat): Server {
    Server(3, me, term, identity, vote, logs, committed, applied, next, matched, 0, NoSnapshot, 0, false, votes,
           Disk(term, vote, logs, NoSnapshot))
  }

  // Peer 1 once its snapshot covers index 1.
  function Covered(term: nat, vote: int, logs: Log): Server {
    Server(3, 1, term, Follower, vote, logs, 1, 1, [0, 0, 0], [0, 0, 0], 1, Snapshot(1, "s"), 1, false, 0,
           Disk(term, vote, logs, Snapshot(1, "s")))
  }

  function Fresh(me: nat): Server {
    Peer(me, 0, Follower, Unvote, [Root], 0, 0, [0, 0, 0], [0, 0, 0], 0)
  }

  // A follower in term 1 that may have voted for peer 0.
  function Follows(me: nat, vote: int, logs: Log, committed: nat, applied: nat): Server {
    Peer(me, 1, Follower, vote, logs, committed, applied, [0, 0, 0], [0, 0, 0], 0)
  }

  // Peer 0 as leader of term 1.
  function Leads(logs: Log, committed: nat, applied: nat, next: seq<int>, matched: seq<int>): Server {
    Peer(0, 1, Leader, 0, logs, committed, applied, next, matched, 2)
  }

  // Peer 2 as candidate or leader of term 2.
  function Leads2(identity: Identity, logs: Log, committed: nat, next: seq<int>, matched: seq<int>,
                  votes: nat): Server {
    Peer(2, 2, identity, 2, logs, committed, 0, next, matched, votes)
  }

  // Peer 2 when it has committed "c" at index 2, and when it has applied it.
  function Done2(applied: nat): Server {
    Peer(2, 2, Leader, 2, [Root, EntryA, EntryC], 2, applied, [2, 3, 2], [0, 2, 0], 2)
  }

  ghost predicate Peers(p: Path, c: Cluster, x: Server, y: Server, z: Server) {
    Reaches(3, p, c) && c.n == 3 && c.servers == [x, y, z] && c.epochs == [0, 0, 0]
  }

  // q goes on where p ends.
  ghost predicate GoesOn(p: Path, q: Path) {
    p.run <= q.run && p.steps <= q.steps
  }

  // ---- Peer 0 becomes leader of term 1 with the vote of peer 1 ----

  const Candidate0 := Peer(0, 1, Candidate, 0, [Root], 0, 0, [0, 0, 0], [0, 0, 0], 1)

  lemma Ask0() returns (p: Path, c: Cluster)
    ensures Peers(p, c, Candidate0, Fresh(1), Fresh(2)) && VoteReq(0, 1, 0, VoteArgs(1, 0, 0, 0)) in c.net
  {
    Beginning(3);
    FreshStart();
    c := DoTimeout(3, First(3), Init(3), 0);
    p := Then(First(3), Timeout(0), c);
    assert Campaign(Fresh(0)) == Candidate0;
    assert VoteRequest(Candidate0) == VoteArgs(1, 0, 0, 0);
  }

  lemma FreshStart()
    ensures Init(3).servers == [Fresh(0), Fresh(1), Fresh(2)] && Init(3).epochs == [0, 0, 0]
  {
    assert seq(3, _ => 0) == [0, 0, 0];
    assert Boot(3, 0, BlankDisk) == Fresh(0) && Boot(3, 1, BlankDisk) == Fresh(1) && Boot(3, 2, BlankDisk) == Fresh(2);
  }

  lemma Grant0(p: Path, c: Cluster) returns (q: Path, d: Cluster)
    requires Peers(p, c, Candidate0, Fresh(1), Fresh(2)) && VoteReq(0, 1, 0, VoteArgs(1, 0, 0, 0)) in c.net
    ensures Peers(q, d, Candidate0, Follows(1, 0, [Root], 0, 0), Fresh(2))
    ensures VoteRep(0, 1, 0, VoteArgs(1, 0, 0, 0), VoteReply(1, true)) in d.net
  {
    var m := VoteReq(0, 1, 0, VoteArgs(1, 0, 0, 0));
    assert HandleVote(Fresh(1), m.vote) == (Follows(1, 0, [Root], 0, 0), VoteReply(1, true));
    d := DoVoteReq(3, p, c, m);
    q := Then(p, DeliverVoteReq(m), d);
  }

  lemma Win0(p: Path, c: Cluster) returns (q: Path, d: Cluster)
    requires Peers(p, c, Candidate0, Follows(1, 0, [Root], 0, 0), Fresh(2))
    requires VoteRep(0, 1, 0, VoteArgs(1, 0, 0, 0), VoteReply(1, true)) in c.net
    ensures Peers(q, d, Leads([Root], 0, 0, [1, 1, 1], [0, 0, 0]), Follows(1, 0, [Root], 0, 0), Fresh(2))
  {
    var m := VoteRep(0, 1, 0, VoteArgs(1, 0, 0, 0), VoteReply(1, true));
    assert HandleVoteReply(Candidate0, VoteReply(1, true)) == Leads([Root], 0, 0, [1, 1, 1], [0, 0, 0]);
    d := DoVoteRep(3, p, c, m);
    q := Then(p, DeliverVoteRep(m), d);
  }

  // ---- It starts "a", which peer 2 and peer 1 store; only peer 2's answer comes back ----

  const SendA := AppendArgs(1, 0, 0, 0, [EntryA], 0)
  const Stored := AppendReply(1, true, 0, 0, 0)

  lemma StartA(p: Path, c: Cluster) returns (q: Path, d: Cluster)
    requires Peers(p, c, Leads([Root], 0, 0, [1, 1, 1], [0, 0, 0]), Follows(1, 0, [Root], 0, 0), Fresh(2))
    ensures Peers(q, d, Leads([Root, EntryA], 0, 0, [1, 1, 1], [0, 0, 0]), Follows(1, 0, [Root], 0, 0), Fresh(2))
  {
    assert StartCommand(Leads([Root], 0, 0, [1, 1, 1], [0, 0, 0]), "a")
      == Leads([Root, EntryA], 0, 0, [1, 1, 1], [0, 0, 0]);
    d := DoStart(3, p, c, 0, "a");
    q := Then(p, Start(0, "a"), d);
  }

  lemma SendsA(j: nat)
    requires j < 3
    ensures HeartBeatTo(Leads([Root, EntryA], 0, 0, [1, 1, 1], [0, 0, 0]), j) == Done(SendAppend(SendA))
  {
    assert [Root, EntryA][1..] == [EntryA];
  }

  lemma SendBoth(p: Path, c: Cluster) returns (q: Path, d: Cluster)
    requires Peers(p, c, Leads([Root, EntryA], 0, 0, [1, 1, 1], [0, 0, 0]), Follows(1, 0, [Root], 0, 0), Fresh(2))
    ensures Peers(q, d, Leads([Root, EntryA], 0, 0, [1, 1, 1], [0, 0, 0]), Follows(1, 0, [Root], 0, 0), Fresh(2))
    ensures AppendReq(0, 1, 0, SendA) in d.net && AppendReq(0, 2, 0, SendA) in d.net
  {
    SendsA(1);
    SendsA(2);
    var e := DoSend(3, p, c, 0, 1, SendA);
    q := Then(p, Send(0, 1), e);
    d := DoSend(3, q, e, 0, 2, SendA);
    q := Then(q, Send(0, 2), d);
  }

  lemma StoresA(me: nat, vote: int)
    ensures me == 2 ==> HandleAppend(Fresh(2), SendA) == Done((Follows(2, Unvote, [Root, EntryA], 0, 0), Stored))
    ensures HandleAppend(Follows(1, vote, [Root], 0, 0), SendA)
            == Done((Follows(1, vote, [Root, EntryA], 0, 0), Stored))
  {
    assert Merge([Root], 1, [EntryA]) == [Root, EntryA];
  }

  lemma StoreBoth(p: Path, c: Cluster) returns (q: Path, d: Cluster)
    requires Peers(p, c, Leads([Root, EntryA], 0, 0, [1, 1, 1], [0, 0, 0]), Follows(1, 0, [Root], 0, 0), Fresh(2))
    requires AppendReq(0, 1, 0, SendA) in c.net && AppendReq(0, 2, 0, SendA) in c.net
    ensures Peers(q, d, Leads([Root, EntryA], 0, 0, [1, 1, 1], [0, 0, 0]), Follows(1, 0, [Root, EntryA], 0, 0),
                  Follows(2, Unvote, [Root, EntryA], 0, 0))
    ensures AppendRep(0, 1, 0, SendA, Stored) in d.net && AppendRep(0, 2, 0, SendA, Stored) in d.net
  {
    StoresA(2, 0);
    var m := AppendReq(0, 1, 0, SendA);
    var e := DoAppendReq(3, p, c, m, Follows(1, 0, [Root, EntryA], 0, 0), Stored);
    q := Then(p, DeliverAppendReq(m), e);
    m := AppendReq(0, 2, 0, SendA);
    d := DoAppendReq(3, q, e, m, Follows(2, Unvote, [Root, EntryA], 0, 0), Stored);
    q := Then(q, DeliverAppendReq(m), d);
  }

  lemma Finds(logs: Log, term: nat, k: nat)
    requires Sorted(logs) && 1 <= |logs| && k <= |logs|
    requires (forall i :: 0 <= i < k ==> logs[i].term < term) && (k < |logs| ==> term <= logs[k].term)
    ensures FindFirst(logs, term) == k
  {
    FindFirstOnSorted(logs, term);
    var f := FindFirst(logs, term);
    assert f < |logs| ==> term <= logs[f].term;
    assert k < |logs| ==> term <= logs[k].term;
  }

  // The last entry of the leader's term is held by a majority.
  lemma CommitsLast(s: Server, low: nat)
    requires s.WellFormed() && Sorted(s.logs) && 1 <= low < |s.logs| && s.discardCount == 0
    requires (forall i :: 0 <= i < low ==> s.logs[i].term < s.currentTerm)
    requires (forall i :: low <= i < |s.logs| ==> s.logs[i].term == s.currentTerm)
    requires s.committedIndex < |s.logs| - 1 && HasMajority(s, |s.logs| - 1)
    ensures UpdateCommitted(s) == Done(s.(committedIndex := |s.logs| - 1))
  {
    Finds(s.logs, s.currentTerm, low);
    Finds(s.logs, s.currentTerm + 1, |s.logs|);
  }

  lemma MajorityOfThree(s: Server, j: nat, index: nat)
    requires s.n == 3 && |s.matchIndex| == 3 && s.me < 3 && j < 3 && j != s.me && s.matchIndex[j] >= index
    ensures HasMajority(s, index)
  {
    assert MatchCount(s, index, 0) == 0;
    assert MatchCount(s, index, 1) >= if j == 0 then 1 else 0;
    assert MatchCount(s, index, 2) >= if j <= 1 then 1 else 0;
    assert MatchCount(s, index, 3) >= 1;
  }

  lemma CountsA()
    ensures HandleAppendReply(Leads([Root, EntryA], 0, 0, [1, 1, 1], [0, 0, 0]), 2, SendA, Stored)
         == Done(Leads([Root, EntryA], 1, 0, [1, 1, 2], [0, 0, 1]))
  {
    var s := Leads([Root, EntryA], 0, 0, [1, 1, 2], [0, 0, 1]);
    assert Acknowledge(Leads([Root, EntryA], 0, 0, [1, 1, 1], [0, 0, 0]), 2, 1) == s;
    MajorityOfThree(s, 2, 1);
    CommitsLast(s, 1);
  }

  lemma CommitA(p: Path, c: Cluster) returns (q: Path, d: Cluster)
    requires Peers(p, c, Leads([Root, EntryA], 0, 0, [1, 1, 1], [0, 0, 0]), Follows(1, 0, [Root, EntryA], 0, 0),
                   Follows(2, Unvote, [Root, EntryA], 0, 0))
    requires AppendRep(0, 2, 0, SendA, Stored) in c.net
    ensures Peers(q, d, Leads([Root, EntryA], 1, 0, [1, 1, 2], [0, 0, 1]), Follows(1, 0, [Root, EntryA], 0, 0),
                  Follows(2, Unvote, [Root, EntryA], 0, 0))
    ensures c.net <= d.net
  {
    var m := AppendRep(0, 2, 0, SendA, Stored);
    CountsA();
    d := DoAppendRep(3, p, c, m, Leads([Root, EntryA], 1, 0, [1, 1, 2], [0, 0, 1]));
    q := Then(p, DeliverAppendRep(m), d);
  }

  // ---- Peer 1 hears that "a" is committed, applies it, and takes a snapshot of it ----

  const ResendA := AppendArgs(1, 0, 0, 0, [EntryA], 1)

  lemma TellsA()
    ensures HeartBeatTo(Leads([Root, EntryA], 1, 0, [1, 1, 2], [0, 0, 1]), 1) == Done(SendAppend(ResendA))
    ensures HandleAppend(Follows(1, 0, [Root, EntryA], 0, 0), ResendA)
            == Done((Follows(1, 0, [Root, EntryA], 1, 0), Stored))
  {
    assert [Root, EntryA][1..] == [EntryA];
    assert Merge([Root, EntryA], 1, [EntryA]) == [Root, EntryA];
  }

  lemma TellA(p: Path, c: Cluster) returns (q: Path, d: Cluster)
    requires Peers(p, c, Leads([Root, EntryA], 1, 0, [1, 1, 2], [0, 0, 1]), Follows(1, 0, [Root, EntryA], 0, 0),
                   Follows(2, Unvote, [Root, EntryA], 0, 0))
    ensures Peers(q, d, Leads([Root, EntryA], 1, 0, [1, 1, 2], [0, 0, 1]), Follows(1, 0, [Root, EntryA], 1, 0),
                  Follows(2, Unvote, [Root, EntryA], 0, 0))
  {
    TellsA();
    var e := DoSend(3, p, c, 0, 1, ResendA);
    q := Then(p, Send(0, 1), e);
    var m := AppendReq(0, 1, 0, ResendA);
    d := DoAppendReq(3, q, e, m, Follows(1, 0, [Root, EntryA], 1, 0), Stored);
    q := Then(q, DeliverAppendReq(m), d);
  }

  lemma Compacts()
    ensures ApplyRound(Follows(1, 0, [Root, EntryA], 1, 0))
            == Done((Follows(1, 0, [Root, EntryA], 1, 1), [CommandMsg(1, "a")]))
    ensures TakeSnapshot(Follows(1, 0, [Root, EntryA], 1, 1), 1, "s") == Covered(1, 0, [EntryA])
  {
    assert Commands([Root, EntryA], 0, 0, 0) == [];
    assert Commands([Root, EntryA], 0, 0, 1) == [CommandMsg(1, "a")];
    assert [Root, EntryA][1..] == [EntryA];
  }

  lemma CompactA(p: Path, c: Cluster) returns (q: Path, d: Cluster)
    requires Peers(p, c, Leads([Root, EntryA], 1, 0, [1, 1, 2], [0, 0, 1]), Follows(1, 0, [Root, EntryA], 1, 0),
                   Follows(2, Unvote, [Root, EntryA], 0, 0))
    ensures Peers(q, d, Leads([Root, EntryA], 1, 0, [1, 1, 2], [0, 0, 1]), Covered(1, 0, [EntryA]),
                  Follows(2, Unvote, [Root, EntryA], 0, 0))
  {
    Compacts();
    var e := DoApply(3, p, c, 1, Follows(1, 0, [Root, EntryA], 1, 1), [CommandMsg(1, "a")]);
    q := Then(p, Apply(1), e);
    d := DoSnap(3, q, e, 1, 1, "s");
    q := Then(q, Snap(1, 1, "s"), d);
  }

  // ---- The leader starts "b" and sends "a" and "b" to peer 1, which takes neither and says yes ----

  const SendAB := AppendArgs(1, 0, 0, 0, [EntryA, EntryB], 1)

  lemma SendsB()
    ensures StartCommand(Leads([Root, EntryA], 1, 0, [1, 1, 2], [0, 0, 1]), "b")
         == Leads([Root, EntryA, EntryB], 1, 0, [1, 1, 2], [0, 0, 1])
    ensures HeartBeatTo(Leads([Root, EntryA, EntryB], 1, 0, [1, 1, 2], [0, 0, 1]), 1) == Done(SendAppend(SendAB))
    ensures HandleAppend(Covered(1, 0, [EntryA]), SendAB) == Done((Covered(1, 0, [EntryA]), Stored))
  {
    assert [Root, EntryA] + [EntryB] == [Root, EntryA, EntryB];
    assert [Root, EntryA, EntryB][1..] == [EntryA, EntryB];
  }

  lemma SendB(p: Path, c: Cluster) returns (q: Path, d: Cluster)
    requires Peers(p, c, Leads([Root, EntryA], 1, 0, [1, 1, 2], [0, 0, 1]), Covered(1, 0, [EntryA]),
                   Follows(2, Unvote, [Root, EntryA], 0, 0))
    ensures Peers(q, d, Leads([Root, EntryA, EntryB], 1, 0, [1, 1, 2], [0, 0, 1]), Covered(1, 0, [EntryA]),
                  Follows(2, Unvote, [Root, EntryA], 0, 0))
    ensures AppendReq(0, 1, 0, SendAB) in d.net
  {
    SendsB();
    var e := DoStart(3, p, c, 0, "b");
    q := Then(p, Start(0, "b"), e);
    d := DoSend(3, q, e, 0, 1, SendAB);
    q := Then(q, Send(0, 1), d);
  }

  lemma CountsB()
    ensures HandleAppendReply(Leads([Root, EntryA, EntryB], 1, 0, [1, 1, 2], [0, 0, 1]), 1, SendAB, Stored)
         == Done(Leads([Root, EntryA, EntryB], 2, 0, [1, 3, 2], [0, 2, 1]))
  {
    var s := Leads([Root, EntryA, EntryB], 1, 0, [1, 3, 2], [0, 2, 1]);
    assert Acknowledge(Leads([Root, EntryA, EntryB], 1, 0, [1, 1, 2], [0, 0, 1]), 1, 2) == s;
    MajorityOfThree(s, 1, 2);
    CommitsLast(s, 1);
  }

  lemma CommitB(p: Path, c: Cluster) returns (q: Path, d: Cluster)
    requires Peers(p, c, Leads([Root, EntryA, EntryB], 1, 0, [1, 1, 2], [0, 0, 1]), Covered(1, 0, [EntryA]),
                   Follows(2, Unvote, [Root, EntryA], 0, 0))
    requires AppendReq(0, 1, 0, SendAB) in c.net
    ensures Peers(q, d, Leads([Root, EntryA, EntryB], 2, 0, [1, 3, 2], [0, 2, 1]), Covered(1, 0, [EntryA]),
                  Follows(2, Unvote, [Root, EntryA], 0, 0))
  {
    SendsB();
    CountsB();
    var m := AppendReq(0, 1, 0, SendAB);
    var e := DoAppendReq(3, p, c, m, Covered(1, 0, [EntryA]), Stored);
    q := Then(p, DeliverAppendReq(m), e);
    var r := AppendRep(0, 1, 0, SendAB, Stored);
    d := DoAppendRep(3, q, e, r, Leads([Root, EntryA, EntryB], 2, 0, [1, 3, 2], [0, 2, 1]));
    q := Then(q, DeliverAppendRep(r), d);
  }

  lemma AppliesB()
    ensures ApplyRound(Leads([Root, EntryA, EntryB], 2, 0, [1, 3, 2], [0, 2, 1]))
         == Done((Leads([Root, EntryA, EntryB], 2, 2, [1, 3, 2], [0, 2, 1]), [CommandMsg(1, "a"), CommandMsg(2, "b")]))
  {
    var logs := [Root, EntryA, EntryB];
    assert Commands(logs, 0, 0, 0) == [];
    assert Commands(logs, 0, 0, 1) == [CommandMsg(1, "a")];
    assert Commands(logs, 0, 0, 2) == [CommandMsg(1, "a")] + [CommandMsg(2, "b")];
    var s := Leads(logs, 2, 0, [1, 3, 2], [0, 2, 1]);
    assert ApplyRound(s).value.1 == [CommandMsg(1, "a"), CommandMsg(2, "b")];
    assert ApplyRound(s).value.0 == Leads(logs, 2, 2, [1, 3, 2], [0, 2, 1]);
  }

  lemma ApplyB(p: Path, c: Cluster) returns (q: Path, d: Cluster)
    requires Peers(p, c, Leads([Root, EntryA, EntryB], 2, 0, [1, 3, 2], [0, 2, 1]), Covered(1, 0, [EntryA]),
                   Follows(2, Unvote, [Root, EntryA], 0, 0))
    ensures Peers(q, d, Leads([Root, EntryA, EntryB], 2, 2, [1, 3, 2], [0, 2, 1]), Covered(1, 0, [EntryA]),
                  Follows(2, Unvote, [Root, EntryA], 0, 0))
    ensures q == Then(p, Apply(0), d) && Delivers(c, Apply(0), 0, 2, "b")
  {
    AppliesB();
    d := DoApply(3, p, c, 0, Leads([Root, EntryA, EntryB], 2, 2, [1, 3, 2], [0, 2, 1]),
                 [CommandMsg(1, "a"), CommandMsg(2, "b")]);
    q := Then(p, Apply(0), d);
  }

  // ---- Peer 2, without "b", becomes leader of term 2 with the vote of peer 1 ----

  lemma Campaigns2()
    ensures Campaign(Follows(2, Unvote, [Root, EntryA], 0, 0))
            == Leads2(Candidate, [Root, EntryA], 0, [0, 0, 0], [0, 0, 0], 1)
    ensures VoteRequest(Leads2(Candidate, [Root, EntryA], 0, [0, 0, 0], [0, 0, 0], 1)) == VoteArgs(2, 2, 1, 1)
    ensures HandleVote(Covered(1, 0, [EntryA]), VoteArgs(2, 2, 1, 1)) == (Covered(2, 2, [EntryA]), VoteReply(2, true))
    ensures HandleVoteReply(Leads2(Candidate, [Root, EntryA], 0, [0, 0, 0], [0, 0, 0], 1), VoteReply(2, true))
         == Leads2(Leader, [Root, EntryA], 0, [2, 2, 2], [0, 0, 0], 2)
  {
  }

  lemma Ask2(p: Path, c: Cluster, x: Server) returns (q: Path, d: Cluster)
    requires Peers(p, c, x, Covered(1, 0, [EntryA]), Follows(2, Unvote, [Root, EntryA], 0, 0))
    ensures Peers(q, d, x, Covered(2, 2, [EntryA]), Leads2(Candidate, [Root, EntryA], 0, [0, 0, 0], [0, 0, 0], 1))
    ensures VoteRep(2, 1, 0, VoteArgs(2, 2, 1, 1), VoteReply(2, true)) in d.net && GoesOn(p, q)
  {
    Campaigns2();
    var e := DoTimeout(3, p, c, 2);
    q := Then(p, Timeout(2), e);
    var m := VoteReq(2, 1, 0, VoteArgs(2, 2, 1, 1));
    assert c.servers[2] == Follows(2, Unvote, [Root, EntryA], 0, 0) && c.epochs[2] == 0;
    assert m in e.net;
    d := DoVoteReq(3, q, e, m);
    q := Then(q, DeliverVoteReq(m), d);
  }

  lemma Win2(p: Path, c: Cluster, x: Server) returns (q: Path, d: Cluster)
    requires Peers(p, c, x, Covered(2, 2, [EntryA]), Leads2(Candidate, [Root, EntryA], 0, [0, 0, 0], [0, 0, 0], 1))
    requires VoteRep(2, 1, 0, VoteArgs(2, 2, 1, 1), VoteReply(2, true)) in c.net
    ensures Peers(q, d, x, Covered(2, 2, [EntryA]), Leads2(Leader, [Root, EntryA, EntryC], 0, [2, 2, 2], [0, 0, 0], 2))
    ensures GoesOn(p, q)
  {
    Campaigns2();
    var m := VoteRep(2, 1, 0, VoteArgs(2, 2, 1, 1), VoteReply(2, true));
    var e := DoVoteRep(3, p, c, m);
    q := Then(p, DeliverVoteRep(m), e);
    assert [Root, EntryA] + [EntryC] == [Root, EntryA, EntryC];
    d := DoStart(3, q, e, 2, "c");
    q := Then(q, Start(2, "c"), d);
  }

  // ---- It commits "c" at index 2 with peer 1, and applies it ----

  const SendC := AppendArgs(2, 2, 1, 1, [EntryC], 0)
  const StoredC := AppendReply(2, true, 0, 0, 0)

  lemma SendsC()
    ensures HeartBeatTo(Leads2(Leader, [Root, EntryA, EntryC], 0, [2, 2, 2], [0, 0, 0], 2), 1)
            == Done(SendAppend(SendC))
    ensures HandleAppend(Covered(2, 2, [EntryA]), SendC) == Done((Covered(2, 2, [EntryA, EntryC]), StoredC))
  {
    assert [Root, EntryA, EntryC][2..] == [EntryC];
    assert Merge([EntryA], 1, [EntryC]) == [EntryA, EntryC];
  }

  lemma StoreC(p: Path, c: Cluster, x: Server) returns (q: Path, d: Cluster)
    requires Peers(p, c, x, Covered(2, 2, [EntryA]), Leads2(Leader, [Root, EntryA, EntryC], 0, [2, 2, 2], [0, 0, 0], 2))
    ensures Peers(q, d, x, Covered(2, 2, [EntryA, EntryC]),
                  Leads2(Leader, [Root, EntryA, EntryC], 0, [2, 2, 2], [0, 0, 0], 2))
    ensures AppendRep(2, 1, 0, SendC, StoredC) in d.net && GoesOn(p, q)
  {
    SendsC();
    var e := DoSend(3, p, c, 2, 1, SendC);
    q := Then(p, Send(2, 1), e);
    var m := AppendReq(2, 1, 0, SendC);
    d := DoAppendReq(3, q, e, m, Covered(2, 2, [EntryA, EntryC]), StoredC);
    q := Then(q, DeliverAppendReq(m), d);
  }

  lemma CountsC()
    ensures HandleAppendReply(Leads2(Leader, [Root, EntryA, EntryC], 0, [2, 2, 2], [0, 0, 0], 2), 1, SendC, StoredC)
         == Done(Leads2(Leader, [Root, EntryA, EntryC], 2, [2, 3, 2], [0, 2, 0], 2))
  {
    var s := Leads2(Leader, [Root, EntryA, EntryC], 0, [2, 3, 2], [0, 2, 0], 2);
    assert Acknowledge(Leads2(Leader, [Root, EntryA, EntryC], 0, [2, 2, 2], [0, 0, 0], 2), 1, 2) == s;
    MajorityOfThree(s, 1, 2);
    CommitsLast(s, 2);
  }

  lemma AppliesC()
    ensures ApplyRound(Done2(0)) == Done((Done2(2), [CommandMsg(1, "a"), CommandMsg(2, "c")]))
  {
    var logs := [Root, EntryA, EntryC];
    assert Commands(logs, 0, 0, 0) == [];
    assert Commands(logs, 0, 0, 1) == [CommandMsg(1, "a")];
    assert Commands(logs, 0, 0, 2) == [CommandMsg(1, "a")] + [CommandMsg(2, "c")];
    assert ApplyRound(Done2(0)).value.1 == [CommandMsg(1, "a"), CommandMsg(2, "c")];
    assert ApplyRound(Done2(0)).value.0 == Done2(2);
  }

  lemma CommitC(p: Path, c: Cluster, x: Server) returns (q: Path, d: Cluster)
    requires Peers(p, c, x, Covered(2, 2, [EntryA, EntryC]),
                   Leads2(Leader, [Root, EntryA, EntryC], 0, [2, 2, 2], [0, 0, 0], 2))
    requires AppendRep(2, 1, 0, SendC, StoredC) in c.net
    ensures Peers(q, d, x, Covered(2, 2, [EntryA, EntryC]), Done2(0)) && GoesOn(p, q)
  {
    CountsC();
    var r := AppendRep(2, 1, 0, SendC, StoredC);
    d := DoAppendRep(3, p, c, r, Done2(0));
    q := Then(p, DeliverAppendRep(r), d);
  }

  lemma ApplyC(p: Path, c: Cluster, x: Server) returns (q: Path, d: Cluster)
    requires Peers(p, c, x, Covered(2, 2, [EntryA, EntryC]), Done2(0))
    ensures Peers(q, d, x, Covered(2, 2, [EntryA, EntryC]), Done2(2))
    ensures q == Then(p, Apply(2), d) && Delivers(c, Apply(2), 2, 2, "c")
  {
    AppliesC();
    d := DoApply(3, p, c, 2, Done2(2), [CommandMsg(1, "a"), CommandMsg(2, "c")]);
    q := Then(p, Apply(2), d);
  }

  // ---- The whole run ----

  lemma FirstHalf() returns (p: Path, c: Cluster)
    ensures Peers(p, c, Leads([Root, EntryA, EntryB], 2, 0, [1, 3, 2], [0, 2, 1]), Covered(1, 0, [EntryA]),
                  Follows(2, Unvote, [Root, EntryA], 0, 0))
  {
    p, c := Ask0();
    p, c := Grant0(p, c);
    p, c := Win0(p, c);
    p, c := StartA(p, c);
    p, c := SendBoth(p, c);
    p, c := StoreBoth(p, c);
    p, c := CommitA(p, c);
    p, c := TellA(p, c);
    p, c := CompactA(p, c);
    p, c := SendB(p, c);
    p, c := CommitB(p, c);
  }

  // The leader counts index 2 as stored by a peer whose log ends at index 1, and so commits it.
  lemma MatchedButNotStored() returns (p: Path)
    ensures IsRun(3, p.run, p.steps)
    ensures var c := p.run[|p.steps|];
            && |c.servers| == 3 && c.servers[0].identity == Leader && |c.servers[0].matchIndex| == 3
            && c.servers[1].WellFormed()
            && c.servers[0].matchIndex[1] == c.servers[0].committedIndex == 2 && c.servers[1].LastIndex() == 1
            && |c.servers[2].logs| == 2
  {
    var c;
    p, c := FirstHalf();
  }

  lemma SecondHalf(p: Path, c: Cluster, x: Server) returns (q: Path, d: Cluster, y: nat)
    requires Peers(p, c, x, Covered(1, 0, [EntryA]), Follows(2, Unvote, [Root, EntryA], 0, 0))
    ensures Peers(q, d, x, Covered(2, 2, [EntryA, EntryC]), Done2(2)) && GoesOn(p, q)
    ensures y < |q.steps| && Delivers(q.run[y], q.steps[y], 2, 2, "c")
  {
    var p1, c1 := Ask2(p, c, x);
    var p2, c2 := Win2(p1, c1, x);
    var p3, c3 := StoreC(p2, c2, x);
    var p4, c4 := CommitC(p3, c3, x);
    q, d := ApplyC(p4, c4, x);
    y := |p4.steps|;
    assert q.run[y] == c4 && q.steps[y] == Apply(2);
    GoesFurther(p, p1, p2);
    GoesFurther(p, p2, p3);
    GoesFurther(p, p3, p4);
    GoesFurther(p, p4, q);
  }

  lemma GoesFurther(p: Path, q: Path, r: Path)
    requires GoesOn(p, q) && GoesOn(q, r)
    ensures GoesOn(p, r)
  {
  }

  // State machine safety needs its proviso: with one snapshot, peers 0 and 2 apply "b" and "c" at
  // index 2.
  lemma SnapshotBreaksSafety() returns (q: Path, x: nat, y: nat)
    ensures IsRun(3, q.run, q.steps) && x < |q.steps| && y < |q.steps|
    ensures Delivers(q.run[x], q.steps[x], 0, 2, "b") && Delivers(q.run[y], q.steps[y], 2, 2, "c")
  {
    var p, c := FirstHalf();
    x := |p.steps|;
    var p', c' := ApplyB(p, c);
    var d;
    q, d, y := SecondHalf(p', c', Done0());
    assert q.run[x] == p'.run[x] == c && q.steps[x] == p'.steps[x] == Apply(0);
  }

  // ---- Both snapshot what they have applied, and peer 2 sends its snapshot to peer 0 ----

  // Peer 0 when it has committed and applied "b" at index 2.
  function Done0(): Server {
    Leads([Root, EntryA, EntryB], 2, 2, [1, 3, 2], [0, 2, 1])
  }

  // A peer whose snapshot covers index 2 and all of its log.
  function Snapped(s: Server, e: LogEntry, data: string): Server {
    s.(logs := [e], discardCount := 2, snapshot := Snapshot(2, data), lastIncludedIndex := 2,
       disk := Disk(s.currentTerm, s.voteFor, [e], Snapshot(2, data)))
  }

  const SendU := SnapArgs(2, 2, 2, 2, Snapshot(2, "u"))

  lemma Snaps()
    ensures TakeSnapshot(Done0(), 2, "t") == Snapped(Done0(), EntryB, "t")
    ensures TakeSnapshot(Done2(2), 2, "u") == Snapped(Done2(2), EntryC, "u")
    ensures HeartBeatTo(Snapped(Done2(2), EntryC, "u"), 0) == Done(SendSnapshot(SendU))
  {
    assert [Root, EntryA, EntryB][2..] == [EntryB] && [Root, EntryA, EntryC][2..] == [EntryC];
  }

  lemma SnapBoth(p: Path, c: Cluster) returns (q: Path, d: Cluster)
    requires Peers(p, c, Done0(), Covered(2, 2, [EntryA, EntryC]), Done2(2))
    ensures Peers(q, d, Snapped(Done0(), EntryB, "t"), Covered(2, 2, [EntryA, EntryC]), Snapped(Done2(2), EntryC, "u"))
  {
    Snaps();
    var e := DoSnap(3, p, c, 0, 2, "t");
    q := Then(p, Snap(0, 2, "t"), e);
    d := DoSnap(3, q, e, 2, 2, "u");
    q := Then(q, Snap(2, 2, "u"), d);
  }

  lemma SendSnap2(p: Path, c: Cluster) returns (q: Path, d: Cluster)
    requires Peers(p, c, Snapped(Done0(), EntryB, "t"), Covered(2, 2, [EntryA, EntryC]), Snapped(Done2(2), EntryC, "u"))
    ensures Peers(q, d, Snapped(Done0(), EntryB, "t"), Covered(2, 2, [EntryA, EntryC]), Snapped(Done2(2), EntryC, "u"))
    ensures SnapReq(2, 0, 0, SendU) in d.net
  {
    Snaps();
    d := DoSendSnap(3, p, c, 2, 0, SendU);
    q := Then(p, Send(2, 0), d);
  }

  // The run goes on: peer 0 hears of term 2 with a snapshot that is not newer than its own, and
  // keeps a term in memory that is not on its disk.
  lemma TermUnsaved() returns (q: Path)
    ensures IsRun(3, q.run, q.steps)
    ensures var c := q.run[|q.steps|]; |c.servers| == 3 && c.servers[0].currentTerm == 2 && c.servers[0].disk.term == 1
  {
    var p, c := FirstHalf();
    p, c := ApplyB(p, c);
    var y;
    p, c, y := SecondHalf(p, c, Done0());
    p, c := SnapBoth(p, c);
    p, c := SendSnap2(p, c);
    var m := SnapReq(2, 0, 0, SendU);
    var d := DoSnapReq(3, p, c, m);
    q := Then(p, DeliverSnapReq(m), d);
  }
}

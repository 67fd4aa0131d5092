/**
 A run of three Raft peers, without snapshots, in which a follower's commit index moves down: a
 request that starts at index 0 is overtaken by a later one that starts at index 1.
 */
module RaftCommitRun {
  import opened RaftServer
  import opened RaftCluster
  import opened RaftWitness
  import opened RaftSnapshotRun

  const EntryD := LogEntry("d", 1)

  const Full := [Root, EntryA, EntryB, EntryD]

  // ---- Both followers have "a", and peer 1's answer is still on its way ----

  lemma BothHaveA() returns (p: Path, c: Cluster)
    ensures Peers(p, c, Leads([Root, EntryA], 1, 0, [1, 1, 2], [0, 0, 1]), Follows(1, 0, [Root, EntryA], 0, 0),
                  Follows(2, Unvote, [Root, EntryA], 0, 0))
    ensures AppendRep(0, 1, 0, SendA, Stored) in c.net
  {
    p, c := Ask0();
    p, c := Grant0(p, c);
    p, c := Win0(p, c);
    p, c := StartA(p, c);
    p, c := SendBoth(p, c);
    p, c := StoreBoth(p, c);
    p, c := CommitA(p, c);
  }

  // ---- The leader starts "b" and "d", and commits them with peer 2 ----

  lemma StartBD(p: Path, c: Cluster) returns (q: Path, d: Cluster)
    requires Peers(p, c, Leads([Root, EntryA], 1, 0, [1, 1, 2], [0, 0, 1]), Follows(1, 0, [Root, EntryA], 0, 0),
                   Follows(2, Unvote, [Root, EntryA], 0, 0))
    ensures Peers(q, d, Leads(Full, 1, 0, [1, 1, 2], [0, 0, 1]), Follows(1, 0, [Root, EntryA], 0, 0),
                  Follows(2, Unvote, [Root, EntryA], 0, 0))
    ensures c.net <= d.net
  {
    SendsB();
    assert [Root, EntryA, EntryB] + [EntryD] == Full;
    var e := DoStart(3, p, c, 0, "b");
    q := Then(p, Start(0, "b"), e);
    d := DoStart(3, q, e, 0, "d");
    q := Then(q, Start(0, "d"), d);
  }

  const SendBD := AppendArgs(1, 0, 1, 1, [EntryB, EntryD], 1)

  lemma StoresBD()
    ensures HeartBeatTo(Leads(Full, 1, 0, [1, 1, 2], [0, 0, 1]), 2) == Done(SendAppend(SendBD))
    ensures HandleAppend(Follows(2, Unvote, [Root, EntryA], 0, 0), SendBD)
            == Done((Follows(2, Unvote, Full, 1, 0), Stored))
  {
    assert Full[2..] == [EntryB, EntryD];
    assert Merge([Root, EntryA], 2, [EntryB, EntryD]) == Full;
  }

  lemma CountsBD()
    ensures HandleAppendReply(Leads(Full, 1, 0, [1, 1, 2], [0, 0, 1]), 2, SendBD, Stored)
         == Done(Leads(Full, 3, 0, [1, 1, 4], [0, 0, 3]))
  {
    var s := Leads(Full, 1, 0, [1, 1, 4], [0, 0, 3]);
    assert Acknowledge(Leads(Full, 1, 0, [1, 1, 2], [0, 0, 1]), 2, 3) == s;
    MajorityOfThree(s, 2, 3);
    CommitsLast(s, 1);
  }

  lemma StoreBD(p: Path, c: Cluster) returns (q: Path, d: Cluster)
    requires Peers(p, c, Leads(Full, 1, 0, [1, 1, 2], [0, 0, 1]), Follows(1, 0, [Root, EntryA], 0, 0),
                   Follows(2, Unvote, [Root, EntryA], 0, 0))
    ensures Peers(q, d, Leads(Full, 1, 0, [1, 1, 2], [0, 0, 1]), Follows(1, 0, [Root, EntryA], 0, 0),
                  Follows(2, Unvote, Full, 1, 0))
    ensures AppendRep(0, 2, 0, SendBD, Stored) in d.net && c.net <= d.net
  {
    StoresBD();
    var e := DoSend(3, p, c, 0, 2, SendBD);
    q := Then(p, Send(0, 2), e);
    var m := AppendReq(0, 2, 0, SendBD);
    d := DoAppendReq(3, q, e, m, Follows(2, Unvote, Full, 1, 0), Stored);
    q := Then(q, DeliverAppendReq(m), d);
  }

  lemma CommitBD(p: Path, c: Cluster) returns (q: Path, d: Cluster)
    requires Peers(p, c, Leads(Full, 1, 0, [1, 1, 2], [0, 0, 1]), Follows(1, 0, [Root, EntryA], 0, 0),
                   Follows(2, Unvote, Full, 1, 0))
    requires AppendRep(0, 2, 0, SendBD, Stored) in c.net
    ensures Peers(q, d, Leads(Full, 3, 0, [1, 1, 4], [0, 0, 3]), Follows(1, 0, [Root, EntryA], 0, 0),
                  Follows(2, Unvote, Full, 1, 0))
    ensures c.net <= d.net
  {
    CountsBD();
    var r := AppendRep(0, 2, 0, SendBD, Stored);
    d := DoAppendRep(3, p, c, r, Leads(Full, 3, 0, [1, 1, 4], [0, 0, 3]));
    q := Then(p, DeliverAppendRep(r), d);
  }

  // ---- It sends peer 1 everything, hears its old answer, and sends it the rest ----

  const Late := AppendArgs(1, 0, 0, 0, [EntryA, EntryB, EntryD], 3)

  const SendRest := AppendArgs(1, 0, 1, 1, [EntryB, EntryD], 3)

  lemma HearsA()
    ensures HeartBeatTo(Leads(Full, 3, 0, [1, 1, 4], [0, 0, 3]), 1) == Done(SendAppend(Late))
    ensures HandleAppendReply(Leads(Full, 3, 0, [1, 1, 4], [0, 0, 3]), 1, SendA, Stored)
         == Done(Leads(Full, 3, 0, [1, 2, 4], [0, 1, 3]))
    ensures HeartBeatTo(Leads(Full, 3, 0, [1, 2, 4], [0, 1, 3]), 1) == Done(SendAppend(SendRest))
  {
    var s := Leads(Full, 3, 0, [1, 2, 4], [0, 1, 3]);
    assert Acknowledge(Leads(Full, 3, 0, [1, 1, 4], [0, 0, 3]), 1, 1) == s;
    Finds(Full, 1, 1);
    Finds(Full, 2, 4);
    assert UpdateCommitted(s) == Done(s);
    assert Full[1..] == [EntryA, EntryB, EntryD] && Full[2..] == [EntryB, EntryD];
  }

  lemma SendLate(p: Path, c: Cluster) returns (q: Path, d: Cluster)
    requires Peers(p, c, Leads(Full, 3, 0, [1, 1, 4], [0, 0, 3]), Follows(1, 0, [Root, EntryA], 0, 0),
                   Follows(2, Unvote, Full, 1, 0))
    ensures Peers(q, d, Leads(Full, 3, 0, [1, 1, 4], [0, 0, 3]), Follows(1, 0, [Root, EntryA], 0, 0),
                  Follows(2, Unvote, Full, 1, 0))
    ensures AppendReq(0, 1, 0, Late) in d.net && c.net <= d.net
  {
    HearsA();
    d := DoSend(3, p, c, 0, 1, Late);
    q := Then(p, Send(0, 1), d);
  }

  lemma HearA(p: Path, c: Cluster) returns (q: Path, d: Cluster)
    requires Peers(p, c, Leads(Full, 3, 0, [1, 1, 4], [0, 0, 3]), Follows(1, 0, [Root, EntryA], 0, 0),
                   Follows(2, Unvote, Full, 1, 0))
    requires AppendRep(0, 1, 0, SendA, Stored) in c.net
    ensures Peers(q, d, Leads(Full, 3, 0, [1, 2, 4], [0, 1, 3]), Follows(1, 0, [Root, EntryA], 0, 0),
                  Follows(2, Unvote, Full, 1, 0))
    ensures c.net <= d.net
  {
    HearsA();
    var r := AppendRep(0, 1, 0, SendA, Stored);
    d := DoAppendRep(3, p, c, r, Leads(Full, 3, 0, [1, 2, 4], [0, 1, 3]));
    q := Then(p, DeliverAppendRep(r), d);
  }

  lemma SendTheRest(p: Path, c: Cluster) returns (q: Path, d: Cluster)
    requires Peers(p, c, Leads(Full, 3, 0, [1, 2, 4], [0, 1, 3]), Follows(1, 0, [Root, EntryA], 0, 0),
                   Follows(2, Unvote, Full, 1, 0))
    ensures Peers(q, d, Leads(Full, 3, 0, [1, 2, 4], [0, 1, 3]), Follows(1, 0, [Root, EntryA], 0, 0),
                  Follows(2, Unvote, Full, 1, 0))
    ensures AppendReq(0, 1, 0, SendRest) in d.net && c.net <= d.net
  {
    HearsA();
    d := DoSend(3, p, c, 0, 1, SendRest);
    q := Then(p, Send(0, 1), d);
  }

  // ---- The rest arrives first ----

  lemma TakesRest()
    ensures HandleAppend(Follows(1, 0, [Root, EntryA], 0, 0), SendRest) == Done((Follows(1, 0, Full, 2, 0), Stored))
    ensures HandleAppend(Follows(1, 0, Full, 2, 0), Late) == Done((Follows(1, 0, Full, 1, 0), Stored))
  {
    assert Merge([Root, EntryA], 2, [EntryB, EntryD]) == Full;
    assert Merge(Full, 1, [EntryA, EntryB, EntryD]) == Full;
  }

  // In the last step of this run peer 1's commit index goes from 2 to 1.
  lemma CommitLowered() returns (q: Path)
    ensures IsRun(3, q.run, q.steps) && |q.steps| > 0
    ensures var c, d := q.run[|q.steps| - 1], q.run[|q.steps|];
            |c.servers| == |d.servers| == 3 && c.servers[1].committedIndex == 2 && d.servers[1].committedIndex == 1
  {
    TakesRest();
    var p, c := BothHaveA();
    p, c := StartBD(p, c);
    p, c := StoreBD(p, c);
    p, c := CommitBD(p, c);
    p, c := SendLate(p, c);
    p, c := HearA(p, c);
    p, c := SendTheRest(p, c);
    var m := AppendReq(0, 1, 0, SendRest);
    var e := DoAppendReq(3, p, c, m, Follows(1, 0, Full, 2, 0), Stored);
    p := Then(p, DeliverAppendReq(m), e);
    m := AppendReq(0, 1, 0, Late);
    var d := DoAppendReq(3, p, e, m, Follows(1, 0, Full, 1, 0), Stored);
    q := Then(p, DeliverAppendReq(m), d);
  }
}

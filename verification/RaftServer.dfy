/**
 The state of one Raft peer and what each of its atomic actions does to that state.

 Every function here describes one critical section of src/raft/raft.go as a map from the
 peer's state before the lock is taken to its state after the lock is released.  Timers are
 not part of the state.  A Go `panic` (explicit, or an index out of range) is the outcome
 `Panic`.  The class in RaftNode.dfy runs the code's own loops and is proved against these
 functions; RaftCluster.dfy composes them into a system of peers.
 */
module RaftServer {

  // An encoded client command.
  type Command = string

  const Unvote := -1
  const InvalidIndex := -1

  datatype LogEntry = LogEntry(command: Command, term: nat)

  type Log = seq<LogEntry>

  // Logs[0] of a fresh peer.
  const Root := LogEntry("", 0)

  datatype Identity = Follower | Candidate | Leader

  // The service encodes the index its snapshot covers as the first value of the snapshot.
  datatype Snapshot = NoSnapshot | Snapshot(lastIncludedIndex: nat, data: string)

  // What the persister holds.
  datatype Disk = Disk(term: nat, voteFor: int, logs: Log, snapshot: Snapshot)

  datatype Server = Server(
    n: nat,
    me: nat,
    currentTerm: nat,
    identity: Identity,
    voteFor: int,
    logs: Log,
    committedIndex: nat,
    lastApplied: nat,
    nextIndex: seq<int>,
    matchIndex: seq<int>,
    discardCount: nat,
    snapshot: Snapshot,
    lastIncludedIndex: nat,
    applySnapPending: bool,
    votes: nat,               // the counter of the running election
    disk: Disk)
  {
    predicate WellFormed() {
      && 1 <= |logs|
      && 1 <= |disk.logs|
      && me < n
      && |nextIndex| == n
      && |matchIndex| == n
      && discardCount == lastIncludedIndex
    }

    function RealIndex(raftIndex: int): int { raftIndex - discardCount }

    function RaftIndex(realIndex: nat): nat { realIndex + discardCount }

    function LastIndex(): nat
      requires 1 <= |logs|
    {
      RaftIndex(|logs| - 1)
    }

    function Persist(): Server {
      this.(disk := Disk(currentTerm, voteFor, logs, snapshot))
    }

    // A higher term was seen: become its follower, not having voted in it.
    function StepDown(term: nat): Server {
      this.(currentTerm := term, identity := Follower, voteFor := Unvote)
    }
  }

  datatype Outcome<+T> = Done(value: T) | Panic

  datatype VoteArgs = VoteArgs(term: nat, candidateId: nat, lastLogIndex: nat, lastLogTerm: nat)
  datatype VoteReply = VoteReply(term: nat, granted: bool)

  datatype AppendArgs = AppendArgs(
    term: nat, leaderId: nat, prevLogIndex: nat, prevLogTerm: nat, entries: Log, leaderCommit: nat)
  datatype AppendReply = AppendReply(term: nat, success: bool, xTerm: nat, xIndex: int, xLen: nat)

  datatype SnapArgs = SnapArgs(
    term: nat, leaderId: nat, lastIncludedIndex: nat, lastIncludedTerm: nat, data: Snapshot)
  datatype SnapReply = SnapReply(term: nat)

  datatype ApplyMsg =
    | CommandMsg(index: nat, command: Command)
    | SnapshotMsg(index: nat, term: nat, snapshot: Snapshot)

  // ---------------------------------------------------------------------------------------
  // Start-up
  // ---------------------------------------------------------------------------------------

  const BlankDisk := Disk(0, Unvote, [Root], NoSnapshot)

  // Make: a peer comes up with what its persister holds.
  function Boot(n: nat, me: nat, disk: Disk): Server {
    var covered := if disk.snapshot.Snapshot? then disk.snapshot.lastIncludedIndex else 0;
    Server(n, me, disk.term, Follower, disk.voteFor, disk.logs, covered, covered,
           seq(n, _ => 0), seq(n, _ => 0), covered, disk.snapshot, covered, false, 0, disk)
  }

  // ---------------------------------------------------------------------------------------
  // Elections
  // ---------------------------------------------------------------------------------------

  // The election timer fires on a peer that is not leader.
  function Campaign(s: Server): Server {
    s.(currentTerm := s.currentTerm + 1, identity := Candidate, voteFor := s.me, votes := 1).Persist()
  }

  function VoteRequest(s: Server): VoteArgs
    requires 1 <= |s.logs|
  {
    VoteArgs(s.currentTerm, s.me, s.LastIndex(), s.logs[|s.logs| - 1].term)
  }

  predicate UpToDate(args: VoteArgs, lastIndex: nat, lastTerm: nat) {
    args.lastLogTerm > lastTerm || (args.lastLogTerm == lastTerm && args.lastLogIndex >= lastIndex)
  }

  function HandleVote(s: Server, args: VoteArgs): (Server, VoteReply)
    requires 1 <= |s.logs|
  {
    if args.term < s.currentTerm
       || (args.term == s.currentTerm && s.voteFor != Unvote && s.voteFor != args.candidateId) then
      (s.Persist(), VoteReply(s.currentTerm, false))
    else
      var s1 := if args.term > s.currentTerm then s.StepDown(args.term) else s;
      if UpToDate(args, s1.LastIndex(), s1.logs[|s1.logs| - 1].term) then
        (s1.(identity := Follower, voteFor := args.candidateId).Persist(), VoteReply(args.term, true))
      else
        (s1.Persist(), VoteReply(args.term, false))
  }

  // A reply to this peer's own vote request.
  function HandleVoteReply(s: Server, reply: VoteReply): Server
    requires 1 <= |s.logs|
  {
    if reply.term < s.currentTerm then s
    else if reply.term > s.currentTerm then s.StepDown(reply.term).Persist()
    else if !reply.granted then s
    else
      var s1 := s.(votes := s.votes + 1);
      if s1.votes * 2 > s1.n && s1.identity == Candidate then
        s1.(identity := Leader,
            nextIndex := seq(s1.n, _ => s1.RaftIndex(|s1.logs|)),
            matchIndex := seq(s1.n, _ => 0))
      else
        s1
  }

  // ---------------------------------------------------------------------------------------
  // Searching a log by term
  // ---------------------------------------------------------------------------------------

  // The binary search of findFirstIndex, from the window [low, high].
  function Search(logs: Log, term: nat, low: nat, high: nat): (k: nat)
    requires low <= high < |logs|
    ensures low <= k <= |logs|
    decreases high - low
  {
    if low < high then
      var mid := (low + high) / 2;
      if logs[mid].term >= term then Search(logs, term, low, mid) else Search(logs, term, mid + 1, high)
    else if logs[high].term < term then |logs|
    else high
  }

  function FindFirst(logs: Log, term: nat): (k: nat)
    requires 1 <= |logs|
    ensures k <= |logs|
  {
    Search(logs, term, 0, |logs| - 1)
  }

  predicate Sorted(logs: Log) {
    forall i, j :: 0 <= i <= j < |logs| ==> logs[i].term <= logs[j].term
  }

  // On a log whose terms never decrease, findFirstIndex finds the first entry of term at
  // least `term`, and the length of the log when there is none.
  lemma {:induction false} SearchFindsFirst(logs: Log, term: nat, low: nat, high: nat)
    requires Sorted(logs)
    requires low <= high < |logs|
    requires forall i :: 0 <= i < low ==> logs[i].term < term
    requires high == |logs| - 1 || logs[high].term >= term
    ensures var k := Search(logs, term, low, high);
            && (forall i :: 0 <= i < k ==> logs[i].term < term)
            && (forall i :: k <= i < |logs| ==> term <= logs[i].term)
    decreases high - low
  {
    if low < high {
      var mid := (low + high) / 2;
      if logs[mid].term >= term {
        SearchFindsFirst(logs, term, low, mid);
      } else {
        SearchFindsFirst(logs, term, mid + 1, high);
      }
    }
  }

  lemma FindFirstOnSorted(logs: Log, term: nat)
    requires Sorted(logs) && 1 <= |logs|
    ensures var k := FindFirst(logs, term);
            && (forall i :: 0 <= i < k ==> logs[i].term < term)
            && (forall i :: k <= i < |logs| ==> term <= logs[i].term)
  {
    SearchFindsFirst(logs, term, 0, |logs| - 1);
  }

  // ---------------------------------------------------------------------------------------
  // Replication, follower side
  // ---------------------------------------------------------------------------------------

  // Whether the entries, laid over the log from position `at`, disagree with it on a term.
  predicate Conflicts(logs: Log, at: nat, entries: Log) {
    exists k :: 0 <= k < |entries| && at + k < |logs| && logs[at + k].term != entries[k].term
  }

  // The log after the entries are stored from position `at`: a conflict removes the old tail,
  // otherwise entries beyond the new ones stay.
  function Merge(logs: Log, at: nat, entries: Log): Log
    requires at <= |logs|
  {
    if Conflicts(logs, at, entries) || |logs| <= at + |entries| then
      logs[..at] + entries
    else
      logs[..at] + entries + logs[at + |entries|..]
  }

  predicate ReplicateCheck(s: Server, args: AppendArgs)
    requires 1 <= |s.logs|
  {
    var prev := s.RealIndex(args.prevLogIndex);
    if prev < 0 then false
    else if prev == 0 then s.lastIncludedIndex == args.prevLogIndex && s.logs[0].term == args.prevLogTerm
    else prev < |s.logs| && s.logs[prev].term == args.prevLogTerm
  }

  // The rejection of a request whose previous entry is not in the log.
  function Reject(s: Server, args: AppendArgs): Outcome<AppendReply>
    requires 1 <= |s.logs|
  {
    var prev := s.RealIndex(args.prevLogIndex);
    if prev < 0 then
      Done(AppendReply(s.currentTerm, true, 0, 0, 0))
    else if prev >= |s.logs| then
      Done(AppendReply(s.currentTerm, false, 0, InvalidIndex, s.RaftIndex(|s.logs|)))
    else
      var xTerm := s.logs[prev].term;
      var index := FindFirst(s.logs, xTerm);
      if index == |s.logs| || s.logs[index].term != xTerm then Panic
      else Done(AppendReply(s.currentTerm, false, xTerm, s.RaftIndex(index), s.RaftIndex(|s.logs|)))
  }

  function Min(a: nat, b: nat): nat { if a <= b then a else b }

  // The follower's commit index after it accepted the request (its log already merged).
  function FollowerCommit(s: Server, args: AppendArgs): nat
    requires 1 <= |s.logs|
  {
    if args.leaderCommit <= s.committedIndex then s.committedIndex
    else if |args.entries| > 0 then Min(args.leaderCommit, args.prevLogIndex + 1)
    else Min(args.leaderCommit, s.LastIndex())
  }

  function Accept(s: Server, args: AppendArgs): Server
    requires s.WellFormed()
    requires ReplicateCheck(s, args)
  {
    var s1 := if |args.entries| > 0 then
                s.(logs := Merge(s.logs, s.RealIndex(args.prevLogIndex) + 1, args.entries))
              else s;
    s1.(committedIndex := FollowerCommit(s1, args))
  }

  // A leader of a term not below this peer's is heard of.
  function FollowLeader(s: Server, term: nat): Server {
    if s.currentTerm < term then s.StepDown(term) else s.(identity := Follower)
  }

  function HandleAppend(s: Server, args: AppendArgs): Outcome<(Server, AppendReply)>
    requires s.WellFormed()
  {
    if s.currentTerm > args.term then
      Done((s.Persist(), AppendReply(s.currentTerm, false, 0, 0, 0)))
    else
      var s1 := FollowLeader(s, args.term);
      if ReplicateCheck(s1, args) then
        Done((Accept(s1, args).Persist(), AppendReply(args.term, true, 0, 0, 0)))
      else
        match Reject(s1, args)
        case Panic => Panic
        case Done(reply) => Done((s1.Persist(), reply))
  }

  // ---------------------------------------------------------------------------------------
  // What a follower's log holds after it accepted
  // ---------------------------------------------------------------------------------------

  // Entry k of the request is the one the log has at its index.
  predicate IsAt(s: Server, a: AppendArgs, k: nat)
    requires k < |a.entries|
  {
    var at := s.RealIndex(a.prevLogIndex + 1 + k);
    0 < at < |s.logs| && s.logs[at] == a.entries[k]
  }

  lemma MergeKeepsBefore(logs: Log, at: nat, entries: Log, i: nat)
    requires at <= |logs| && i < at + |entries|
    ensures i < |Merge(logs, at, entries)|
    ensures Merge(logs, at, entries)[i] == if i < at then logs[i] else entries[i - at]
  {
  }

  lemma MergeKeepsAfter(logs: Log, at: nat, entries: Log, i: nat)
    requires at <= |logs| && at + |entries| <= i < |logs| && !Conflicts(logs, at, entries)
    ensures i < |Merge(logs, at, entries)| && Merge(logs, at, entries)[i] == logs[i]
  {
  }

  // The log once the request is accepted.
  function Merged(s: Server, a: AppendArgs): Log
    requires 1 <= |s.logs| && ReplicateCheck(s, a)
  {
    if |a.entries| > 0 then Merge(s.logs, s.RealIndex(a.prevLogIndex) + 1, a.entries) else s.logs
  }

  lemma MergeHasEntry(s: Server, a: AppendArgs, k: nat)
    requires 1 <= |s.logs| && ReplicateCheck(s, a) && k < |a.entries|
    ensures var j := s.RealIndex(a.prevLogIndex + 1 + k); 0 < j < |Merged(s, a)| && Merged(s, a)[j] == a.entries[k]
  {
    var at := s.RealIndex(a.prevLogIndex) + 1;
    MergeKeepsBefore(s.logs, at, a.entries, at + k);
  }

  lemma MergeKeepsPrefix(s: Server, a: AppendArgs, i: nat)
    requires 1 <= |s.logs| && ReplicateCheck(s, a) && s.discardCount < i <= a.prevLogIndex && s.RealIndex(i) < |s.logs|
    ensures s.RealIndex(i) < |Merged(s, a)| && Merged(s, a)[s.RealIndex(i)] == s.logs[s.RealIndex(i)]
  {
    if |a.entries| > 0 {
      MergeKeepsBefore(s.logs, s.RealIndex(a.prevLogIndex) + 1, a.entries, s.RealIndex(i));
    }
  }

  lemma AcceptTakes(s: Server, a: AppendArgs)
    requires s.WellFormed() && ReplicateCheck(s, a)
    ensures Accept(s, a) == s.(logs := Merged(s, a), committedIndex := Accept(s, a).committedIndex)
    ensures var ci := Accept(s, a).committedIndex;
            ci == s.committedIndex || (ci <= a.leaderCommit && (a.entries == [] || ci <= a.prevLogIndex + 1))
  {
    if |a.entries| > 0 {
      var s1 := s.(logs := Merged(s, a));
      assert Accept(s, a) == s1.(committedIndex := FollowerCommit(s1, a));
    }
  }

  // ---------------------------------------------------------------------------------------
  // Replication, leader side
  // ---------------------------------------------------------------------------------------

  // Start, on a leader.
  function StartCommand(s: Server, command: Command): Server {
    s.(logs := s.logs + [LogEntry(command, s.currentTerm)]).Persist()
  }

  datatype Outgoing = SendAppend(append: AppendArgs) | SendSnapshot(install: SnapArgs)

  // What sendHeartBeat sends to peer j.
  function HeartBeatTo(s: Server, j: nat): Outcome<Outgoing>
    requires s.WellFormed() && j < s.n
  {
    if s.nextIndex[j] <= s.lastIncludedIndex then
      Done(SendSnapshot(SnapArgs(s.currentTerm, s.me, s.lastIncludedIndex, s.logs[0].term, s.snapshot)))
    else if s.LastIndex() >= s.nextIndex[j] then
      var prev := s.RealIndex(s.nextIndex[j] - 1);
      if prev < 0 then Panic
      else Done(SendAppend(AppendArgs(s.currentTerm, s.me, s.nextIndex[j] - 1, s.logs[prev].term,
                                      s.logs[prev + 1..], s.committedIndex)))
    else
      Done(SendAppend(AppendArgs(s.currentTerm, s.me, s.LastIndex(), s.logs[|s.logs| - 1].term,
                                 [], s.committedIndex)))
  }

  // Peers other than `me` among the first `upTo` known to hold the log through `index`.
  function MatchCount(s: Server, index: int, upTo: nat): nat
    requires upTo <= |s.matchIndex|
  {
    if upTo == 0 then 0
    else MatchCount(s, index, upTo - 1) + (if upTo - 1 != s.me && s.matchIndex[upTo - 1] >= index then 1 else 0)
  }

  // The peers that hold `index`, this one included, are more than half, and one of them is
  // another peer (the code tests the majority only after it counted one).
  predicate HasMajority(s: Server, index: int)
    requires |s.matchIndex| == s.n
  {
    var others := MatchCount(s, index, s.n);
    0 < others && 2 * (1 + others) > s.n
  }

  // The commit index after scanning positions from `at` down to `low`.
  function ScanCommit(s: Server, low: nat, at: int): nat
    requires |s.matchIndex| == s.n
    decreases at
  {
    if at < low || s.RaftIndex(at) <= s.committedIndex then s.committedIndex
    else if HasMajority(s, s.RaftIndex(at)) then s.RaftIndex(at)
    else ScanCommit(s, low, at - 1)
  }

  function UpdateCommitted(s: Server): Outcome<Server>
    requires s.WellFormed()
  {
    var low := FindFirst(s.logs, s.currentTerm);
    if low == |s.logs| || s.logs[low].term != s.currentTerm then Done(s)
    else
      var high := FindFirst(s.logs, s.currentTerm + 1);
      if low >= high || s.logs[high - 1].term != s.currentTerm then Panic
      else Done(s.(committedIndex := ScanCommit(s, low, high - 1)))
  }

  // Where the leader probes next after peer j rejected a request.
  function BackOff(s: Server, reply: AppendReply): Outcome<int>
    requires 1 <= |s.logs|
  {
    if reply.xIndex == InvalidIndex then Done(reply.xLen)
    else
      var index := FindFirst(s.logs, reply.xTerm);
      if index == |s.logs| || s.logs[index].term != reply.xTerm then Done(reply.xIndex)
      else
        var index2 := FindFirst(s.logs, reply.xTerm + 1);
        if index2 == 0 || s.logs[index2 - 1].term != reply.xTerm then Panic
        else Done(s.RaftIndex(index2 - 1))
  }

  // Peer j stored the log through `last`.
  function Acknowledge(s: Server, j: nat, last: nat): (s': Server)
    requires s.WellFormed() && j < s.n
    ensures s'.WellFormed()
  {
    s.(matchIndex := s.matchIndex[j := last], nextIndex := s.nextIndex[j := last + 1])
  }

  // The reply to a request this peer sent to j.
  function HandleAppendReply(s: Server, j: nat, args: AppendArgs, reply: AppendReply): Outcome<Server>
    requires s.WellFormed() && j < s.n
  {
    if reply.term < s.currentTerm then Done(s)
    else if !reply.success then
      if reply.term > args.term then
        if reply.term > s.currentTerm then Done(s.StepDown(reply.term).Persist()) else Done(s)
      else
        match BackOff(s, reply)
        case Panic => Panic
        case Done(next) => Done(s.(nextIndex := s.nextIndex[j := next]))
    else if |args.entries| > 0 && args.prevLogIndex + 1 == s.nextIndex[j] then
      UpdateCommitted(Acknowledge(s, j, args.prevLogIndex + |args.entries|))
    else
      Done(s)
  }

  // ---------------------------------------------------------------------------------------
  // Snapshots
  // ---------------------------------------------------------------------------------------

  // doSnapshot: lastIncludedIndex is already the new one, discardCount still the old one.
  function Trim(s: Server): Server
    requires 1 <= |s.logs|
  {
    var covered := s.lastIncludedIndex - s.discardCount;
    var cnt := if covered < 0 then 0 else Min(covered, |s.logs| - 1);
    s.(logs := s.logs[cnt..], discardCount := s.lastIncludedIndex).Persist()
  }

  // The service hands over a snapshot that covers everything through `index`.
  function TakeSnapshot(s: Server, index: nat, data: string): Server
    requires 1 <= |s.logs|
  {
    if index <= s.lastIncludedIndex then s
    else
      Trim(s.(committedIndex := if s.committedIndex <= index then index else s.committedIndex,
              lastApplied := if s.lastApplied <= index then index else s.lastApplied,
              lastIncludedIndex := index,
              snapshot := Snapshot(index, data)))
  }

  function HandleSnapshot(s: Server, args: SnapArgs): (Server, SnapReply)
    requires 1 <= |s.logs|
  {
    if args.term < s.currentTerm then (s, SnapReply(s.currentTerm))
    else
      var s1 := FollowLeader(s, args.term);
      if s1.lastIncludedIndex >= args.lastIncludedIndex then (s1, SnapReply(args.term))
      else
        var at := s1.RealIndex(args.lastIncludedIndex);
        var keep := 0 < at < |s1.logs| && s1.logs[at].term == args.lastIncludedTerm;
        var s2 := s1.(lastIncludedIndex := args.lastIncludedIndex, snapshot := args.data,
                      logs := if keep then s1.logs else [LogEntry("", args.lastIncludedTerm)]);
        (Trim(s2).(applySnapPending := true), SnapReply(args.term))
  }

  function HandleSnapshotReply(s: Server, j: nat, args: SnapArgs, reply: SnapReply): Server
    requires s.WellFormed() && j < s.n
  {
    if reply.term < s.currentTerm then s
    else if reply.term > s.currentTerm then s.StepDown(reply.term).Persist()
    else if s.matchIndex[j] <= args.lastIncludedIndex then
      s.(matchIndex := s.matchIndex[j := args.lastIncludedIndex],
         nextIndex := s.nextIndex[j := args.lastIncludedIndex + 1])
    else s
  }

  // ---------------------------------------------------------------------------------------
  // The apply loop
  // ---------------------------------------------------------------------------------------

  // The commands with index in (lo, hi], of a log whose first entry has index `base`.
  function Commands(logs: Log, base: nat, lo: nat, hi: nat): seq<ApplyMsg>
    requires base <= lo && hi < base + |logs|
    decreases hi
  {
    if hi <= lo then []
    else Commands(logs, base, lo, hi - 1) + [CommandMsg(hi, logs[hi - base].command)]
  }

  predicate ApplyReady(s: Server) { s.applySnapPending || s.lastApplied < s.committedIndex }

  // One round of the apply loop: the messages it will put on the apply channel, in order.
  function ApplyRound(s: Server): Outcome<(Server, seq<ApplyMsg>)>
    requires s.WellFormed()
  {
    var first := if s.applySnapPending then [SnapshotMsg(s.lastIncludedIndex, s.logs[0].term, s.snapshot)] else [];
    var s1 := s.(applySnapPending := false);
    if s.lastApplied >= s.committedIndex then Done((s1, first))
    else
      var from := if s.lastApplied < s.lastIncludedIndex then s.lastIncludedIndex else s.lastApplied;
      if from >= s.committedIndex then Done((s1.(lastApplied := from), first))
      else if s.committedIndex > s.LastIndex() then Panic
      else Done((s1.(lastApplied := s.committedIndex),
                 first + Commands(s.logs, s.discardCount, from, s.committedIndex)))
  }
}

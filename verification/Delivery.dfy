/**
 What reaches the service of one server over its apply channel (src/raft/raft.go, the apply
 loop and the snapshot paths; src/kvraft/server.go, execOp, applySnapshot, restoreState):
 every command has the next index, whatever mix of snapshots taken, snapshots installed, stale
 snapshots delivered, lowered commit indices and restarts came before.

 The log is compared with one sequence of committed commands, given from outside.  Every handler
 of raft.go is a step that runs it.  The provisos are about the message and the state it meets: no
 message contradicts an entry the server has marked committed or calls a wrong one committed, and
 what a leader newly counts as committed is.
 */
module Delivery {
  import opened RaftServer

  // A deterministic service, with the encoding of its snapshots.
  datatype Service<!K> = Service(init: K, exec: (K, Command) -> K, encode: K -> string, decode: string -> K)

  ghost predicate RoundTrips<K(!new)>(m: Service<K>) {
    forall k :: m.decode(m.encode(k)) == k
  }

  // The committed commands, from index 1 on.
  type Truth = nat -> Command

  // The state after the first n committed commands.
  ghost function Fold<K>(m: Service<K>, truth: Truth, n: nat): K {
    if n == 0 then m.init else m.exec(Fold(m, truth, n - 1), truth(n))
  }

  // ---------------------------------------------------------------------------------------
  // The service's end of the channel
  // ---------------------------------------------------------------------------------------

  datatype Replica<K> = Replica(lastApplied: nat, state: K)

  function Receive<K>(m: Service<K>, r: Replica<K>, msg: ApplyMsg): Outcome<Replica<K>> {
    match msg
    case CommandMsg(index, command) =>
      if r.lastApplied + 1 != index then Panic else Done(Replica(index, m.exec(r.state, command)))
    case SnapshotMsg(index, _, snapshot) =>
      if snapshot.NoSnapshot? || snapshot.lastIncludedIndex != index then Panic
      else if index < r.lastApplied then Done(r)
      else Done(Replica(index, m.decode(snapshot.data)))
  }

  // After a restart the service starts from the saved snapshot.
  function Restore<K>(m: Service<K>, snapshot: Snapshot): Replica<K> {
    match snapshot
    case NoSnapshot => Replica(0, m.init)
    case Snapshot(index, data) => Replica(index, m.decode(data))
  }

  // ---------------------------------------------------------------------------------------
  // One server
  // ---------------------------------------------------------------------------------------

  // The Raft state, the service, the messages on their way between them, and the snapshots the
  // service has encoded but not handed to Raft yet.
  datatype Node<K> = Node(raft: Server, replica: Replica<K>, channel: seq<ApplyMsg>, taken: seq<Replica<K>>)

  datatype Step =
    | Timeout
    | Vote(vote: VoteArgs)
    | VoteBack(granted: VoteReply)
    | Begin(command: Command)
    | Append(entries: AppendArgs)
    | AppendBack(peer: nat, sent: AppendArgs, answer: AppendReply)
    | SnapBack(peer: nat, given: SnapArgs, taken: SnapReply)
    | Collect
    | Deliver
    | Encode
    | Compact(k: nat)
    | Install(args: SnapArgs)
    | Restart

  // The larger of the two indices a server may have applied through.
  function Top(a: nat, b: nat): nat {
    if a < b then b else a
  }

  // The log holds the committed commands through index n.
  ghost predicate Holds(s: Server, truth: Truth, n: nat) {
    && 1 <= |s.logs| && (n <= s.discardCount || n <= s.LastIndex())
    && forall i: nat :: s.discardCount < i <= n ==> EntryIs(s, truth, i)
  }

  ghost predicate EntryIs(s: Server, truth: Truth, i: nat) {
    0 < s.RealIndex(i) < |s.logs| && s.logs[s.RealIndex(i)].command == truth(i)
  }

  // What has been marked committed is in the log, or covered by the snapshot.
  ghost predicate Consistent(s: Server, truth: Truth) {
    Holds(s, truth, Top(s.lastApplied, s.committedIndex))
  }

  ghost predicate GoodSnapshot<K>(m: Service<K>, truth: Truth, snapshot: Snapshot) {
    snapshot.Snapshot? ==> snapshot.data == m.encode(Fold(m, truth, snapshot.lastIncludedIndex))
  }

  function Covered(snapshot: Snapshot): nat {
    if snapshot.Snapshot? then snapshot.lastIncludedIndex else 0
  }

  // A handler that leaves snapshots and applied indices alone.
  ghost predicate Quiet(s: Server, t: Server) {
    && t.n == s.n && t.me == s.me && t.lastApplied == s.lastApplied && t.lastIncludedIndex == s.lastIncludedIndex
    && t.discardCount == s.discardCount && t.snapshot == s.snapshot && t.applySnapPending == s.applySnapPending
    && (t.disk.snapshot == s.disk.snapshot || t.disk.snapshot == s.snapshot)
  }

  // The snapshot in the message is one of the committed prefix, and the log does not contradict it.
  ghost predicate Agrees<K>(m: Service<K>, s: Server, truth: Truth, args: SnapArgs) {
    && args.lastIncludedIndex > 0
    && args.data == Snapshot(args.lastIncludedIndex, m.encode(Fold(m, truth, args.lastIncludedIndex)))
    && (s.lastIncludedIndex < args.lastIncludedIndex <= Top(s.lastApplied, s.committedIndex) ==>
          0 <= s.RealIndex(args.lastIncludedIndex) < |s.logs|
          && s.logs[s.RealIndex(args.lastIncludedIndex)].term == args.lastIncludedTerm)
  }

  // The last index marked committed so far; the commit index itself may be lowered.
  function Marked(s: Server): nat {
    Top(s.lastApplied, s.committedIndex)
  }

  // The request contradicts nothing this server has marked committed, and what it calls committed
  // is: its own entries, and those of a log that has the entry before them.
  ghost predicate Harmless(s: Server, truth: Truth, a: AppendArgs)
    requires 1 <= |s.logs|
  {
    && (forall k: nat :: k < |a.entries| && s.discardCount < a.prevLogIndex + 1 + k <= Marked(s) ==> IsAt(s, a, k))
    && (forall k: nat :: k < |a.entries| && a.prevLogIndex + 1 + k <= a.leaderCommit ==>
          a.entries[k].command == truth(a.prevLogIndex + 1 + k))
    && (ReplicateCheck(s, a) ==> Holds(s, truth, Min(a.leaderCommit, a.prevLogIndex)))
    && (a.entries == [] ==> a.leaderCommit <= a.prevLogIndex)
  }

  // What this reply makes a leader count as committed is.
  ghost predicate CommitsTruly(s: Server, truth: Truth, j: nat, a: AppendArgs, r: AppendReply)
    requires s.WellFormed() && j < s.n
  {
    var o := HandleAppendReply(s, j, a, r);
    o.Done? && s.committedIndex < o.value.committedIndex ==> Holds(s, truth, o.value.committedIndex)
  }

  ghost predicate Enabled<K>(m: Service<K>, truth: Truth, x: Node<K>, step: Step)
    requires x.raft.WellFormed()
  {
    match step
    case Timeout => x.raft.identity != Leader
    case Vote(_) => true
    case VoteBack(_) => true
    case Begin(_) => x.raft.identity == Leader
    case Append(a) => a.term >= x.raft.currentTerm ==> Harmless(x.raft, truth, a)
    case AppendBack(j, a, r) => j < x.raft.n && CommitsTruly(x.raft, truth, j, a, r)
    case SnapBack(j, _, _) => j < x.raft.n
    case Collect => ApplyReady(x.raft)
    case Deliver => x.channel != []
    case Encode => true
    case Compact(k) => k < |x.taken|
    case Install(args) => Agrees(m, x.raft, truth, args)
    case Restart => true
  }

  // The server comes back with what Raft had on disk.
  function Reborn<K>(m: Service<K>, s: Server): Node<K> {
    Node(Boot(s.n, s.me, s.disk), Restore(m, s.disk.snapshot), [], [])
  }

  // A panic in a handler of Raft brings the server down and up again; one in the apply loop or in
  // the service is the outcome this module is about.
  ghost function Next<K>(m: Service<K>, truth: Truth, x: Node<K>, step: Step): Outcome<Node<K>>
    requires x.raft.WellFormed() && Enabled(m, truth, x, step)
  {
    var s := x.raft;
    match step
    case Timeout => Done(x.(raft := Campaign(s)))
    case Vote(args) => Done(x.(raft := HandleVote(s, args).0))
    case VoteBack(reply) => Done(x.(raft := HandleVoteReply(s, reply)))
    case Begin(command) => Done(x.(raft := StartCommand(s, command)))
    case Append(a) =>
      (match HandleAppend(s, a)
       case Panic => Done(Reborn(m, FollowLeader(s, a.term).Persist()))
       case Done(r) => Done(x.(raft := r.0)))
    case AppendBack(j, a, r) =>
      (match HandleAppendReply(s, j, a, r)
       case Panic => Done(Reborn(m, s))
       case Done(t) => Done(x.(raft := t)))
    case SnapBack(j, args, reply) => Done(x.(raft := HandleSnapshotReply(s, j, args, reply)))
    case Collect =>
      (match ApplyRound(s)
       case Panic => Panic
       case Done(r) => Done(x.(raft := r.0, channel := x.channel + r.1)))
    case Deliver =>
      (match Receive(m, x.replica, x.channel[0])
       case Panic => Panic
       case Done(r) => Done(x.(replica := r, channel := x.channel[1..])))
    case Encode => Done(x.(taken := x.taken + [x.replica]))
    case Compact(k) => Done(x.(raft := TakeSnapshot(s, x.taken[k].lastApplied, m.encode(x.taken[k].state))))
    case Install(args) => Done(x.(raft := HandleSnapshot(s, args).0))
    case Restart => Done(Reborn(m, s))
  }

  // ---------------------------------------------------------------------------------------
  // Messages in order
  // ---------------------------------------------------------------------------------------

  function After(from: nat, msg: ApplyMsg): nat {
    if msg.CommandMsg? then msg.index else Top(from, msg.index)
  }

  // How far the service will be when it has received the messages.
  function End(from: nat, msgs: seq<ApplyMsg>): nat
    decreases |msgs|
  {
    if msgs == [] then from else End(After(from, msgs[0]), msgs[1..])
  }

  ghost predicate Good<K>(m: Service<K>, truth: Truth, from: nat, msg: ApplyMsg) {
    match msg
    case CommandMsg(index, command) => index == from + 1 && command == truth(index)
    case SnapshotMsg(index, _, snapshot) =>
      snapshot.Snapshot? && snapshot.lastIncludedIndex == index && GoodSnapshot(m, truth, snapshot)
  }

  // Every command is the next one, every snapshot one of the committed prefix.
  ghost predicate InOrder<K>(m: Service<K>, truth: Truth, from: nat, msgs: seq<ApplyMsg>)
    decreases |msgs|
  {
    msgs == [] || (Good(m, truth, from, msgs[0]) && InOrder(m, truth, After(from, msgs[0]), msgs[1..]))
  }

  lemma {:induction false} InOrderAppends<K>(m: Service<K>, truth: Truth, from: nat, a: seq<ApplyMsg>, b: seq<ApplyMsg>)
    requires InOrder(m, truth, from, a) && InOrder(m, truth, End(from, a), b)
    ensures InOrder(m, truth, from, a + b) && End(from, a + b) == End(End(from, a), b)
    decreases |a|
  {
    if a == [] {
      assert a + b == b;
    } else {
      InOrderAppends(m, truth, After(from, a[0]), a[1..], b);
      assert (a + b)[1..] == a[1..] + b && (a + b)[0] == a[0];
    }
  }

  lemma {:induction false} EndIsLater<K>(m: Service<K>, truth: Truth, from: nat, msgs: seq<ApplyMsg>)
    requires InOrder(m, truth, from, msgs)
    ensures End(from, msgs) >= from
    decreases |msgs|
  {
    if msgs != [] {
      EndIsLater(m, truth, After(from, msgs[0]), msgs[1..]);
    }
  }

  lemma OneInOrder<K>(m: Service<K>, truth: Truth, from: nat, msg: ApplyMsg)
    requires Good(m, truth, from, msg)
    ensures InOrder(m, truth, from, [msg]) && End(from, [msg]) == After(from, msg)
  {
    assert [msg][1..] == [];
  }

  lemma {:induction false} CommandsInOrder<K>(m: Service<K>, truth: Truth, s: Server, lo: nat, hi: nat)
    requires s.discardCount <= lo && hi < s.discardCount + |s.logs|
    requires forall i: nat :: s.discardCount < i <= hi ==> EntryIs(s, truth, i)
    ensures InOrder(m, truth, lo, Commands(s.logs, s.discardCount, lo, hi))
    ensures End(lo, Commands(s.logs, s.discardCount, lo, hi)) == Top(lo, hi)
    decreases hi
  {
    if hi > lo {
      CommandsInOrder(m, truth, s, lo, hi - 1);
      assert EntryIs(s, truth, hi);
      var last := [CommandMsg(hi, s.logs[hi - s.discardCount].command)];
      OneInOrder(m, truth, hi - 1, last[0]);
      InOrderAppends(m, truth, lo, Commands(s.logs, s.discardCount, lo, hi - 1), last);
    }
  }

  // ---------------------------------------------------------------------------------------
  // The invariant
  // ---------------------------------------------------------------------------------------

  ghost predicate RaftOk<K>(m: Service<K>, truth: Truth, s: Server) {
    && s.WellFormed() && Consistent(s, truth)
    && GoodSnapshot(m, truth, s.snapshot) && Covered(s.snapshot) == s.lastIncludedIndex
    && GoodSnapshot(m, truth, s.disk.snapshot) && (s.applySnapPending ==> s.snapshot.Snapshot?)
  }

  // The service, once it has received what is on its way, is where Raft thinks it is, except that
  // a snapshot may still be waiting to be sent.
  ghost predicate InStep(s: Server, end: nat) {
    && Top(end, s.lastIncludedIndex) == Top(s.lastApplied, s.lastIncludedIndex)
    && (!s.applySnapPending ==> end >= s.lastIncludedIndex)
  }

  ghost predicate NodeOk<K>(m: Service<K>, truth: Truth, x: Node<K>) {
    && RaftOk(m, truth, x.raft)
    && x.replica.state == Fold(m, truth, x.replica.lastApplied)
    && InOrder(m, truth, x.replica.lastApplied, x.channel)
    && InStep(x.raft, End(x.replica.lastApplied, x.channel))
    && forall k :: 0 <= k < |x.taken| ==>
         x.taken[k].lastApplied <= x.replica.lastApplied && x.taken[k].state == Fold(m, truth, x.taken[k].lastApplied)
  }

  // ---------------------------------------------------------------------------------------
  // The steps
  // ---------------------------------------------------------------------------------------

  // The same log and snapshot: nothing marked committed is lost.
  lemma SameLogHolds(s: Server, t: Server, truth: Truth, n: nat, k: nat)
    requires Holds(s, truth, n) && t.logs == s.logs && t.discardCount == s.discardCount
             && (k <= n || k <= s.discardCount)
    ensures Holds(t, truth, k)
  {
    forall i: nat | t.discardCount < i <= k ensures EntryIs(t, truth, i) {
      assert EntryIs(s, truth, i);
    }
  }

  // The snapshot message, if one is pending.
  function SnapshotFirst(s: Server): seq<ApplyMsg>
    requires s.WellFormed()
  {
    if s.applySnapPending then [SnapshotMsg(s.lastIncludedIndex, s.logs[0].term, s.snapshot)] else []
  }

  lemma SnapshotFirstInOrder<K>(m: Service<K>, truth: Truth, s: Server, end: nat)
    requires RaftOk(m, truth, s) && InStep(s, end)
    ensures InOrder(m, truth, end, SnapshotFirst(s))
    ensures End(end, SnapshotFirst(s)) == Top(s.lastApplied, s.lastIncludedIndex)
  {
    if s.applySnapPending {
      var msg := SnapshotMsg(s.lastIncludedIndex, s.logs[0].term, s.snapshot);
      assert Good(m, truth, end, msg);
      assert [msg][1..] == [];
    }
  }

  // The server after the round.
  lemma RoundServer<K>(m: Service<K>, truth: Truth, s: Server)
    requires RaftOk(m, truth, s)
    ensures ApplyRound(s).Done? && RaftOk(m, truth, ApplyRound(s).value.0)
  {
    var t := ApplyRound(s).value.0;
    SameLogHolds(s, t, truth, Top(s.lastApplied, s.committedIndex), Top(t.lastApplied, t.committedIndex));
  }

  // One round of the apply loop sends the snapshot, if one is pending, and then exactly the
  // commands after what the service will have.
  lemma RoundIs<K>(m: Service<K>, truth: Truth, s: Server, end: nat)
    requires RaftOk(m, truth, s) && InStep(s, end) && ApplyRound(s).Done?
    ensures InOrder(m, truth, end, ApplyRound(s).value.1)
    ensures InStep(ApplyRound(s).value.0, End(end, ApplyRound(s).value.1))
  {
    SnapshotFirstInOrder(m, truth, s, end);
    var from := Top(s.lastApplied, s.lastIncludedIndex);
    if s.lastApplied < s.committedIndex && from < s.committedIndex {
      CommandsInOrder(m, truth, s, from, s.committedIndex);
      InOrderAppends(m, truth, end, SnapshotFirst(s), Commands(s.logs, s.discardCount, from, s.committedIndex));
    }
  }

  lemma CollectKeeps<K>(m: Service<K>, truth: Truth, x: Node<K>)
    requires NodeOk(m, truth, x) && Enabled(m, truth, x, Collect)
    ensures Next(m, truth, x, Collect).Done? && NodeOk(m, truth, Next(m, truth, x, Collect).value)
  {
    var from := x.replica.lastApplied;
    RoundServer(m, truth, x.raft);
    RoundIs(m, truth, x.raft, End(from, x.channel));
    InOrderAppends(m, truth, from, x.channel, ApplyRound(x.raft).value.1);
  }

  lemma DeliverKeeps<K(!new)>(m: Service<K>, truth: Truth, x: Node<K>)
    requires RoundTrips(m) && NodeOk(m, truth, x) && Enabled(m, truth, x, Deliver)
    ensures Next(m, truth, x, Deliver).Done? && NodeOk(m, truth, Next(m, truth, x, Deliver).value)
  {
    var msg, r := x.channel[0], x.replica;
    assert Good(m, truth, r.lastApplied, msg);
    if msg.SnapshotMsg? {
      assert m.decode(m.encode(Fold(m, truth, msg.index))) == Fold(m, truth, msg.index);
    }
  }

  lemma TrimIs(s: Server, truth: Truth, n: nat)
    requires 1 <= |s.logs| && s.discardCount <= s.lastIncludedIndex <= n && Holds(s, truth, n)
    ensures Holds(Trim(s), truth, n)
  {
    var t := Trim(s);
    forall i: nat | t.discardCount < i <= n ensures EntryIs(t, truth, i) {
      assert EntryIs(s, truth, i);
    }
  }

  lemma CompactServer<K>(m: Service<K>, truth: Truth, s: Server, index: nat, end: nat)
    requires RaftOk(m, truth, s) && InStep(s, end) && s.lastIncludedIndex < index <= end
    ensures var t := TakeSnapshot(s, index, m.encode(Fold(m, truth, index))); RaftOk(m, truth, t) && InStep(t, end)
  {
    var s1 := s.(committedIndex := if s.committedIndex <= index then index else s.committedIndex,
                 lastApplied := if s.lastApplied <= index then index else s.lastApplied,
                 lastIncludedIndex := index, snapshot := Snapshot(index, m.encode(Fold(m, truth, index))));
    SameLogHolds(s, s1, truth, Marked(s), Marked(s1));
    TrimIs(s1, truth, Marked(s1));
  }

  lemma CompactKeeps<K>(m: Service<K>, truth: Truth, x: Node<K>, k: nat)
    requires NodeOk(m, truth, x) && Enabled(m, truth, x, Compact(k))
    ensures Next(m, truth, x, Compact(k)).Done? && NodeOk(m, truth, Next(m, truth, x, Compact(k)).value)
  {
    var index := x.taken[k].lastApplied;
    if index > x.raft.lastIncludedIndex {
      EndIsLater(m, truth, x.replica.lastApplied, x.channel);
      CompactServer(m, truth, x.raft, index, End(x.replica.lastApplied, x.channel));
    }
  }

  // The server after taking in the snapshot, its log kept or dropped.
  function TakenIn(s: Server, args: SnapArgs, keep: bool): Server {
    Trim(s.(lastIncludedIndex := args.lastIncludedIndex, snapshot := args.data,
            logs := if keep && 1 <= |s.logs| then s.logs else [LogEntry("", args.lastIncludedTerm)]))
  }

  lemma TakenInHolds(s: Server, truth: Truth, args: SnapArgs, n: nat, keep: bool)
    requires s.WellFormed() && Holds(s, truth, n) && s.lastIncludedIndex < args.lastIncludedIndex
    requires keep || n < args.lastIncludedIndex
    ensures Holds(TakenIn(s, args, keep), truth, n)
  {
    var s2 := s.(lastIncludedIndex := args.lastIncludedIndex, snapshot := args.data,
                 logs := if keep then s.logs else [LogEntry("", args.lastIncludedTerm)]);
    if args.lastIncludedIndex <= n {
      SameLogHolds(s, s2, truth, n, n);
      TrimIs(s2, truth, n);
    }
  }

  lemma TakenInIs(s: Server, args: SnapArgs, keep: bool)
    requires s.WellFormed()
    ensures var t := TakenIn(s, args, keep);
            && t.WellFormed() && t.lastIncludedIndex == args.lastIncludedIndex && t.snapshot == args.data
            && t.lastApplied == s.lastApplied && t.committedIndex == s.committedIndex && t.disk.snapshot == args.data
  {
  }

  lemma SnapshotTakesIn(s: Server, args: SnapArgs) returns (keep: bool)
    requires s.WellFormed() && args.term >= s.currentTerm && s.lastIncludedIndex < args.lastIncludedIndex
    ensures HandleSnapshot(s, args).0 == TakenIn(FollowLeader(s, args.term), args, keep).(applySnapPending := true)
    ensures keep <==> 0 < s.RealIndex(args.lastIncludedIndex) < |s.logs|
                      && s.logs[s.RealIndex(args.lastIncludedIndex)].term == args.lastIncludedTerm
  {
    var at := s.RealIndex(args.lastIncludedIndex);
    keep := 0 < at < |s.logs| && s.logs[at].term == args.lastIncludedTerm;
  }

  lemma FollowLeaderOk<K>(m: Service<K>, truth: Truth, s: Server, term: nat)
    requires RaftOk(m, truth, s)
    ensures RaftOk(m, truth, FollowLeader(s, term))
  {
    var n := Top(s.lastApplied, s.committedIndex);
    SameLogHolds(s, FollowLeader(s, term), truth, n, n);
  }

  lemma TakenInOk<K>(m: Service<K>, truth: Truth, s: Server, args: SnapArgs, keep: bool)
    requires RaftOk(m, truth, s) && s.lastIncludedIndex < args.lastIncludedIndex
    requires args.data == Snapshot(args.lastIncludedIndex, m.encode(Fold(m, truth, args.lastIncludedIndex)))
    requires keep || Top(s.lastApplied, s.committedIndex) < args.lastIncludedIndex
    ensures RaftOk(m, truth, TakenIn(s, args, keep).(applySnapPending := true))
  {
    var n, t := Top(s.lastApplied, s.committedIndex), TakenIn(s, args, keep);
    TakenInHolds(s, truth, args, n, keep);
    TakenInIs(s, args, keep);
    SameLogHolds(t, t.(applySnapPending := true), truth, n, n);
  }

  lemma InstallServer<K>(m: Service<K>, truth: Truth, s: Server, args: SnapArgs)
    requires RaftOk(m, truth, s) && Agrees(m, s, truth, args)
    ensures RaftOk(m, truth, HandleSnapshot(s, args).0)
  {
    FollowLeaderOk(m, truth, s, args.term);
    if args.term >= s.currentTerm && s.lastIncludedIndex < args.lastIncludedIndex {
      var keep := SnapshotTakesIn(s, args);
      TakenInOk(m, truth, FollowLeader(s, args.term), args, keep);
    }
  }

  lemma InstallInStep(s: Server, args: SnapArgs, end: nat)
    requires s.WellFormed() && InStep(s, end)
    ensures InStep(HandleSnapshot(s, args).0, end)
  {
  }

  lemma InstallKeeps<K>(m: Service<K>, truth: Truth, x: Node<K>, args: SnapArgs)
    requires NodeOk(m, truth, x) && Enabled(m, truth, x, Install(args))
    ensures Next(m, truth, x, Install(args)).Done? && NodeOk(m, truth, Next(m, truth, x, Install(args)).value)
  {
    InstallServer(m, truth, x.raft, args);
    InstallInStep(x.raft, args, End(x.replica.lastApplied, x.channel));
  }

  lemma RebornIsOk<K(!new)>(m: Service<K>, truth: Truth, s: Server)
    requires RoundTrips(m) && RaftOk(m, truth, s)
    ensures NodeOk(m, truth, Reborn(m, s))
  {
    var d := s.disk.snapshot;
    if d.Snapshot? {
      assert m.decode(m.encode(Fold(m, truth, d.lastIncludedIndex))) == Fold(m, truth, d.lastIncludedIndex);
    }
  }

  // ---------------------------------------------------------------------------------------
  // The handlers that leave snapshots and applied indices alone
  // ---------------------------------------------------------------------------------------

  lemma QuietIsOk<K>(m: Service<K>, truth: Truth, s: Server, t: Server)
    requires RaftOk(m, truth, s) && Quiet(s, t) && t.WellFormed() && Consistent(t, truth)
    ensures RaftOk(m, truth, t)
    ensures forall end: nat :: InStep(s, end) ==> InStep(t, end)
  {
  }

  // The log may grow; what is marked committed stays.
  lemma LongerLogIsOk<K>(m: Service<K>, truth: Truth, s: Server, t: Server)
    requires RaftOk(m, truth, s) && Quiet(s, t) && t.WellFormed() && s.logs <= t.logs && Marked(t) <= Marked(s)
    ensures RaftOk(m, truth, t)
    ensures forall end: nat :: InStep(s, end) ==> InStep(t, end)
  {
    forall i: nat | t.discardCount < i <= Marked(t) ensures EntryIs(t, truth, i) {
      assert EntryIs(s, truth, i);
    }
    QuietIsOk(m, truth, s, t);
  }

  // An election changes neither the log nor what is marked committed.
  lemma TimeoutKeeps<K>(m: Service<K>, truth: Truth, s: Server)
    requires RaftOk(m, truth, s)
    ensures RaftOk(m, truth, Campaign(s)) && forall end: nat :: InStep(s, end) ==> InStep(Campaign(s), end)
  {
    LongerLogIsOk(m, truth, s, Campaign(s));
  }

  lemma VoteKeeps<K>(m: Service<K>, truth: Truth, s: Server, args: VoteArgs)
    requires RaftOk(m, truth, s)
    ensures var t := HandleVote(s, args).0; RaftOk(m, truth, t) && forall end: nat :: InStep(s, end) ==> InStep(t, end)
  {
    VoteIs(s, args);
    LongerLogIsOk(m, truth, s, HandleVote(s, args).0);
  }

  lemma VoteIs(s: Server, args: VoteArgs)
    requires s.WellFormed()
    ensures var t := HandleVote(s, args).0; Quiet(s, t) && t.WellFormed() && t.logs == s.logs && Marked(t) == Marked(s)
  {
  }

  lemma VoteBackKeeps<K>(m: Service<K>, truth: Truth, s: Server, reply: VoteReply)
    requires RaftOk(m, truth, s)
    ensures var t := HandleVoteReply(s, reply);
            RaftOk(m, truth, t) && forall end: nat :: InStep(s, end) ==> InStep(t, end)
  {
    LongerLogIsOk(m, truth, s, HandleVoteReply(s, reply));
  }

  // No entry marked committed is dropped or replaced.
  lemma MergeKeepsMarked(s: Server, truth: Truth, a: AppendArgs, i: nat)
    requires 1 <= |s.logs| && ReplicateCheck(s, a) && Harmless(s, truth, a)
    requires s.discardCount < i <= Marked(s) && EntryIs(s, truth, i)
    ensures 0 < s.RealIndex(i) < |Merged(s, a)| && Merged(s, a)[s.RealIndex(i)] == s.logs[s.RealIndex(i)]
  {
    if i <= a.prevLogIndex {
      MergeKeepsPrefix(s, a, i);
    } else if i <= a.prevLogIndex + |a.entries| {
      assert IsAt(s, a, i - a.prevLogIndex - 1);
      MergeHasEntry(s, a, i - a.prevLogIndex - 1);
    } else if |a.entries| > 0 {
      MergeKeepsPast(s, truth, a, i);
    }
  }

  // Entries past those of the request stay when nothing conflicts.
  lemma MergeKeepsPast(s: Server, truth: Truth, a: AppendArgs, i: nat)
    requires 1 <= |s.logs| && ReplicateCheck(s, a) && Harmless(s, truth, a) && |a.entries| > 0
    requires a.prevLogIndex + |a.entries| < i <= Marked(s) && EntryIs(s, truth, i)
    ensures 0 < s.RealIndex(i) < |Merged(s, a)| && Merged(s, a)[s.RealIndex(i)] == s.logs[s.RealIndex(i)]
  {
    NoConflictUpTo(s, truth, a);
    MergeKeepsAfter(s.logs, s.RealIndex(a.prevLogIndex) + 1, a.entries, s.RealIndex(i));
  }

  lemma NoConflictUpTo(s: Server, truth: Truth, a: AppendArgs)
    requires 1 <= |s.logs| && ReplicateCheck(s, a) && Harmless(s, truth, a)
    requires a.prevLogIndex + |a.entries| < Marked(s)
    ensures !Conflicts(s.logs, s.RealIndex(a.prevLogIndex) + 1, a.entries)
  {
    var at := s.RealIndex(a.prevLogIndex) + 1;
    forall k: nat | k < |a.entries| && at + k < |s.logs|
      ensures s.logs[at + k].term == a.entries[k].term
    {
      assert IsAt(s, a, k);
    }
  }

  // What the request makes the server mark is there.
  lemma MergeHasMarked(s: Server, truth: Truth, a: AppendArgs, i: nat)
    requires 1 <= |s.logs| && ReplicateCheck(s, a) && Harmless(s, truth, a)
    requires s.discardCount < i <= a.leaderCommit && i <= a.prevLogIndex + 1
             && (a.entries == [] ==> i <= a.prevLogIndex)
    ensures 0 < s.RealIndex(i) < |Merged(s, a)| && Merged(s, a)[s.RealIndex(i)].command == truth(i)
  {
    if i <= a.prevLogIndex {
      assert EntryIs(s, truth, i);
      MergeKeepsPrefix(s, a, i);
    } else {
      assert a.entries[0].command == truth(a.prevLogIndex + 1 + 0);
      MergeHasEntry(s, a, 0);
    }
  }

  // A follower that accepts entries still has everything it has marked committed, even where the
  // commit index moves down.
  lemma AcceptHolds(s: Server, truth: Truth, a: AppendArgs)
    requires s.WellFormed() && Consistent(s, truth) && ReplicateCheck(s, a) && Harmless(s, truth, a)
    ensures Accept(s, a).WellFormed() && Quiet(s, Accept(s, a)) && Consistent(Accept(s, a), truth)
  {
    var t := Accept(s, a);
    AcceptTakes(s, a);
    forall i: nat | t.discardCount < i <= Marked(t) ensures EntryIs(t, truth, i) {
      if i <= Marked(s) {
        assert EntryIs(s, truth, i);
        MergeKeepsMarked(s, truth, a, i);
      } else {
        MergeHasMarked(s, truth, a, i);
      }
    }
    if t.discardCount < Marked(t) {
      assert EntryIs(t, truth, Marked(t));
    }
  }

  lemma SameForLeader(s: Server, truth: Truth, a: AppendArgs)
    requires s.WellFormed() && Harmless(s, truth, a)
    ensures Harmless(FollowLeader(s, a.term), truth, a)
  {
    var t := FollowLeader(s, a.term);
    forall k: nat | k < |a.entries| && t.discardCount < a.prevLogIndex + 1 + k <= Marked(t) ensures IsAt(t, a, k) {
      assert IsAt(s, a, k);
    }
    if ReplicateCheck(t, a) {
      var n := Min(a.leaderCommit, a.prevLogIndex);
      SameLogHolds(s, t, truth, n, n);
    }
  }

  lemma AppendKeeps<K>(m: Service<K>, truth: Truth, s: Server, a: AppendArgs)
    requires RaftOk(m, truth, s) && (a.term >= s.currentTerm ==> Harmless(s, truth, a)) && HandleAppend(s, a).Done?
    ensures RaftOk(m, truth, HandleAppend(s, a).value.0)
    ensures forall end: nat :: InStep(s, end) ==> InStep(HandleAppend(s, a).value.0, end)
  {
    var s1, t := FollowLeader(s, a.term), HandleAppend(s, a).value.0;
    if a.term >= s.currentTerm && ReplicateCheck(s1, a) {
      FollowLeaderOk(m, truth, s, a.term);
      SameForLeader(s, truth, a);
      AcceptHolds(s1, truth, a);
      SameLogHolds(Accept(s1, a), t, truth, Marked(t), Marked(t));
      QuietIsOk(m, truth, s, t);
    } else {
      LongerLogIsOk(m, truth, s, t);
    }
  }

  lemma AppendStepKeeps<K(!new)>(m: Service<K>, truth: Truth, x: Node<K>, a: AppendArgs)
    requires RoundTrips(m) && NodeOk(m, truth, x) && Enabled(m, truth, x, Append(a))
    ensures Next(m, truth, x, Append(a)).Done? && NodeOk(m, truth, Next(m, truth, x, Append(a)).value)
  {
    if HandleAppend(x.raft, a).Done? {
      AppendKeeps(m, truth, x.raft, a);
    } else {
      var t := FollowLeader(x.raft, a.term).Persist();
      LongerLogIsOk(m, truth, x.raft, t);
      RebornIsOk(m, truth, t);
    }
  }

  // Only the reply that moves the commit index needs the proviso.
  lemma AppendBackKeeps<K(!new)>(m: Service<K>, truth: Truth, x: Node<K>, j: nat, a: AppendArgs, r: AppendReply)
    requires RoundTrips(m) && NodeOk(m, truth, x) && Enabled(m, truth, x, AppendBack(j, a, r))
    ensures var y := Next(m, truth, x, AppendBack(j, a, r)); y.Done? && NodeOk(m, truth, y.value)
  {
    var s, o := x.raft, HandleAppendReply(x.raft, j, a, r);
    if o.Panic? {
      RebornIsOk(m, truth, s);
    } else {
      var t := o.value;
      AppendBackIs(s, j, a, r);
      SameLogHolds(s, t, truth, Top(Marked(s), t.committedIndex), Marked(t));
      QuietIsOk(m, truth, s, t);
    }
  }

  lemma {:induction false} ScanRises(s: Server, low: nat, at: int)
    requires |s.matchIndex| == s.n
    ensures s.committedIndex <= ScanCommit(s, low, at)
    decreases at
  {
    if !(at < low || s.RaftIndex(at) <= s.committedIndex) && !HasMajority(s, s.RaftIndex(at)) {
      ScanRises(s, low, at - 1);
    }
  }

  lemma UpdateRises(s: Server)
    requires s.WellFormed() && UpdateCommitted(s).Done?
    ensures var t := UpdateCommitted(s).value;
            t == s.(committedIndex := t.committedIndex) && s.committedIndex <= t.committedIndex
  {
    var last: int := FindFirst(s.logs, s.currentTerm + 1) as int - 1;
    ScanRises(s, FindFirst(s.logs, s.currentTerm), last);
  }

  lemma AppendBackIs(s: Server, j: nat, a: AppendArgs, r: AppendReply)
    requires s.WellFormed() && j < s.n && HandleAppendReply(s, j, a, r).Done?
    ensures var t := HandleAppendReply(s, j, a, r).value;
            Quiet(s, t) && t.WellFormed() && t.logs == s.logs && s.committedIndex <= t.committedIndex
  {
    var acked := Acknowledge(s, j, a.prevLogIndex + |a.entries|);
    if UpdateCommitted(acked).Done? {
      UpdateRises(acked);
    }
  }

  lemma BeginKeeps<K>(m: Service<K>, truth: Truth, s: Server, command: Command)
    requires RaftOk(m, truth, s)
    ensures var t := StartCommand(s, command);
            RaftOk(m, truth, t) && forall end: nat :: InStep(s, end) ==> InStep(t, end)
  {
    LongerLogIsOk(m, truth, s, StartCommand(s, command));
  }

  lemma SnapBackKeeps<K>(m: Service<K>, truth: Truth, s: Server, j: nat, args: SnapArgs, reply: SnapReply)
    requires RaftOk(m, truth, s) && j < s.n
    ensures var t := HandleSnapshotReply(s, j, args, reply);
            RaftOk(m, truth, t) && forall end: nat :: InStep(s, end) ==> InStep(t, end)
  {
    LongerLogIsOk(m, truth, s, HandleSnapshotReply(s, j, args, reply));
  }

  // No step panics, and every step keeps the invariant.
  lemma StepKeeps<K(!new)>(m: Service<K>, truth: Truth, x: Node<K>, step: Step)
    requires RoundTrips(m) && NodeOk(m, truth, x) && Enabled(m, truth, x, step)
    ensures Next(m, truth, x, step).Done? && NodeOk(m, truth, Next(m, truth, x, step).value)
  {
    match step
    case Timeout => TimeoutKeeps(m, truth, x.raft);
    case Vote(args) => VoteKeeps(m, truth, x.raft, args);
    case VoteBack(reply) => VoteBackKeeps(m, truth, x.raft, reply);
    case Begin(command) => BeginKeeps(m, truth, x.raft, command);
    case Append(a) => AppendStepKeeps(m, truth, x, a);
    case AppendBack(j, a, r) => AppendBackKeeps(m, truth, x, j, a, r);
    case SnapBack(j, args, reply) => SnapBackKeeps(m, truth, x.raft, j, args, reply);
    case Collect => CollectKeeps(m, truth, x);
    case Deliver => DeliverKeeps(m, truth, x);
    case Encode =>
    case Compact(k) => CompactKeeps(m, truth, x, k);
    case Install(args) => InstallKeeps(m, truth, x, args);
    case Restart => RebornIsOk(m, truth, x.raft);
  }

  // ---------------------------------------------------------------------------------------
  // Runs
  // ---------------------------------------------------------------------------------------

  ghost predicate Takes<K>(m: Service<K>, truth: Truth, x: Node<K>, step: Step, y: Node<K>) {
    x.raft.WellFormed() && Enabled(m, truth, x, step) && Next(m, truth, x, step) == Done(y)
  }

  // A server that has just been made, with nothing on disk.
  ghost predicate FirstStart<K>(m: Service<K>, x: Node<K>) {
    x.raft.me < x.raft.n && x == Node(Boot(x.raft.n, x.raft.me, BlankDisk), Replica(0, m.init), [], [])
  }

  ghost predicate IsRun<K>(m: Service<K>, truth: Truth, run: seq<Node<K>>, steps: seq<Step>) {
    && |run| == |steps| + 1 && FirstStart(m, run[0])
    && forall k :: 0 <= k < |steps| ==> Takes(m, truth, run[k], steps[k], run[k + 1])
  }

  lemma {:induction false} RunKeeps<K(!new)>(m: Service<K>, truth: Truth, run: seq<Node<K>>, steps: seq<Step>, k: nat)
    requires RoundTrips(m) && IsRun(m, truth, run, steps) && k < |run|
    ensures NodeOk(m, truth, run[k])
  {
    if k > 0 {
      RunKeeps(m, truth, run, steps, k - 1);
      assert Takes(m, truth, run[k - 1], steps[k - 1], run[k]);
      StepKeeps(m, truth, run[k - 1], steps[k - 1]);
    }
  }

  // A server that has applied through index i holds the fold of the first i committed commands,
  // whatever mix of execution, snapshot and restart got it there.
  lemma StateIsFold<K(!new)>(m: Service<K>, truth: Truth, run: seq<Node<K>>, steps: seq<Step>, k: nat)
    requires RoundTrips(m) && IsRun(m, truth, run, steps) && k < |run|
    ensures run[k].replica.state == Fold(m, truth, run[k].replica.lastApplied)
  {
    RunKeeps(m, truth, run, steps, k);
  }

  // Delivery is gap-free: a command that reaches the service has the next index and is the
  // committed one, and no panic of the apply loop or of the service can fire.
  lemma DeliveryIsGapFree<K(!new)>(m: Service<K>, truth: Truth, run: seq<Node<K>>, steps: seq<Step>, k: nat, step: Step)
    requires RoundTrips(m) && IsRun(m, truth, run, steps) && k < |run| && run[k].raft.WellFormed()
    requires Enabled(m, truth, run[k], step)
    ensures Next(m, truth, run[k], step).Done?
    ensures step == Deliver && run[k].channel[0].CommandMsg? ==>
              && run[k].channel[0].index == run[k].replica.lastApplied + 1
              && run[k].channel[0].command == truth(run[k].replica.lastApplied + 1)
  {
    RunKeeps(m, truth, run, steps, k);
    StepKeeps(m, truth, run[k], step);
  }
}

/**
 One Raft peer as the object src/raft/raft.go makes of it: fields updated in place under the
 peer's lock, with the code's own loops.  Each method is proved to do to the object's state
 what the function of the same action in RaftServer.dfy does to the value of that state.
 */
module RaftNode {
  import opened RaftServer

  // The part of HandleSnapshot that takes the snapshot in.
  ghost function Adopting(s: Server, args: SnapArgs): (s': Server)
    requires 1 <= |s.logs|
    ensures 1 <= |s'.logs|
  {
    var at := s.RealIndex(args.lastIncludedIndex);
    var keep := 0 < at < |s.logs| && s.logs[at].term == args.lastIncludedTerm;
    s.(lastIncludedIndex := args.lastIncludedIndex, snapshot := args.data,
       logs := if keep then s.logs else [LogEntry("", args.lastIncludedTerm)])
  }

  ghost function Adopted(s: Server, args: SnapArgs): Server
    requires 1 <= |s.logs|
  {
    Trim(Adopting(s, args)).(applySnapPending := true)
  }

  class Raft {
    const n: nat
    const me: nat
    var currentTerm: nat
    var identity: Identity
    var voteFor: int
    var logs: Log
    var committedIndex: nat
    var lastApplied: nat
    var nextIndex: seq<int>
    var matchIndex: seq<int>
    var discardCount: nat
    var snapshot: Snapshot
    var lastIncludedIndex: nat
    var applySnapPending: bool
    var votes: nat
    var disk: Disk

    // The value of the object's state.
    function View(): Server
      reads this
    {
      Server(n, me, currentTerm, identity, voteFor, logs, committedIndex, lastApplied, nextIndex, matchIndex,
             discardCount, snapshot, lastIncludedIndex, applySnapPending, votes, disk)
    }

    ghost predicate Valid()
      reads this
    {
      View().WellFormed()
    }

    // Make: initial values, then what the persister holds.
    constructor (n: nat, me: nat, disk: Disk)
      requires me < n && 1 <= |disk.logs|
      ensures Valid() && View() == Boot(n, me, disk)
    {
      this.n, this.me := n, me;
      identity, votes, applySnapPending := Follower, 0, false;
      nextIndex, matchIndex := seq(n, _ => 0), seq(n, _ => 0);
      // readPersist
      currentTerm, voteFor, logs, this.disk := disk.term, disk.voteFor, disk.logs, disk;
      // readSnapShot
      var covered := if disk.snapshot.Snapshot? then disk.snapshot.lastIncludedIndex else 0;
      committedIndex, lastApplied, discardCount, lastIncludedIndex := covered, covered, covered, covered;
      snapshot := disk.snapshot;
    }

    method Persist()
      modifies this`disk
      ensures View() == old(View()).Persist()
    {
      disk := Disk(currentTerm, voteFor, logs, snapshot);
    }

    // -------------------------------------------------------------------------------------
    // Elections
    // -------------------------------------------------------------------------------------

    // The election timer's branch of ticker, with the request kickOffNewElection sends out.
    method ElectionTimeout() returns (args: VoteArgs)
      requires Valid()
      modifies this
      ensures Valid() && View() == Campaign(old(View())) && args == VoteRequest(View())
    {
      currentTerm := currentTerm + 1;
      identity := Candidate;
      voteFor := me;
      Persist();
      votes := 1;
      args := VoteArgs(currentTerm, me, |logs| - 1 + discardCount, logs[|logs| - 1].term);
    }

    method RequestVote(args: VoteArgs) returns (reply: VoteReply)
      requires Valid()
      modifies this
      ensures Valid() && (View(), reply) == HandleVote(old(View()), args)
    {
      if args.term < currentTerm || (args.term == currentTerm && voteFor != Unvote && voteFor != args.candidateId) {
        reply := VoteReply(currentTerm, false);
        Persist();
        return;
      }
      if args.term > currentTerm {
        currentTerm := args.term;
        identity := Follower;
        voteFor := Unvote;
      }
      var realIndex := |logs| - 1;
      var lastLogIndex := realIndex + discardCount;
      var lastLogTerm := logs[realIndex].term;
      if !(args.lastLogTerm > lastLogTerm || (args.lastLogTerm == lastLogTerm && args.lastLogIndex >= lastLogIndex)) {
        reply := VoteReply(currentTerm, false);
        Persist();
        return;
      }
      reply := VoteReply(currentTerm, true);
      currentTerm := args.term;
      identity := Follower;
      voteFor := args.candidateId;
      Persist();
    }

    // What the goroutine of kickOffNewElection does when its call returns.
    method VoteReturned(reply: VoteReply)
      requires Valid()
      modifies this
      ensures Valid() && View() == HandleVoteReply(old(View()), reply)
    {
      if reply.term < currentTerm {
        return;
      }
      if reply.term > currentTerm {
        currentTerm := reply.term;
        identity := Follower;
        voteFor := Unvote;
        Persist();
      } else if reply.granted {
        votes := votes + 1;
        if votes * 2 > n && reply.term == currentTerm && identity == Candidate {
          identity := Leader;
          var j := 0;
          while j < n
            invariant 0 <= j <= n && |nextIndex| == n
            invariant forall x :: 0 <= x < j ==> nextIndex[x] == |logs| + discardCount
            modifies this`nextIndex
          {
            nextIndex := nextIndex[j := |logs| + discardCount];
            j := j + 1;
          }
          j := 0;
          while j < n
            invariant 0 <= j <= n && |matchIndex| == n
            invariant forall x :: 0 <= x < j ==> matchIndex[x] == 0
            modifies this`matchIndex
          {
            matchIndex := matchIndex[j := 0];
            j := j + 1;
          }
          var next := |logs| + discardCount;
          assert nextIndex == seq(n, _ => next);
          assert matchIndex == seq(n, _ => 0);
        }
      }
    }

    // -------------------------------------------------------------------------------------
    // Replication
    // -------------------------------------------------------------------------------------

    // On a log whose terms never decrease, the first entry of term at least `term`, or the
    // length of the log when there is none.
    method FindFirstIndex(term: nat) returns (k: nat)
      requires Valid()
      ensures k == FindFirst(logs, term)
      ensures Sorted(logs) ==>
                && (forall i :: 0 <= i < k ==> logs[i].term < term)
                && (forall i :: k <= i < |logs| ==> term <= logs[i].term)
    {
      var low, high := 0, |logs| - 1;
      while low < high
        invariant 0 <= low <= high < |logs|
        invariant Search(logs, term, low, high) == FindFirst(logs, term)
      {
        var mid := (low + high) / 2;
        if logs[mid].term >= term {
          high := mid;
        } else {
          low := mid + 1;
        }
      }
      if Sorted(logs) {
        FindFirstOnSorted(logs, term);
      }
      if logs[high].term < term {
        return |logs|;
      }
      return high;
    }

    // The first loop of ApplyEntries: from the first entry of another term on, the log is cut off.
    method CutConflict(at: nat, entries: Log)
      requires at <= |logs|
      modifies this`logs
      ensures |logs| <= |old(logs)| && logs == old(logs)[..|logs|]
      ensures if Conflicts(old(logs), at, entries) then at <= |logs| <= at + |entries| else logs == old(logs)
    {
      ghost var before := logs;
      var i := 0;
      while i < |entries| && at + i < |logs|
        invariant 0 <= i <= |entries| && logs == before
        invariant forall x :: 0 <= x < i ==> at + x < |logs| && logs[at + x].term == entries[x].term
      {
        if logs[at + i].term != entries[i].term {
          logs := logs[..at + i];
          assert Conflicts(before, at, entries);
          return;
        }
        i := i + 1;
      }
    }

    // The second loop: the entries are copied over the log, and appended where it ends.
    method CopyEntries(at: nat, entries: Log)
      requires at <= |logs|
      modifies this`logs
      ensures logs == old(logs)[..at] + entries + if at + |entries| < |old(logs)| then old(logs)[at + |entries|..]
              else []
    {
      ghost var kept := logs;
      var i := 0;
      while i < |entries|
        invariant 0 <= i <= |entries|
        invariant |logs| == if |kept| < at + i then at + i else |kept|
        invariant forall x :: 0 <= x < at ==> logs[x] == kept[x]
        invariant forall x :: 0 <= x < i ==> logs[at + x] == entries[x]
        invariant forall x :: at + i <= x < |kept| ==> logs[x] == kept[x]
      {
        if at + i >= |logs| {
          logs := logs + [entries[i]];
        } else {
          logs := logs[at + i := entries[i]];
        }
        i := i + 1;
      }
    }

    method StoreEntries(at: nat, entries: Log)
      requires at <= |logs|
      modifies this`logs
      ensures logs == Merge(old(logs), at, entries)
    {
      CutConflict(at, entries);
      CopyEntries(at, entries);
    }

    method CheckReplicated(args: AppendArgs) returns (ok: bool)
      requires Valid()
      ensures ok == ReplicateCheck(View(), args)
    {
      var prevIndex := args.prevLogIndex - discardCount;
      if prevIndex < 0 {
        return false;
      }
      if prevIndex == 0 {
        return lastIncludedIndex == args.prevLogIndex && logs[prevIndex].term == args.prevLogTerm;
      }
      return prevIndex < |logs| && logs[prevIndex].term == args.prevLogTerm;
    }

    // The reply to a request that failed the check.
    method RefuseEntries(args: AppendArgs) returns (outcome: Outcome<AppendReply>)
      requires Valid()
      ensures outcome == Reject(View(), args)
    {
      var prevIndex := args.prevLogIndex - discardCount;
      if prevIndex < 0 {
        return Done(AppendReply(currentTerm, true, 0, 0, 0));
      }
      if prevIndex >= |logs| {
        return Done(AppendReply(currentTerm, false, 0, InvalidIndex, |logs| + discardCount));
      }
      var xTerm := logs[prevIndex].term;
      var index := FindFirstIndex(xTerm);
      if index >= |logs| || logs[index].term != xTerm {
        return Panic;
      }
      return Done(AppendReply(currentTerm, false, xTerm, index + discardCount, |logs| + discardCount));
    }

    // The part of ApplyEntries that runs when the check passed.
    method TakeEntries(args: AppendArgs)
      requires Valid() && ReplicateCheck(View(), args)
      modifies this
      ensures Valid() && View() == Accept(old(View()), args)
    {
      if |args.entries| > 0 {
        var raftIndex := args.prevLogIndex + 1;
        StoreEntries(raftIndex - discardCount, args.entries);
        if args.leaderCommit > committedIndex {
          if args.leaderCommit > raftIndex {
            committedIndex := raftIndex;
          } else {
            committedIndex := args.leaderCommit;
          }
        }
      } else if args.leaderCommit > committedIndex {
        if args.leaderCommit >= |logs| - 1 + discardCount {
          committedIndex := |logs| - 1 + discardCount;
        } else {
          committedIndex := args.leaderCommit;
        }
      }
    }

    method ApplyEntries(args: AppendArgs) returns (outcome: Outcome<AppendReply>)
      requires Valid()
      modifies this
      ensures match HandleAppend(old(View()), args)
              case Panic => outcome.Panic?
              case Done((s, reply)) => outcome == Done(reply) && View() == s && Valid()
    {
      if currentTerm > args.term {
        outcome := Done(AppendReply(currentTerm, false, 0, 0, 0));
        Persist();
        return;
      }
      identity := Follower;
      if currentTerm < args.term {
        currentTerm := args.term;
        voteFor := Unvote;
      }
      var ok := CheckReplicated(args);
      if ok {
        TakeEntries(args);
        outcome := Done(AppendReply(currentTerm, true, 0, 0, 0));
      } else {
        outcome := RefuseEntries(args);
      }
      Persist();
    }

    method Start(command: Command) returns (index: int, term: int, isLeader: bool)
      requires Valid()
      modifies this
      ensures Valid() && isLeader == (old(identity) == Leader)
      ensures isLeader ==> View() == StartCommand(old(View()), command)
      ensures isLeader ==> index == View().LastIndex() && term == currentTerm
      ensures !isLeader ==> View() == old(View()) && index == -1 && term == -1
    {
      index, term, isLeader := -1, -1, false;
      if identity == Leader {
        index := |logs| + discardCount;
        logs := logs + [LogEntry(command, currentTerm)];
        term := currentTerm;
        isLeader := true;
        Persist();
      }
    }

    // What sendHeartBeat prepares for one peer.
    method PrepareFor(j: nat) returns (outcome: Outcome<Outgoing>)
      requires Valid() && j < n
      ensures outcome == HeartBeatTo(View(), j)
    {
      if nextIndex[j] <= lastIncludedIndex {
        return Done(SendSnapshot(SnapArgs(currentTerm, me, lastIncludedIndex, logs[0].term, snapshot)));
      }
      var lastLogIndex := |logs| - 1 + discardCount;
      if lastLogIndex >= nextIndex[j] {
        var raftIndex := nextIndex[j];
        if raftIndex == 0 {
          return Panic;
        }
        var realPrevIndex := raftIndex - 1 - discardCount;
        if realPrevIndex < 0 {
          return Panic;
        }
        return Done(SendAppend(AppendArgs(currentTerm, me, raftIndex - 1, logs[realPrevIndex].term,
                                          logs[raftIndex - discardCount..], committedIndex)));
      }
      return Done(SendAppend(AppendArgs(currentTerm, me, lastLogIndex, logs[lastLogIndex - discardCount].term,
                                        [], committedIndex)));
    }

    // The inner loop of updateCommittedIndex: whether more than half of the peers hold `index`.
    method MajorityHolds(index: nat) returns (ok: bool)
      requires Valid()
      ensures ok == HasMajority(View(), index)
    {
      var cnt, j := 1, 0;
      ok := false;
      while j < n
        invariant 0 <= j <= n && cnt == 1 + MatchCount(View(), index, j)
        invariant !ok && !(1 < cnt && cnt > n - cnt)
      {
        if j != me {
          if matchIndex[j] >= index {
            cnt := cnt + 1;
            if cnt > n - cnt {
              ok := true;
              CountGrows(View(), index, j + 1, n);
              break;
            }
          }
        }
        j := j + 1;
      }
    }

    // Leader: move the commit index.  False when the code panics.
    method UpdateCommittedIndex() returns (ok: bool)
      requires Valid()
      modifies this`committedIndex
      ensures ok == UpdateCommitted(old(View())).Done?
      ensures Valid() && ok ==> Done(View()) == UpdateCommitted(old(View()))
    {
      var low := FindFirstIndex(currentTerm);
      if low == |logs| || logs[low].term != currentTerm {
        return true;
      }
      var high := FindFirstIndex(currentTerm + 1);
      if low >= high || logs[high - 1].term != currentTerm {
        return false;
      }
      committedIndex := ScanDown(low, high);
      return true;
    }

    // The highest index among these positions that a majority holds, if it is above the commit index.
    method ScanDown(low: nat, high: nat) returns (res: nat)
      requires Valid() && low < high <= |logs|
      ensures res == ScanCommit(View(), low, high - 1)
    {
      var at := high - 1;
      while at >= low && at + discardCount > committedIndex
        invariant low - 1 <= at < high
        invariant ScanCommit(View(), low, at) == ScanCommit(View(), low, high - 1)
      {
        var has := MajorityHolds(at + discardCount);
        if has {
          return at + discardCount;
        }
        at := at - 1;
      }
      return committedIndex;
    }

    // What sendApplyEntriesTo does when its call returns.  False when the code panics.
    method EntriesReturned(j: nat, args: AppendArgs, reply: AppendReply) returns (ok: bool)
      requires Valid() && j < n
      modifies this
      ensures ok == HandleAppendReply(old(View()), j, args, reply).Done?
      ensures ok ==> Valid() && Done(View()) == HandleAppendReply(old(View()), j, args, reply)
    {
      if reply.term < currentTerm {
        return true;
      }
      if !reply.success {
        ok := ProbeRejected(j, args, reply);
        return;
      }
      if |args.entries| > 0 {
        var index := args.prevLogIndex + 1;
        if index == nextIndex[j] {
          matchIndex := matchIndex[j := index + |args.entries| - 1];
          nextIndex := nextIndex[j := matchIndex[j] + 1];
          ok := UpdateCommittedIndex();
          return;
        }
      }
      return true;
    }

    // The peer refused the entries: give up the term, or probe further back.
    method ProbeRejected(j: nat, args: AppendArgs, reply: AppendReply) returns (ok: bool)
      requires Valid() && j < n && !reply.success && reply.term >= currentTerm
      modifies this
      ensures ok == HandleAppendReply(old(View()), j, args, reply).Done?
      ensures ok ==> Valid() && Done(View()) == HandleAppendReply(old(View()), j, args, reply)
    {
      if reply.term > args.term {
        if reply.term > currentTerm {
          currentTerm := reply.term;
          identity := Follower;
          voteFor := Unvote;
          Persist();
        }
      } else {
        var next;
        ok, next := NextProbe(reply);
        if !ok {
          return false;
        }
        nextIndex := nextIndex[j := next];
      }
      return true;
    }

    // Where the hint of a rejection points.
    method NextProbe(reply: AppendReply) returns (ok: bool, next: int)
      requires Valid()
      ensures ok == BackOff(View(), reply).Done? && (ok ==> BackOff(View(), reply) == Done(next))
    {
      if reply.xIndex == InvalidIndex {
        return true, reply.xLen;
      }
      var index := FindFirstIndex(reply.xTerm);
      if index == |logs| || logs[index].term != reply.xTerm {
        return true, reply.xIndex;
      }
      var index2 := FindFirstIndex(reply.xTerm + 1);
      if index2 == 0 || logs[index2 - 1].term != reply.xTerm {
        return false, 0;
      }
      return true, index2 - 1 + discardCount;
    }

    // -------------------------------------------------------------------------------------
    // Snapshots
    // -------------------------------------------------------------------------------------

    // doSnapshot: drop the entries the snapshot covers, by moving the rest down in place.
    method DropCovered()
      requires 1 <= |logs|
      modifies this
      ensures View() == Trim(old(View()))
    {
      var cnt := 0;
      ghost var before := logs;
      var i := 1;
      while i < |logs| && i + discardCount <= lastIncludedIndex
        invariant 1 <= i <= |logs| && cnt == i - 1
        invariant cnt == 0 || cnt <= lastIncludedIndex - discardCount
        modifies {}
      {
        cnt := cnt + 1;
        i := i + 1;
      }
      i := 0;
      while i + cnt < |logs|
        invariant 0 <= i <= |logs| - cnt && |logs| == |before|
        invariant forall x :: 0 <= x < i ==> logs[x] == before[x + cnt]
        invariant forall x :: i <= x < |logs| ==> logs[x] == before[x]
        modifies this`logs
      {
        logs := logs[i := logs[i + cnt]];
        i := i + 1;
      }
      logs := logs[..|logs| - cnt];
      assert logs == before[cnt..];
      discardCount := lastIncludedIndex;
      Persist();
    }

    method Snapshot(index: nat, data: string)
      requires Valid()
      modifies this
      ensures Valid() && View() == TakeSnapshot(old(View()), index, data)
    {
      if index <= lastIncludedIndex {
        return;
      }
      if committedIndex <= index {
        committedIndex := index;
      }
      if lastApplied <= index {
        lastApplied := index;
      }
      lastIncludedIndex := index;
      snapshot := RaftServer.Snapshot.Snapshot(index, data);
      DropCovered();
    }

    method InstallSnapshot(args: SnapArgs) returns (reply: SnapReply)
      requires Valid()
      modifies this
      ensures Valid() && (View(), reply) == HandleSnapshot(old(View()), args)
    {
      if args.term < currentTerm {
        return SnapReply(currentTerm);
      }
      identity := Follower;
      if currentTerm < args.term {
        currentTerm := args.term;
        voteFor := Unvote;
      }
      reply := SnapReply(currentTerm);
      if lastIncludedIndex >= args.lastIncludedIndex {
        return;
      }
      AdoptSnapshot(args);
    }

    // A snapshot newer than the one at hand: keep the entries after it if the log has its last one.
    method AdoptSnapshot(args: SnapArgs)
      requires Valid()
      modifies this
      ensures Valid() && View() == Adopted(old(View()), args)
    {
      lastIncludedIndex := args.lastIncludedIndex;
      snapshot := args.data;
      var realIndex := args.lastIncludedIndex - discardCount;
      if !(realIndex > 0 && realIndex < |logs| && logs[realIndex].term == args.lastIncludedTerm) {
        logs := [LogEntry("", args.lastIncludedTerm)];
      }
      assert View() == Adopting(old(View()), args);
      DropCovered();
      applySnapPending := true;
    }

    // What sendInstallSnapshotTo does when its call returns.
    method SnapshotReturned(j: nat, args: SnapArgs, reply: SnapReply)
      requires Valid() && j < n
      modifies this
      ensures Valid() && View() == HandleSnapshotReply(old(View()), j, args, reply)
    {
      if reply.term < currentTerm {
        return;
      }
      if reply.term > currentTerm {
        currentTerm := reply.term;
        identity := Follower;
        voteFor := Unvote;
        Persist();
      } else {
        var index := args.lastIncludedIndex;
        if matchIndex[j] <= index {
          matchIndex := matchIndex[j := index];
          nextIndex := nextIndex[j := matchIndex[j] + 1];
        }
      }
    }

    // -------------------------------------------------------------------------------------
    // The apply loop
    // -------------------------------------------------------------------------------------

    // The loop of applyLog over the committed entries not yet applied.
    method CollectCommands() returns (outcome: Outcome<seq<ApplyMsg>>)
      requires Valid() && discardCount <= lastApplied < committedIndex
      modifies this`lastApplied
      ensures View().LastIndex() < committedIndex ==> outcome.Panic?
      ensures committedIndex <= View().LastIndex() ==>
                && outcome == Done(Commands(logs, discardCount, old(lastApplied), committedIndex))
                && lastApplied == committedIndex
    {
      var msgs: seq<ApplyMsg> := [];
      ghost var from := lastApplied;
      while lastApplied < committedIndex
        invariant from <= lastApplied <= committedIndex
        invariant lastApplied == from || lastApplied - discardCount < |logs|
        invariant msgs == if lastApplied == from then [] else Commands(logs, discardCount, from, lastApplied)
      {
        lastApplied := lastApplied + 1;
        if lastApplied - discardCount >= |logs| {
          return Panic;
        }
        msgs := msgs + [CommandMsg(lastApplied, logs[lastApplied - discardCount].command)];
      }
      return Done(msgs);
    }

    // One round of applyLog, up to releasing the lock.
    method CollectCommitted() returns (outcome: Outcome<seq<ApplyMsg>>)
      requires Valid()
      modifies this
      ensures match ApplyRound(old(View()))
              case Panic => outcome.Panic?
              case Done((s, msgs)) => outcome == Done(msgs) && View() == s && Valid()
    {
      var msgs: seq<ApplyMsg> := [];
      if applySnapPending {
        msgs := [SnapshotMsg(lastIncludedIndex, logs[0].term, snapshot)];
        applySnapPending := false;
      }
      if lastApplied < committedIndex {
        if lastApplied < lastIncludedIndex {
          lastApplied := lastIncludedIndex;
        }
        if lastApplied < committedIndex {
          var commands := CollectCommands();
          if commands.Panic? {
            return Panic;
          }
          msgs := msgs + commands.value;
        }
      }
      return Done(msgs);
    }
  }

  // Counting further peers does not lower the count.
  lemma {:induction false} CountGrows(s: Server, index: int, a: nat, b: nat)
    requires a <= b <= |s.matchIndex|
    ensures MatchCount(s, index, a) <= MatchCount(s, index, b)
    decreases b
  {
    if a < b {
      CountGrows(s, index, a, b - 1);
    }
  }
}

/**
 What every step of the MapReduce coordinator keeps.
 */
module MrSafety {
  import opened Collections
  import opened FileNames
  import opened MrCoordinator

  // ---------- A board by itself ----------

  ghost function Ended(b: Board): set<int> {
    set i | i in b.status && b.status[i] == Completed
  }

  ghost predicate BoardOk(b: Board) {
    && Distinct(b.idle)
    && (forall i :: i in b.idle <==> i in b.status && b.status[i] == Idle)
    && (forall i :: i in b.txns <==> i in b.status && b.status[i] == InProgress)
    && b.done == |Ended(b)|
  }

  lemma TakeHeadOk(b: Board, txn: Txn)
    requires BoardOk(b) && b.idle != []
    ensures BoardOk(TakeHead(b, txn))
    ensures b.idle[0] in b.status && b.status[b.idle[0]] == Idle
  {
    var b', i := TakeHead(b, txn), b.idle[0];
    assert i in b.idle;
    assert forall k :: 0 <= k < |b'.idle| ==> b'.idle[k] == b.idle[k + 1];
    forall j
      ensures j in b'.idle <==> j in b'.status && b'.status[j] == Idle
    {
      if j in b.idle && j != i {
        var k :| 0 <= k < |b.idle| && b.idle[k] == j;
        assert b'.idle[k - 1] == j;
      }
    }
    assert Ended(b') == Ended(b);
  }

  lemma FinishOk(b: Board, i: int)
    requires BoardOk(b) && i in b.txns
    ensures BoardOk(Finish(b, i))
  {
    var b' := Finish(b, i);
    assert Ended(b') == Ended(b) + {i};
  }

  lemma ExpireOk(b: Board, i: int)
    requires BoardOk(b) && i in b.txns
    ensures BoardOk(Expire(b, i))
  {
    var b' := Expire(b, i);
    assert Ended(b') == Ended(b);
    assert forall j :: j in b'.idle <==> j in b.idle || j == i;
  }

  lemma AddTaskOk(b: Board, i: int)
    requires BoardOk(b) && i !in b.status
    ensures BoardOk(AddTask(b, i))
  {
    var b' := AddTask(b, i);
    assert Ended(b') == Ended(b);
    assert forall j :: j in b'.idle <==> j in b.idle || j == i;
  }

  // ---------- A board and the log ----------

  predicate About(e: Event, kind: Kind, i: int) {
    e.kind == kind && e.task == i
  }

  function LastAbout(log: seq<Event>, kind: Kind, i: int): Option<Event> {
    if log == [] then None
    else if About(log[|log| - 1], kind, i) then Some(log[|log| - 1])
    else LastAbout(log[..|log| - 1], kind, i)
  }

  // The status of a task is what last happened to it.
  predicate Matches(b: Board, i: int, last: Option<Event>) {
    if i !in b.status then last.None?
    else
      match b.status[i]
      case Idle => last.None? || last.value.Expired?
      case InProgress => last.Some? && last.value.Handed? && i in b.txns && last.value.txn == b.txns[i].id
      case Completed => last.Some? && last.value.Accepted?
  }

  ghost predicate Tracks(b: Board, kind: Kind, log: seq<Event>) {
    forall i :: Matches(b, i, LastAbout(log, kind, i))
  }

  lemma LastOfMore(log: seq<Event>, e: Event, kind: Kind, i: int)
    ensures LastAbout(log + [e], kind, i) == if About(e, kind, i) then Some(e) else LastAbout(log, kind, i)
  {
    assert (log + [e])[..|log|] == log;
  }

  // One task changes, and the event says so.
  lemma TracksOne(b: Board, b': Board, kind: Kind, log: seq<Event>, e: Event)
    requires Tracks(b, kind, log) && e.kind == kind && Matches(b', e.task, Some(e))
    requires forall i :: i != e.task ==> (i in b.status <==> i in b'.status)
    requires forall i :: i != e.task && i in b.status ==> b'.status[i] == b.status[i]
    requires forall i :: i != e.task && i in b.txns ==> i in b'.txns && b'.txns[i] == b.txns[i]
    ensures Tracks(b', kind, log + [e])
  {
    forall i
      ensures Matches(b', i, LastAbout(log + [e], kind, i))
    {
      LastOfMore(log, e, kind, i);
      assert Matches(b, i, LastAbout(log, kind, i));
    }
  }

  lemma TracksOther(b: Board, kind: Kind, log: seq<Event>, e: Event)
    requires Tracks(b, kind, log) && e.kind != kind
    ensures Tracks(b, kind, log + [e])
  {
    forall i
      ensures Matches(b, i, LastAbout(log + [e], kind, i))
    {
      LastOfMore(log, e, kind, i);
      assert Matches(b, i, LastAbout(log, kind, i));
    }
  }

  // ---------- The log by itself ----------

  predicate Same(e: Event, f: Event) {
    e.kind == f.kind && e.task == f.task
  }

  // Nothing happens to a task once it is accepted.
  ghost predicate Final(log: seq<Event>) {
    forall p, q :: 0 <= p < q < |log| && log[p].Accepted? ==> !Same(log[p], log[q])
  }

  ghost predicate FreshTxns(log: seq<Event>, next: nat) {
    && (forall p :: 0 <= p < |log| && log[p].Handed? ==> log[p].txn < next)
    && forall p, q :: 0 <= p < q < |log| && log[p].Handed? && log[q].Handed? ==> log[p].txn != log[q].txn
  }

  lemma {:induction false} LastIsInLog(log: seq<Event>, kind: Kind, i: int) returns (p: nat)
    requires LastAbout(log, kind, i).Some?
    ensures p < |log| && LastAbout(log, kind, i) == Some(log[p]) && About(log[p], kind, i)
    ensures forall q :: p < q < |log| ==> !About(log[q], kind, i)
  {
    if About(log[|log| - 1], kind, i) {
      p := |log| - 1;
    } else {
      p := LastIsInLog(log[..|log| - 1], kind, i);
    }
  }

  lemma {:induction false} EventHasLast(log: seq<Event>, p: nat)
    requires p < |log|
    ensures LastAbout(log, log[p].kind, log[p].task).Some?
  {
    if !About(log[|log| - 1], log[p].kind, log[p].task) {
      EventHasLast(log[..|log| - 1], p);
    }
  }

  lemma AcceptedIsLast(log: seq<Event>, p: nat)
    requires Final(log) && p < |log| && log[p].Accepted?
    ensures LastAbout(log, log[p].kind, log[p].task) == Some(log[p])
  {
    EventHasLast(log, p);
    var q := LastIsInLog(log, log[p].kind, log[p].task);
    assert q >= p;
    if q > p {
      assert Same(log[p], log[q]);
    }
  }

  lemma FinalOne(log: seq<Event>, e: Event)
    requires Final(log)
    requires var last := LastAbout(log, e.kind, e.task); last.None? || !last.value.Accepted?
    ensures Final(log + [e])
  {
    forall p | 0 <= p < |log| && log[p].Accepted?
      ensures !Same(log[p], e)
    {
      AcceptedIsLast(log, p);
    }
  }

  // ---------- All map tasks before any reduce task ----------

  ghost predicate WasAccepted(log: seq<Event>, kind: Kind, i: int) {
    exists p :: 0 <= p < |log| && log[p].Accepted? && About(log[p], kind, i)
  }

  ghost predicate AllMapped(log: seq<Event>, n: nat) {
    forall i :: 0 <= i < n ==> WasAccepted(log, Map, i)
  }

  ghost predicate ReducesAreLate(log: seq<Event>, n: nat) {
    forall p :: 0 <= p < |log| && log[p].Handed? && log[p].kind == Reduce ==> AllMapped(log[..p], n)
  }

  // ---------- The invariant ----------

  ghost predicate TasksOk(c: Coord) {
    && BoardOk(c.maps)
    && BoardOk(c.reduces)
    && (forall i :: i in c.maps.status <==> 0 <= i < |c.inputs|)
    && (forall i :: i in c.reduces.status <==> i in c.files)
  }

  ghost predicate HandedReduce(log: seq<Event>) {
    exists p :: 0 <= p < |log| && log[p].Handed? && log[p].kind == Reduce
  }

  ghost predicate LogOk(s: Sys) {
    && Tracks(s.c.maps, Map, s.log)
    && Tracks(s.c.reduces, Reduce, s.log)
    && Final(s.log)
    && FreshTxns(s.log, s.c.nextTxn)
  }

  ghost predicate OrderOk(s: Sys) {
    && ReducesAreLate(s.log, |s.c.inputs|)
    && (s.waiting != {} || HandedReduce(s.log) ==> MapsDone(s.c))
  }

  ghost predicate Inv(s: Sys) {
    TasksOk(s.c) && LogOk(s) && OrderOk(s)
  }

  // ---------- One event on one board ----------

  function BoardOf(c: Coord, kind: Kind): Board {
    if kind == Map then c.maps else c.reduces
  }

  function WithBoard(c: Coord, kind: Kind, b: Board): Coord {
    if kind == Map then c.(maps := b) else c.(reduces := b)
  }

  // Only the task of the event changes, as the event says, and it was not accepted before.
  ghost predicate Moves(b: Board, b': Board, e: Event) {
    && BoardOk(b')
    && b'.done >= b.done
    && e.task in b.status
    && b.status[e.task] != Completed
    && Matches(b', e.task, Some(e))
    && (forall i :: i in b.status <==> i in b'.status)
    && (forall i :: i != e.task && i in b.status ==> b'.status[i] == b.status[i])
    && (forall i :: i != e.task && i in b.txns ==> i in b'.txns && b'.txns[i] == b.txns[i])
  }

  lemma TakeHeadMoves(b: Board, txn: Txn, e: Event)
    requires BoardOk(b) && b.idle != [] && e.Handed? && e.task == b.idle[0] && e.txn == txn.id
    ensures Moves(b, TakeHead(b, txn), e)
  {
    TakeHeadOk(b, txn);
  }

  lemma FinishMoves(b: Board, e: Event)
    requires BoardOk(b) && e.Accepted? && e.task in b.txns
    ensures Moves(b, Finish(b, e.task), e)
  {
    FinishOk(b, e.task);
  }

  lemma ExpireMoves(b: Board, e: Event)
    requires BoardOk(b) && e.Expired? && e.task in b.txns
    ensures Moves(b, Expire(b, e.task), e)
  {
    ExpireOk(b, e.task);
  }

  ghost predicate NextId(c: Coord, e: Event, next: nat) {
    if e.Handed? then e.txn == c.nextTxn && next == c.nextTxn + 1 else next == c.nextTxn
  }

  function After(s: Sys, b: Board, next: nat, waiting: set<int>, e: Event): Sys {
    Sys(WithBoard(s.c, e.kind, b).(nextTxn := next), waiting, s.log + [e])
  }

  lemma LogAfter(s: Sys, b: Board, next: nat, waiting: set<int>, e: Event)
    requires LogOk(s) && Moves(BoardOf(s.c, e.kind), b, e) && NextId(s.c, e, next)
    ensures LogOk(After(s, b, next, waiting, e))
  {
    TracksOne(BoardOf(s.c, e.kind), b, e.kind, s.log, e);
    TracksOther(BoardOf(s.c, OtherKind(e.kind)), OtherKind(e.kind), s.log, e);
    assert Matches(BoardOf(s.c, e.kind), e.task, LastAbout(s.log, e.kind, e.task));
    FinalOne(s.log, e);
  }

  function OtherKind(kind: Kind): Kind {
    if kind == Map then Reduce else Map
  }

  lemma LateOne(log: seq<Event>, e: Event, n: nat)
    requires ReducesAreLate(log, n)
    requires e.Handed? && e.kind == Reduce ==> AllMapped(log, n)
    ensures ReducesAreLate(log + [e], n)
    ensures HandedReduce(log + [e]) ==> HandedReduce(log) || (e.Handed? && e.kind == Reduce)
  {
    var more := log + [e];
    forall p | 0 <= p < |more| && more[p].Handed? && more[p].kind == Reduce
      ensures AllMapped(more[..p], n)
    {
      if p < |log| {
        assert more[..p] == log[..p];
      } else {
        assert more[..p] == log;
      }
    }
    if HandedReduce(more) {
      var p :| 0 <= p < |more| && more[p].Handed? && more[p].kind == Reduce;
      if p < |log| {
        assert log[p].Handed?;
      }
    }
  }

  lemma OrderAfter(s: Sys, b: Board, next: nat, waiting: set<int>, e: Event)
    requires OrderOk(s) && b.done >= BoardOf(s.c, e.kind).done && waiting <= s.waiting
    requires e.Handed? && e.kind == Reduce ==> MapsDone(s.c) && AllMapped(s.log, |s.c.inputs|)
    ensures OrderOk(After(s, b, next, waiting, e))
  {
    LateOne(s.log, e, |s.c.inputs|);
  }

  lemma TasksAfter(s: Sys, b: Board, next: nat, waiting: set<int>, e: Event)
    requires TasksOk(s.c) && Moves(BoardOf(s.c, e.kind), b, e)
    ensures TasksOk(After(s, b, next, waiting, e).c)
  {
  }

  lemma InvAfter(s: Sys, b: Board, next: nat, waiting: set<int>, e: Event)
    requires Inv(s) && Moves(BoardOf(s.c, e.kind), b, e) && NextId(s.c, e, next) && waiting <= s.waiting
    requires e.Handed? && e.kind == Reduce ==> MapsDone(s.c)
    ensures Inv(After(s, b, next, waiting, e))
  {
    if MapsDone(s.c) {
      AllAreMapped(s);
    }
    LogAfter(s, b, next, waiting, e);
    OrderAfter(s, b, next, waiting, e);
    TasksAfter(s, b, next, waiting, e);
  }

  // ---------- All map tasks completed ----------

  ghost function Range(n: nat): (r: set<int>)
    ensures |r| == n && forall i :: i in r <==> 0 <= i < n
  {
    if n == 0 then {} else Range(n - 1) + {n - 1}
  }

  lemma FullSubset(a: set<int>, b: set<int>)
    requires a <= b && |a| >= |b|
    ensures a == b
  {
    assert b == a + (b - a);
    assert |b| == |a| + |b - a|;
    assert b - a == {};
  }

  lemma MapsDoneMeansAll(c: Coord)
    requires TasksOk(c) && MapsDone(c)
    ensures Ended(c.maps) == Range(|c.inputs|)
  {
    FullSubset(Ended(c.maps), Range(|c.inputs|));
  }

  lemma AllAreMapped(s: Sys)
    requires TasksOk(s.c) && Tracks(s.c.maps, Map, s.log) && MapsDone(s.c)
    ensures AllMapped(s.log, |s.c.inputs|)
  {
    MapsDoneMeansAll(s.c);
    forall i | 0 <= i < |s.c.inputs|
      ensures WasAccepted(s.log, Map, i)
    {
      assert i in Ended(s.c.maps);
      assert Matches(s.c.maps, i, LastAbout(s.log, Map, i));
      var p := LastIsInLog(s.log, Map, i);
    }
  }

  // ---------- New reduce tasks ----------

  ghost predicate AddedOk(a: Added, log: seq<Event>) {
    && BoardOk(a.reduces)
    && (forall i :: i in a.reduces.status <==> i in a.files)
    && Tracks(a.reduces, Reduce, log)
  }

  lemma AddFileOk(a: Added, bucket: int, name: string, log: seq<Event>)
    requires AddedOk(a, log)
    ensures AddedOk(AddFile(a, bucket, name), log)
  {
    if bucket !in a.files {
      AddTaskOk(a.reduces, bucket);
      var b := AddTask(a.reduces, bucket);
      forall i
        ensures Matches(b, i, LastAbout(log, Reduce, i))
      {
        assert Matches(a.reduces, i, LastAbout(log, Reduce, i));
      }
    }
  }

  lemma {:induction false} AddFilesOk(a: Added, names: seq<string>, log: seq<Event>)
    requires AddedOk(a, log)
    ensures AddedOk(AddFiles(a, names), log)
    decreases |names|
  {
    if names != [] && Parse(names[0]).Bucket? {
      AddFileOk(a, Parse(names[0]).index, names[0], log);
      AddFilesOk(AddFile(a, Parse(names[0]).index, names[0]), names[1..], log);
    }
  }

  // ---------- The steps ----------

  lemma InitIsInv(inputs: seq<string>)
    ensures Inv(Init(inputs))
  {
    var b := Init(inputs).c.maps;
    forall i | 0 <= i < |inputs|
      ensures i in b.idle
    {
      assert b.idle[i] == i;
    }
    assert Ended(b) == {};
    assert Ended(Init(inputs).c.reduces) == {};
  }

  lemma GiveMapKeeps(s: Sys, now: int)
    requires Inv(s) && Enabled(s, GiveMap(now))
    ensures Inv(Next(s, GiveMap(now)))
  {
    var s' := Next(s, GiveMap(now));
    var e := s'.log[|s.log|];
    TakeHeadMoves(s.c.maps, Txn(s.c.nextTxn, now), e);
    InvAfter(s, s'.c.maps, s'.c.nextTxn, s'.waiting, e);
  }

  lemma GiveReduceKeeps(s: Sys, worker: int, now: int)
    requires Inv(s) && Enabled(s, GiveReduce(worker, now))
    ensures Inv(Next(s, GiveReduce(worker, now)))
  {
    var s' := Next(s, GiveReduce(worker, now));
    var e := s'.log[|s.log|];
    TakeHeadMoves(s.c.reduces, Txn(s.c.nextTxn, now), e);
    InvAfter(s, s'.c.reduces, s'.c.nextTxn, s'.waiting, e);
  }

  lemma ReportReduceKeeps(s: Sys, task: int, txn: nat)
    requires Inv(s)
    ensures Inv(Next(s, ReportReduce(task, txn)))
  {
    if IsCurrent(s.c.reduces, task, txn) {
      var s' := Next(s, ReportReduce(task, txn));
      var e := s'.log[|s.log|];
      FinishMoves(s.c.reduces, e);
      InvAfter(s, s'.c.reduces, s'.c.nextTxn, s'.waiting, e);
    }
  }

  // The report's files first, then the task itself.
  function Filed(s: Sys, names: seq<string>): Sys {
    var a := AddFiles(Added(s.c.files, s.c.reduces, Fine), names);
    s.(c := s.c.(files := a.files, reduces := a.reduces))
  }

  lemma FiledKeeps(s: Sys, names: seq<string>)
    requires Inv(s)
    ensures Inv(Filed(s, names))
  {
    AddFilesOk(Added(s.c.files, s.c.reduces, Fine), names, s.log);
  }

  lemma ReportMapKeeps(s: Sys, task: int, txn: nat, names: seq<string>)
    requires Inv(s) && Enabled(s, ReportMap(task, txn, names))
    ensures Inv(Next(s, ReportMap(task, txn, names)))
  {
    if IsCurrent(s.c.maps, task, txn) {
      var s', m := Next(s, ReportMap(task, txn, names)), Filed(s, names);
      FiledKeeps(s, names);
      if MapReport(s.c, task, names).1 == Fine {
        var e := s'.log[|s.log|];
        FinishMoves(m.c.maps, e);
        InvAfter(m, s'.c.maps, s'.c.nextTxn, s'.waiting, e);
      } else {
        assert s.log + [] == s.log;
      }
    }
  }

  function ManyExpired(s: Sys, kind: Kind, stale: seq<int>): Sys {
    s.(c := WithBoard(s.c, kind, ExpireAll(BoardOf(s.c, kind), stale)), log := s.log + ExpiredEvents(kind, stale))
  }

  lemma OneMoreExpired(s: Sys, kind: Kind, stale: seq<int>)
    requires stale != []
    ensures var s1, last := ManyExpired(s, kind, stale[..|stale| - 1]), stale[|stale| - 1];
            ManyExpired(s, kind, stale)
            == After(s1, Expire(BoardOf(s1.c, kind), last), s1.c.nextTxn, s1.waiting, Expired(kind, last))
  {
    var m := |stale| - 1;
    assert s.log + ExpiredEvents(kind, stale) == s.log + ExpiredEvents(kind, stale[..m]) + [Expired(kind, stale[m])];
  }

  lemma {:induction false} OthersStay(b: Board, stale: seq<int>, i: int)
    requires i in b.txns && i !in stale
    ensures i in ExpireAll(b, stale).txns
  {
    if stale != [] {
      OthersStay(b, stale[..|stale| - 1], i);
    }
  }

  lemma {:induction false} ExpireKeeps(s: Sys, kind: Kind, stale: seq<int>)
    requires Inv(s) && Distinct(stale)
    requires forall k :: 0 <= k < |stale| ==> stale[k] in BoardOf(s.c, kind).txns
    ensures Inv(ManyExpired(s, kind, stale))
  {
    if stale == [] {
      assert s.log + ExpiredEvents(kind, stale) == s.log;
    } else {
      var m := |stale| - 1;
      var s1, e := ManyExpired(s, kind, stale[..m]), Expired(kind, stale[m]);
      ExpireKeeps(s, kind, stale[..m]);
      OthersStay(BoardOf(s.c, kind), stale[..m], stale[m]);
      ExpireMoves(BoardOf(s1.c, kind), e);
      InvAfter(s1, Expire(BoardOf(s1.c, kind), stale[m]), s1.c.nextTxn, s1.waiting, e);
      OneMoreExpired(s, kind, stale);
    }
  }

  lemma TimerKeeps(s: Sys, kind: Kind, now: int, stale: seq<int>)
    requires Inv(s) && IsStale(BoardOf(s.c, kind), now, stale)
    ensures Inv(ManyExpired(s, kind, stale))
  {
    forall k | 0 <= k < |stale|
      ensures stale[k] in BoardOf(s.c, kind).txns
    {
      var i := stale[k];
      assert i in stale;
    }
    ExpireKeeps(s, kind, stale);
  }

  lemma StepKeepsInv(s: Sys, step: Step, s': Sys)
    requires Inv(s) && Follows(s, step, s')
    ensures Inv(s')
  {
    match step
    case GiveMap(now) => GiveMapKeeps(s, now);
    case PassMaps(worker) =>
    case GiveReduce(worker, now) => GiveReduceKeeps(s, worker, now);
    case ReportMap(task, txn, names) => ReportMapKeeps(s, task, txn, names);
    case ReportReduce(task, txn) => ReportReduceKeeps(s, task, txn);
    case ExpireMaps(now, stale) => TimerKeeps(s, Map, now, stale);
    case ExpireReduces(now, stale) => TimerKeeps(s, Reduce, now, stale);
  }

  lemma {:induction false} RunKeepsInv(inputs: seq<string>, trace: seq<Sys>, steps: seq<Step>, k: nat)
    requires Run(inputs, trace, steps) && k < |trace|
    ensures Inv(trace[k])
  {
    if k == 0 {
      InitIsInv(inputs);
    } else {
      RunKeepsInv(inputs, trace, steps, k - 1);
      StepKeepsInv(trace[k - 1], steps[k - 1], trace[k]);
    }
  }
}

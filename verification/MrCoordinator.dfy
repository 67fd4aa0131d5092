/**
 The MapReduce coordinator (src/mr/coordinator.go): its queues, statuses and transactions, and
 the steps that workers, late reports and the timer can interleave in any order.
 */
module MrCoordinator {
  import opened Collections
  import opened FileNames

  const TIMEOUT_LIMIT := 10

  datatype Status = Idle | InProgress | Completed

  datatype Txn = Txn(id: nat, begin: int)

  // The bookkeeping that map tasks and reduce tasks have alike.
  datatype Board = Board(status: map<int, Status>, txns: map<int, Txn>, idle: seq<int>, done: nat)

  // `files` lists the intermediate files of each reduce task known so far.
  datatype Coord = Coord(inputs: seq<string>, nextTxn: nat, maps: Board, reduces: Board, files: map<int, seq<string>>)

  // ---------- One board ----------

  function TakeHead(b: Board, txn: Txn): Board
    requires b.idle != []
  {
    b.(status := b.status[b.idle[0] := InProgress], txns := b.txns[b.idle[0] := txn], idle := b.idle[1..])
  }

  function Finish(b: Board, i: int): Board {
    b.(status := b.status[i := Completed], txns := b.txns - {i}, done := b.done + 1)
  }

  function Expire(b: Board, i: int): Board {
    b.(status := b.status[i := Idle], txns := b.txns - {i}, idle := b.idle + [i])
  }

  function ExpireAll(b: Board, stale: seq<int>): Board {
    if stale == [] then b else Expire(ExpireAll(b, stale[..|stale| - 1]), stale[|stale| - 1])
  }

  function AddTask(b: Board, i: int): Board {
    b.(status := b.status[i := Idle], idle := b.idle + [i])
  }

  predicate IsCurrent(b: Board, i: int, txn: nat) {
    i in b.txns && b.txns[i].id == txn
  }

  // The transactions that ran out of time, in the order the map happens to be walked.
  ghost predicate IsStale(b: Board, now: int, stale: seq<int>) {
    && Distinct(stale)
    && forall i :: i in stale <==> i in b.txns && now - b.txns[i].begin > TIMEOUT_LIMIT
  }

  // ---------- Reports of map tasks ----------

  datatype Verdict = Fine | Malformed | Crash

  datatype Added = Added(files: map<int, seq<string>>, reduces: Board, verdict: Verdict)

  function AddFile(a: Added, bucket: int, name: string): Added {
    if bucket in a.files then a.(files := a.files[bucket := a.files[bucket] + [name]])
    else a.(files := a.files[bucket := [name]], reduces := AddTask(a.reduces, bucket))
  }

  // Stops at the first name it cannot read; the names before it stay.
  function AddFiles(a: Added, names: seq<string>): Added
    decreases |names|
  {
    if names == [] then a
    else
      match Parse(names[0])
      case Bucket(bucket) => AddFiles(AddFile(a, bucket, names[0]), names[1..])
      case BadNumber => a.(verdict := Malformed)
      case TooFewParts => a.(verdict := Crash)
  }

  // ---------- The coordinator ----------

  function Start(inputs: seq<string>): Coord {
    var all: seq<int> := seq(|inputs|, i => i);
    Coord(inputs, 0, Board(map i | i in all :: Idle, map[], all, 0), Board(map[], map[], [], 0), map[])
  }

  predicate MapsDone(c: Coord) {
    c.maps.done >= |c.inputs|
  }

  predicate ReducesDone(c: Coord) {
    c.reduces.done >= |c.files|
  }

  predicate Done(c: Coord) {
    MapsDone(c) && ReducesDone(c)
  }

  function HandMap(c: Coord, now: int): Coord
    requires c.maps.idle != []
  {
    c.(maps := TakeHead(c.maps, Txn(c.nextTxn, now)), nextTxn := c.nextTxn + 1)
  }

  function HandReduce(c: Coord, now: int): Coord
    requires c.reduces.idle != []
  {
    c.(reduces := TakeHead(c.reduces, Txn(c.nextTxn, now)), nextTxn := c.nextTxn + 1)
  }

  function MapReport(c: Coord, task: int, names: seq<string>): (r: (Coord, Verdict)) {
    var a := AddFiles(Added(c.files, c.reduces, Fine), names);
    var c' := c.(files := a.files, reduces := a.reduces);
    (if a.verdict == Fine then c'.(maps := Finish(c.maps, task)) else c', a.verdict)
  }

  // ---------- The steps ----------

  datatype Kind = Map | Reduce

  // What happened to a task; `files` is the file list handed out or reported.
  datatype Event =
    | Handed(kind: Kind, task: int, txn: nat, files: seq<string>)
    | Accepted(kind: Kind, task: int, txn: nat, files: seq<string>)
    | Expired(kind: Kind, task: int)

  // `waiting` are the requests that got past the wait for the map tasks.
  datatype Sys = Sys(c: Coord, waiting: set<int>, log: seq<Event>)

  datatype Step =
    | GiveMap(now: int)
    | PassMaps(worker: int)
    | GiveReduce(worker: int, now: int)
    | ReportMap(task: int, txn: nat, names: seq<string>)
    | ReportReduce(task: int, txn: nat)
    | ExpireMaps(now: int, stale: seq<int>)
    | ExpireReduces(now: int, stale: seq<int>)

  function Init(inputs: seq<string>): Sys {
    Sys(Start(inputs), {}, [])
  }

  function ExpiredEvents(kind: Kind, stale: seq<int>): (events: seq<Event>)
    ensures |events| == |stale|
  {
    seq(|stale|, i requires 0 <= i < |stale| => Expired(kind, stale[i]))
  }

  // A crash of the coordinator ends the run.
  ghost predicate Enabled(s: Sys, step: Step) {
    match step
    case GiveMap(_) => !MapsDone(s.c) && s.c.maps.idle != []
    case PassMaps(_) => MapsDone(s.c)
    case GiveReduce(worker, _) => worker in s.waiting && !ReducesDone(s.c) && s.c.reduces.idle != []
    case ReportMap(task, txn, names) => IsCurrent(s.c.maps, task, txn) ==> MapReport(s.c, task, names).1 != Crash
    case ReportReduce(_, _) => true
    case ExpireMaps(now, stale) => IsStale(s.c.maps, now, stale)
    case ExpireReduces(now, stale) => IsStale(s.c.reduces, now, stale)
  }

  ghost function Next(s: Sys, step: Step): Sys
    requires Enabled(s, step)
  {
    var c := s.c;
    match step
    case GiveMap(now) =>
      var i := c.maps.idle[0];
      Sys(HandMap(c, now), s.waiting,
          s.log + [Handed(Map, i, c.nextTxn, if 0 <= i < |c.inputs| then [c.inputs[i]] else [])])
    case PassMaps(worker) => s.(waiting := s.waiting + {worker})
    case GiveReduce(worker, now) =>
      var i := c.reduces.idle[0];
      Sys(HandReduce(c, now), s.waiting - {worker},
          s.log + [Handed(Reduce, i, c.nextTxn, if i in c.files then c.files[i] else [])])
    case ReportMap(task, txn, names) =>
      if !IsCurrent(c.maps, task, txn) then s
      else
        var r := MapReport(c, task, names);
        s.(c := r.0, log := s.log + if r.1 == Fine then [Accepted(Map, task, txn, names)] else [])
    case ReportReduce(task, txn) =>
      if !IsCurrent(c.reduces, task, txn) then s
      else s.(c := c.(reduces := Finish(c.reduces, task)), log := s.log + [Accepted(Reduce, task, txn, [])])
    case ExpireMaps(_, stale) =>
      s.(c := c.(maps := ExpireAll(c.maps, stale)), log := s.log + ExpiredEvents(Map, stale))
    case ExpireReduces(_, stale) =>
      s.(c := c.(reduces := ExpireAll(c.reduces, stale)), log := s.log + ExpiredEvents(Reduce, stale))
  }

  ghost predicate Follows(s: Sys, step: Step, s': Sys) {
    Enabled(s, step) && s' == Next(s, step)
  }

  // A run: the states the system goes through.
  ghost predicate Run(inputs: seq<string>, trace: seq<Sys>, steps: seq<Step>) {
    && |trace| == |steps| + 1
    && trace[0] == Init(inputs)
    && forall k :: 0 <= k < |steps| ==> Follows(trace[k], steps[k], trace[k + 1])
  }
}

/**
 A run of a MapReduce job that goes wrong (src/mr/worker.go, src/mr/coordinator.go): a map worker is
 given up on, its replacement finishes and is accepted, and then the first one creates the file
 again.  The reduce task finds it empty, and the job is done without a line of output.
 */
module MrLateWorker {
  import opened Collections
  import opened FileNames
  import opened MapReduce
  import opened MapReduceResult
  import opened MrWorkers
  import opened C = MrCoordinator
  import MrFiles

  const One := KeyValue("a", "1")

  const Two := KeyValue("a", "2")

  function TheSetup(hash: Hash): Setup {
    Setup(["in"], [[One, Two]], hash, 1)
  }

  function TheFile(): string {
    Name(0, 0)
  }

  // ---------- The coordinator's part ----------

  // The map task handed out a second time.
  ghost predicate Retried(s: Sys) {
    && s.c.inputs == ["in"] && s.c.nextTxn == 2 && s.c.maps.txns == map[0 := Txn(1, 11)] && s.c.maps.done == 0
    && s.c.maps.idle == [] && s.c.files == map[] && s.c.reduces == Board(map[], map[], [], 0) && s.waiting == {}
    && s.log == [Handed(Map, 0, 0, ["in"]), Expired(Map, 0), Handed(Map, 0, 1, ["in"])]
  }

  lemma Retry() returns (s1: Sys, s2: Sys, s3: Sys)
    ensures C.Follows(Init(["in"]), GiveMap(0), s1) && s1.log == [Handed(Map, 0, 0, ["in"])]
    ensures C.Follows(s1, ExpireMaps(11, [0]), s2) && C.Follows(s2, GiveMap(11), s3) && Retried(s3)
  {
    s1 := MrFiles.FirstTry();
    s2, s3 := MrFiles.SecondTry(s1);
  }

  ghost predicate Mapped(s: Sys) {
    && s.c.inputs == ["in"] && s.c.nextTxn == 2 && s.c.maps.done == 1 && s.c.files == map[0 := [TheFile()]]
    && s.c.reduces == Board(map[0 := Idle], map[], [0], 0) && s.waiting == {} && |s.log| == 4
  }

  lemma Accept(s: Sys) returns (s': Sys)
    requires Retried(s)
    ensures C.Follows(s, ReportMap(0, 1, [TheFile()]), s') && Mapped(s')
  {
    ParseOfName(0, 0);
    var names := [TheFile()];
    assert names[1..] == [];
    var a := Added(s.c.files, s.c.reduces, Fine);
    assert AddFiles(a, names) == AddFile(a, 0, names[0]);
    s' := C.Next(s, ReportMap(0, 1, names));
  }

  lemma Reduce(s: Sys) returns (s1: Sys, s2: Sys, s3: Sys)
    requires Mapped(s)
    ensures C.Follows(s, PassMaps(7), s1) && C.Follows(s1, GiveReduce(7, 12), s2)
    ensures C.Follows(s2, ReportReduce(0, 2), s3) && C.Done(s3.c) && s3.c.files == map[0 := [TheFile()]]
    ensures |s2.log| == 5 && s2.log[4] == Handed(C.Reduce, 0, 2, [TheFile()]) && s2.log <= s3.log
  {
    s1 := C.Next(s, PassMaps(7));
    s2 := C.Next(s1, GiveReduce(7, 12));
    s3 := C.Next(s2, ReportReduce(0, 2));
  }

  // ---------- The workers' part ----------

  datatype Path = Path(run: seq<Job>, steps: seq<MrWorkers.Step>)

  ghost predicate Leads(u: Setup, p: Path, j: Job) {
    MrWorkers.IsRun(u, p.run, p.steps) && p.run[|p.steps|] == j
  }

  ghost predicate GoesOn(p: Path, q: Path) {
    p.run <= q.run && p.steps <= q.steps
  }

  lemma Then(u: Setup, p: Path, j: Job, step: MrWorkers.Step, j': Job) returns (q: Path)
    requires Leads(u, p, j) && MrWorkers.Follows(u, j, step, j')
    ensures Leads(u, q, j') && GoesOn(p, q) && |q.steps| == |p.steps| + 1
  {
    q := Path(p.run + [j'], p.steps + [step]);
    forall k | 0 <= k < |q.steps| ensures MrWorkers.Follows(u, q.run[k], q.steps[k], q.run[k + 1]) {
      if k < |p.steps| {
        assert MrWorkers.Follows(u, p.run[k], p.steps[k], p.run[k + 1]);
      }
    }
  }

  // A step of the coordinator that is no report of a map task.
  lemma ThenCoordinate(u: Setup, p: Path, j: Job, step: C.Step, s: Sys) returns (q: Path, j': Job)
    requires Leads(u, p, j) && IsJob(u, j) && C.Follows(j.sys, step, s) && !step.ReportMap?
    ensures j' == j.(sys := s) && Leads(u, q, j') && GoesOn(p, q) && |q.steps| == |p.steps| + 1
  {
    j' := j.(sys := s);
    q := Then(u, p, j, Coordinate(step), j');
  }

  lemma {:induction false} OnlyBucket(kvs: seq<KeyValue>, hash: Hash)
    ensures InBucket(kvs, hash, 1, 0) == kvs
  {
    if kvs != [] {
      OnlyBucket(kvs[..|kvs| - 1], hash);
    }
  }

  // There is one bucket, and one file.
  lemma AtWork(hash: Hash, w: Worker)
    requires w.task == 0 && w.pairs <= 2 && (w.created ==> w.pairs < 2)
    ensures IsWorker(TheSetup(hash), w) && Part(TheSetup(hash), w, 0) == [One, Two][..w.pairs]
    ensures w.pairs < 2 ==>
              && NextPair(TheSetup(hash), w) == [One, Two][w.pairs] && NextBucket(TheSetup(hash), w) == 0
              && NextName(TheSetup(hash), w) == TheFile()
  {
    OnlyBucket([One, Two][..w.pairs], hash);
  }

  lemma DoCreate(hash: Hash, p: Path, j: Job, x: nat) returns (q: Path, j': Job)
    requires Leads(TheSetup(hash), p, j) && IsJob(TheSetup(hash), j) && x < |j.workers|
    requires j.workers[x].task == 0 && j.workers[x].pairs == 0 && !j.workers[x].created
    ensures j' == j.(workers := j.workers[x := j.workers[x].(created := true)], files := j.files[TheFile() := map[]])
    ensures Leads(TheSetup(hash), q, j') && IsJob(TheSetup(hash), j') && GoesOn(p, q) && |q.steps| == |p.steps| + 1
  {
    AtWork(hash, j.workers[x]);
    j' := j.(workers := j.workers[x := j.workers[x].(created := true)], files := j.files[TheFile() := map[]]);
    q := Then(TheSetup(hash), p, j, Create(x), j');
    AtWork(hash, j'.workers[x]);
  }

  lemma DoWrite(hash: Hash, p: Path, j: Job, x: nat) returns (q: Path, j': Job)
    requires Leads(TheSetup(hash), p, j) && IsJob(TheSetup(hash), j) && x < |j.workers| && TheFile() in j.files
    requires var w := j.workers[x]; w.task == 0 && w.pairs < 2 && (w.created || w.pairs > 0)
    ensures var w := j.workers[x];
            j' == j.(workers := j.workers[x := w.(pairs := w.pairs + 1, created := false)],
                     files := j.files[TheFile() := j.files[TheFile()][w.pairs := [One, Two][w.pairs]]])
    ensures Leads(TheSetup(hash), q, j') && IsJob(TheSetup(hash), j') && GoesOn(p, q) && |q.steps| == |p.steps| + 1
  {
    var w := j.workers[x];
    AtWork(hash, w);
    j' := j.(workers := j.workers[x := w.(pairs := w.pairs + 1, created := false)],
             files := j.files[TheFile() := j.files[TheFile()][w.pairs := [One, Two][w.pairs]]]);
    q := Then(TheSetup(hash), p, j, Write(x), j');
    AtWork(hash, j'.workers[x]);
  }

  // Both workers have begun, and the second has done all its work.
  lemma SecondFinishes(hash: Hash) returns (p: Path, j: Job)
    ensures Leads(TheSetup(hash), p, j) && IsJob(TheSetup(hash), j) && Retried(j.sys)
    ensures j.workers == [Worker(0, 0, 0, false), Worker(0, 1, 2, false)]
    ensures j.files == map[TheFile() := map[0 := One, 1 := Two]]
  {
    var u := TheSetup(hash);
    var s1, s2, s3 := Retry();
    j := Job(Init(["in"]), [], map[]);
    p := Path([j], []);
    p, j := ThenCoordinate(u, p, j, GiveMap(0), s1);
    var w0, w1 := Worker(0, 0, 0, false), Worker(0, 1, 0, false);
    p := Then(u, p, j, Begin(0), j.(workers := [w0]));
    p, j := ThenCoordinate(u, p, j.(workers := [w0]), ExpireMaps(11, [0]), s2);
    p, j := ThenCoordinate(u, p, j, GiveMap(11), s3);
    p := Then(u, p, j, Begin(2), j.(workers := [w0, w1]));
    p, j := WriteBoth(hash, p, j.(workers := [w0, w1]));
  }

  lemma WriteBoth(hash: Hash, p: Path, j: Job) returns (q: Path, j': Job)
    requires Leads(TheSetup(hash), p, j) && IsJob(TheSetup(hash), j) && j.files == map[]
    requires j.workers == [Worker(0, 0, 0, false), Worker(0, 1, 0, false)]
    ensures Leads(TheSetup(hash), q, j') && IsJob(TheSetup(hash), j') && j'.sys == j.sys
    ensures j'.workers == [Worker(0, 0, 0, false), Worker(0, 1, 2, false)]
    ensures j'.files == map[TheFile() := map[0 := One, 1 := Two]]
  {
    q, j' := DoCreate(hash, p, j, 1);
    q, j' := DoWrite(hash, q, j', 1);
    q, j' := DoWrite(hash, q, j', 1);
  }

  lemma TheReport(hash: Hash)
    ensures Spread([TheFile()], map[TheFile() := [One, Two]], [One, Two], 0, hash, 1)
  {
    var kvs := [One, Two];
    OnlyBucket(kvs, hash);
    assert One in kvs && hash(One.key) % 1 == 0;
    assert Buckets(kvs, hash, 1) == {0};
    forall b: nat | Name(0, b) in map[TheFile() := kvs] ensures kvs == InBucket(kvs, hash, 1, b) {
      NameIsInjective(0, b, 0, 0);
    }
  }

  lemma DoReport(hash: Hash, p: Path, j: Job) returns (q: Path, j': Job)
    requires Leads(TheSetup(hash), p, j) && IsJob(TheSetup(hash), j) && Retried(j.sys)
    requires |j.workers| == 2 && j.workers[1] == Worker(0, 1, 2, false)
    ensures Leads(TheSetup(hash), q, j') && IsJob(TheSetup(hash), j') && Mapped(j'.sys)
    ensures j'.workers == j.workers && j'.files == j.files
  {
    var s := Accept(j.sys);
    var report := ReportMap(0, 1, [TheFile()]);
    TheReport(hash);
    AtWork(hash, j.workers[1]);
    assert IsReportOf(TheSetup(hash), j.workers[1], report);
    j' := j.(sys := s);
    q := Then(TheSetup(hash), p, j, Coordinate(report), j');
  }

  // The second worker is accepted, and then the first one creates the file.
  lemma FirstIsLate(hash: Hash) returns (p: Path, j: Job)
    ensures Leads(TheSetup(hash), p, j) && IsJob(TheSetup(hash), j) && Mapped(j.sys)
    ensures j.files == map[TheFile() := map[]]
  {
    p, j := SecondFinishes(hash);
    p, j := DoReport(hash, p, j);
    p, j := DoCreate(hash, p, j, 0);
  }

  // The reduce task is handed out, at which moment the file is empty, and reported.
  lemma JobIsDone(hash: Hash) returns (p: Path, at: nat)
    ensures IsRun(TheSetup(hash), p.run, p.steps) && at < |p.steps|
    ensures p.run[at].files == map[TheFile() := map[]] && |p.run[at].sys.log| == 5
    ensures var s := p.run[|p.steps|].sys;
            && C.Done(s.c) && s.c.files == map[0 := [TheFile()]]
            && |s.log| > 4 && s.log[4] == Handed(C.Reduce, 0, 2, [TheFile()])
  {
    var u := TheSetup(hash);
    var j;
    p, j := FirstIsLate(hash);
    var s1, s2, s3 := Reduce(j.sys);
    p, j := ThenCoordinate(u, p, j, PassMaps(7), s1);
    p, j := ThenCoordinate(u, p, j, GiveReduce(7, 12), s2);
    at := |p.steps|;
    var q, j' := ThenCoordinate(u, p, j, ReportReduce(0, 2), s3);
    assert q.run[at] == p.run[at] == j;
    p := q;
  }

  // The run as a whole: the job is done, its one reduce task has read the file while it was empty
  // and written no line, and the sequential program writes at least one.
  lemma LateWorkerTruncates(hash: Hash, reduce: Reducer) returns (p: Path, r: Reduction)
    ensures IsRun(TheSetup(hash), p.run, p.steps)
    ensures C.Done(p.run[|p.steps|].sys.c) && Reduced(p.run, |p.steps|, [0], [r], reduce)
    ensures Outputs([r]) == [[]]
    ensures forall lines :: SequentialWrites(lines, TheSetup(hash).runs, reduce) ==> lines != []
  {
    var at;
    p, at := JobIsDone(hash);
    r := Reduction(4, [[at]], map[TheFile() := []], []);
    ReadsNothing(p.run, |p.steps|, at, reduce);
    forall lines | SequentialWrites(lines, TheSetup(hash).runs, reduce) ensures lines != [] {
      SequentialIsNotEmpty(hash, lines, reduce);
    }
  }

  lemma ReadsNothing(run: seq<Job>, k: nat, at: nat, reduce: Reducer)
    requires at <= k < |run| && run[at].files == map[TheFile() := map[]] && |run[at].sys.log| == 5
    requires |run[k].sys.log| > 4 && run[k].sys.log[4] == Handed(C.Reduce, 0, 2, [TheFile()])
    ensures IsReduction(run, k, 0, Reduction(4, [[at]], map[TheFile() := []], []), reduce)
  {
    NothingIsWritten(reduce);
    assert IsRead(run, k, 4, TheFile(), [at], []);
  }

  lemma NothingIsWritten(reduce: Reducer)
    ensures ReduceWrites([], [TheFile()], map[TheFile() := []], reduce)
  {
    var disk: map<string, seq<KeyValue>> := map[TheFile() := []];
    assert [TheFile()][..0] == [];
    assert ReadAll([TheFile()], disk) == [];
    assert Enumerates([], KeysOf([])) && [] == Lines([], [], reduce);
    assert SortedFrom([], ReadAll([TheFile()], disk)) && MapReduce.Reports([], [], reduce);
  }

  lemma SequentialIsNotEmpty(hash: Hash, lines: seq<string>, reduce: Reducer)
    requires SequentialWrites(lines, TheSetup(hash).runs, reduce)
    ensures lines != []
  {
    var sorted :| SortedFrom(sorted, Flatten([[One, Two]])) && MapReduce.Reports(lines, sorted, reduce);
    assert [[One, Two]][..0] == [];
    assert Flatten([[One, Two]]) == [One, Two];
    assert One in multiset([One, Two]);
    assert One in multiset(sorted);
    assert One in sorted;
    var keys :| Enumerates(keys, KeysOf(sorted)) && lines == Lines(keys, sorted, reduce);
    assert "a" in KeysOf(sorted);
  }
}

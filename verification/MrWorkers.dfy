/**
 The MapReduce workers and their files (src/mr/worker.go), in any interleaving with each other and
 with the coordinator.  Creating a file, which empties it, and writing a pair are steps of their own.
 Executions of one map task may overlap, and one that was given up on may go on or stop anywhere.

 The map function gives a task the same pairs every time, so the k-th pair of a bucket has the same
 place in the bucket's file whoever writes it.  A file is therefore a map from places to pairs, and
 reading it ends at the first place that is not filled.
 */
module MrWorkers {
  import opened Collections
  import opened FileNames
  import opened MapReduce
  import opened MapReduceResult
  import opened MrJob
  import MrCoordinator
  import MrFiles
  import MrSafety

  // ---------- Files ----------

  type File = map<nat, KeyValue>

  // What is read of the first k places.
  function ReadTo(file: File, k: nat): (r: seq<KeyValue>)
    ensures |r| <= k
  {
    if k == 0 then []
    else
      var before := ReadTo(file, k - 1);
      if |before| == k - 1 && k - 1 in file then before + [file[k - 1]] else before
  }

  // All that is read: there is no more than there are pairs.
  function Contents(file: File): seq<KeyValue> {
    ReadTo(file, |file|)
  }

  lemma {:induction false} ReadToIs(file: File, k: nat)
    ensures forall q :: 0 <= q < |ReadTo(file, k)| ==> q in file && ReadTo(file, k)[q] == file[q]
    ensures |ReadTo(file, k)| < k ==> |ReadTo(file, k)| !in file
  {
    if k > 0 {
      ReadToIs(file, k - 1);
    }
  }

  // Reading takes the longest filled beginning.
  lemma ContentsIs(file: File)
    ensures forall q :: 0 <= q < |Contents(file)| ==> q in file && Contents(file)[q] == file[q]
    ensures |Contents(file)| !in file
  {
    var k := |Contents(file)|;
    ReadToIs(file, |file|);
    if k == |file| && k in file {
      assert Indices(k) <= file.Keys && k in file.Keys;
      SubsetSize(Indices(k) + {k}, file.Keys);
      assert false;
    }
  }

  // The file holds nothing but pairs of `all`, each in its place.
  ghost predicate IsPartOf(file: File, all: seq<KeyValue>) {
    forall q :: q in file ==> q < |all| && file[q] == all[q]
  }

  lemma AllIsRead(file: File, all: seq<KeyValue>)
    requires IsPartOf(file, all)
    ensures Contents(file) == all <==> forall q: nat :: q < |all| ==> q in file
  {
    ContentsIs(file);
    var k := |Contents(file)|;
    if forall q: nat :: q < |all| ==> q in file {
      assert k >= |all|;
      assert k > |all| ==> |all| in file;
    }
  }

  // ---------- Workers ----------

  // The inputs of a job, what the map function makes of each, and how pairs go to buckets.
  datatype Setup = Setup(inputs: seq<string>, runs: seq<seq<KeyValue>>, hash: Hash, n: nat)

  ghost predicate IsSetup(u: Setup) {
    |u.runs| == |u.inputs| && 0 < u.n <= MAX_INT
  }

  // One execution of a map task: how many pairs it has written, and whether it has just created
  // the file of the next one.
  datatype Worker = Worker(task: nat, txn: nat, pairs: nat, created: bool)

  ghost predicate IsWorker(u: Setup, w: Worker) {
    && w.task < |u.runs| && w.pairs <= |u.runs[w.task]|
    && (w.created ==> w.pairs < |u.runs[w.task]|)
  }

  ghost predicate Finished(u: Setup, w: Worker)
    requires IsWorker(u, w)
  {
    w.pairs == |u.runs[w.task]|
  }

  ghost function NextPair(u: Setup, w: Worker): KeyValue
    requires IsWorker(u, w) && !Finished(u, w)
  {
    u.runs[w.task][w.pairs]
  }

  ghost function NextBucket(u: Setup, w: Worker): nat
    requires IsSetup(u) && IsWorker(u, w) && !Finished(u, w)
  {
    u.hash(NextPair(u, w).key) % u.n
  }

  ghost function NextName(u: Setup, w: Worker): string
    requires IsSetup(u) && IsWorker(u, w) && !Finished(u, w)
  {
    Name(w.task, NextBucket(u, w))
  }

  // What the worker has written of a bucket.
  ghost function Part(u: Setup, w: Worker, b: nat): seq<KeyValue>
    requires IsSetup(u) && IsWorker(u, w)
  {
    InBucket(u.runs[w.task][..w.pairs], u.hash, u.n, b)
  }

  // All that a task has for a bucket.
  ghost function Bucket(u: Setup, i: nat, b: nat): seq<KeyValue>
    requires IsSetup(u) && i < |u.runs|
  {
    InBucket(u.runs[i], u.hash, u.n, b)
  }

  // The worker has created the bucket's file.
  ghost predicate HasFile(u: Setup, w: Worker, b: nat)
    requires IsSetup(u) && IsWorker(u, w)
  {
    Part(u, w, b) != [] || (w.created && NextBucket(u, w) == b)
  }

  // ---------- The job ----------

  datatype Job = Job(sys: MrCoordinator.Sys, workers: seq<Worker>, files: map<string, File>)

  datatype Step =
    | Coordinate(step: MrCoordinator.Step)
    | Begin(p: nat)
    | Create(x: nat)
    | Write(x: nat)

  ghost predicate IsJob(u: Setup, j: Job) {
    IsSetup(u) && forall x :: 0 <= x < |j.workers| ==> IsWorker(u, j.workers[x])
  }

  // A worker that has finished reports, under its own transaction, the names WriteBuckets gave it.
  ghost predicate IsReportOf(u: Setup, w: Worker, step: MrCoordinator.Step)
    requires IsSetup(u) && IsWorker(u, w)
  {
    && step.ReportMap? && Finished(u, w) && step.task == w.task && step.txn == w.txn
    && exists files :: Spread(step.names, files, u.runs[w.task], w.task, u.hash, u.n)
  }

  ghost predicate IsReported(u: Setup, j: Job, step: MrCoordinator.Step)
    requires IsJob(u, j)
  {
    exists x :: 0 <= x < |j.workers| && IsReportOf(u, j.workers[x], step)
  }

  ghost predicate IsHandedMap(u: Setup, j: Job, p: nat) {
    && p < |j.sys.log| && j.sys.log[p].Handed? && j.sys.log[p].kind == MrCoordinator.Map
    && 0 <= j.sys.log[p].task < |u.runs|
  }

  ghost predicate Busy(u: Setup, j: Job, x: nat)
    requires IsJob(u, j)
  {
    x < |j.workers| && !Finished(u, j.workers[x])
  }

  ghost predicate Enabled(u: Setup, j: Job, step: Step)
    requires IsJob(u, j)
  {
    match step
    case Coordinate(step) => MrCoordinator.Enabled(j.sys, step) && (step.ReportMap? ==> IsReported(u, j, step))
    case Begin(p) => IsHandedMap(u, j, p)
    case Create(x) => Busy(u, j, x) && !HasFile(u, j.workers[x], NextBucket(u, j.workers[x]))
    case Write(x) => Busy(u, j, x) && HasFile(u, j.workers[x], NextBucket(u, j.workers[x]))
  }

  function FileOf(j: Job, name: string): File {
    if name in j.files then j.files[name] else map[]
  }

  ghost function Next(u: Setup, j: Job, step: Step): Job
    requires IsJob(u, j) && Enabled(u, j, step)
  {
    match step
    case Coordinate(step) => j.(sys := MrCoordinator.Next(j.sys, step))
    case Begin(p) => j.(workers := j.workers + [Worker(j.sys.log[p].task, j.sys.log[p].txn, 0, false)])
    case Create(x) =>
      var w := j.workers[x];
      j.(workers := j.workers[x := w.(created := true)], files := j.files[NextName(u, w) := map[]])
    case Write(x) =>
      var w := j.workers[x];
      var place := |Part(u, w, NextBucket(u, w))|;
      j.(workers := j.workers[x := w.(pairs := w.pairs + 1, created := false)],
         files := j.files[NextName(u, w) := FileOf(j, NextName(u, w))[place := NextPair(u, w)]])
  }

  ghost predicate Follows(u: Setup, j: Job, step: Step, j': Job) {
    IsJob(u, j) && Enabled(u, j, step) && j' == Next(u, j, step)
  }

  ghost predicate IsRun(u: Setup, run: seq<Job>, steps: seq<Step>) {
    && IsSetup(u) && |run| == |steps| + 1 && run[0] == Job(MrCoordinator.Init(u.inputs), [], map[])
    && forall k :: 0 <= k < |steps| ==> Follows(u, run[k], steps[k], run[k + 1])
  }

  // ---------- What the steps do to a file ----------

  ghost predicate Creates(u: Setup, j: Job, step: Step, name: string) {
    step.Create? && IsJob(u, j) && Busy(u, j, step.x) && NextName(u, j.workers[step.x]) == name
  }

  ghost predicate WritesAt(u: Setup, j: Job, step: Step, name: string, place: nat) {
    && step.Write? && IsJob(u, j) && Busy(u, j, step.x)
    && var w := j.workers[step.x];
       NextName(u, w) == name && |Part(u, w, NextBucket(u, w))| == place
  }

  lemma FileAfter(u: Setup, j: Job, step: Step, j': Job, name: string)
    requires Follows(u, j, step, j')
    ensures Creates(u, j, step, name) ==> FileOf(j', name) == map[]
    ensures forall place: nat :: place in FileOf(j', name) <==>
              !Creates(u, j, step, name) && (place in FileOf(j, name) || WritesAt(u, j, step, name, place))
  {
  }

  lemma StillJob(u: Setup, j: Job, step: Step, j': Job)
    requires Follows(u, j, step, j')
    ensures IsJob(u, j')
  {
  }

  lemma {:induction false} RunOfJobs(u: Setup, run: seq<Job>, steps: seq<Step>, k: nat)
    requires IsRun(u, run, steps) && k < |run|
    ensures IsJob(u, run[k])
  {
    if k > 0 {
      assert Follows(u, run[k - 1], steps[k - 1], run[k]);
      StillJob(u, run[k - 1], steps[k - 1], run[k]);
    }
  }

  // ---------- A file is complete exactly when it was written since it was last created ----------

  // The place was written, and the file not created again since.
  ghost predicate WrittenSince(u: Setup, run: seq<Job>, steps: seq<Step>, m: nat, name: string, place: nat)
    requires m <= |steps| < |run|
  {
    exists e :: 0 <= e < m && WritesAt(u, run[e], steps[e], name, place)
      && NotCreatedSince(u, run, steps, e + 1, m, name)
  }

  ghost predicate NotCreatedSince(u: Setup, run: seq<Job>, steps: seq<Step>, e: nat, m: nat, name: string)
    requires m <= |steps| < |run|
  {
    forall f :: e <= f < m ==> !Creates(u, run[f], steps[f], name)
  }

  // Every place of the task's bucket was.
  ghost predicate Settled(u: Setup, run: seq<Job>, steps: seq<Step>, m: nat, i: nat, b: nat)
    requires IsSetup(u) && i < |u.runs| && m <= |steps| < |run|
  {
    forall place: nat :: place < |Bucket(u, i, b)| ==> WrittenSince(u, run, steps, m, Name(i, b), place)
  }

  lemma WrittenBefore(u: Setup, run: seq<Job>, steps: seq<Step>, m: nat, name: string, place: nat)
    requires m < |steps| < |run| && WrittenSince(u, run, steps, m + 1, name, place)
    requires !WritesAt(u, run[m], steps[m], name, place)
    ensures WrittenSince(u, run, steps, m, name, place) && !Creates(u, run[m], steps[m], name)
  {
    var e :| 0 <= e < m + 1 && WritesAt(u, run[e], steps[e], name, place)
             && NotCreatedSince(u, run, steps, e + 1, m + 1, name);
    assert NotCreatedSince(u, run, steps, e + 1, m, name);
  }

  lemma StillWritten(u: Setup, run: seq<Job>, steps: seq<Step>, m: nat, name: string, place: nat)
    requires m < |steps| < |run|
    requires WrittenSince(u, run, steps, m, name, place) && !Creates(u, run[m], steps[m], name)
    ensures WrittenSince(u, run, steps, m + 1, name, place)
  {
    var e :| 0 <= e < m && WritesAt(u, run[e], steps[e], name, place)
             && NotCreatedSince(u, run, steps, e + 1, m, name);
    assert NotCreatedSince(u, run, steps, e + 1, m + 1, name);
  }

  lemma WrittenNext(u: Setup, run: seq<Job>, steps: seq<Step>, m: nat, name: string, place: nat)
    requires m < |steps| < |run|
    ensures WrittenSince(u, run, steps, m + 1, name, place) <==>
              WritesAt(u, run[m], steps[m], name, place)
              || (WrittenSince(u, run, steps, m, name, place) && !Creates(u, run[m], steps[m], name))
  {
    if WritesAt(u, run[m], steps[m], name, place) {
      assert NotCreatedSince(u, run, steps, m + 1, m + 1, name);
    } else if WrittenSince(u, run, steps, m + 1, name, place) {
      WrittenBefore(u, run, steps, m, name, place);
    } else if WrittenSince(u, run, steps, m, name, place) && !Creates(u, run[m], steps[m], name) {
      StillWritten(u, run, steps, m, name, place);
    }
  }

  // The places filled are those written since the file was last created.
  lemma {:induction false} FilledIff(u: Setup, run: seq<Job>, steps: seq<Step>, m: nat, name: string, place: nat)
    requires IsRun(u, run, steps) && m < |run|
    ensures place in FileOf(run[m], name) <==> WrittenSince(u, run, steps, m, name, place)
  {
    if m > 0 {
      FilledIff(u, run, steps, m - 1, name, place);
      assert Follows(u, run[m - 1], steps[m - 1], run[m]);
      FileAfter(u, run[m - 1], steps[m - 1], run[m], name);
      WrittenNext(u, run, steps, m - 1, name, place);
    }
  }

  lemma {:induction false} BucketGrows(kvs: seq<KeyValue>, hash: Hash, n: nat, b: nat, p: nat)
    requires n > 0 && p <= |kvs|
    ensures InBucket(kvs[..p], hash, n, b) <= InBucket(kvs, hash, n, b)
  {
    if p == |kvs| {
      assert kvs[..p] == kvs;
    } else {
      var front := kvs[..|kvs| - 1];
      BucketGrows(front, hash, n, b, p);
      assert front[..p] == kvs[..p];
    }
  }

  // The pair a worker writes next belongs at the place it writes it to.
  lemma NextIsInPlace(u: Setup, w: Worker)
    requires IsSetup(u) && IsWorker(u, w) && !Finished(u, w)
    ensures var b := NextBucket(u, w);
            && |Part(u, w, b)| < |Bucket(u, w.task, b)| && Bucket(u, w.task, b)[|Part(u, w, b)|] == NextPair(u, w)
            && Part(u, w.(pairs := w.pairs + 1, created := false), b) == Part(u, w, b) + [NextPair(u, w)]
  {
    var kvs, b := u.runs[w.task], NextBucket(u, w);
    var more := kvs[..w.pairs + 1];
    assert more[..w.pairs] == kvs[..w.pairs] && more[w.pairs] == NextPair(u, w);
    BucketGrows(kvs, u.hash, u.n, b, w.pairs + 1);
  }

  lemma WriteIsPart(u: Setup, j: Job, step: Step, j': Job, i: nat, b: nat)
    requires Follows(u, j, step, j') && i < |u.runs| && IsPartOf(FileOf(j, Name(i, b)), Bucket(u, i, b))
    ensures IsPartOf(FileOf(j', Name(i, b)), Bucket(u, i, b))
  {
    if step.Write? {
      var w := j.workers[step.x];
      NextIsInPlace(u, w);
      if NextName(u, w) == Name(i, b) {
        NameIsInjective(w.task, NextBucket(u, w), i, b);
      }
    }
  }

  lemma {:induction false} FilesAreParts(u: Setup, run: seq<Job>, steps: seq<Step>, m: nat, i: nat, b: nat)
    requires IsRun(u, run, steps) && m < |run| && i < |u.runs|
    ensures IsPartOf(FileOf(run[m], Name(i, b)), Bucket(u, i, b))
  {
    if m > 0 {
      FilesAreParts(u, run, steps, m - 1, i, b);
      assert Follows(u, run[m - 1], steps[m - 1], run[m]);
      WriteIsPart(u, run[m - 1], steps[m - 1], run[m], i, b);
    }
  }

  // What a reduce task would read now.
  ghost function DiskOf(j: Job): map<string, seq<KeyValue>> {
    map name | name in j.files :: Contents(j.files[name])
  }

  // However executions overlap and wherever they stop: a file holds all its bucket's pairs exactly
  // when every place of the bucket was written after the file was last created.
  lemma FileIsCompleteIff(u: Setup, run: seq<Job>, steps: seq<Step>, m: nat, i: nat, b: nat)
    requires IsRun(u, run, steps) && m < |run| && i < |u.runs| && b in Buckets(u.runs[i], u.hash, u.n)
    ensures Name(i, b) in DiskOf(run[m]) && DiskOf(run[m])[Name(i, b)] == Bucket(u, i, b)
            <==> Settled(u, run, steps, m, i, b)
  {
    var file, all := FileOf(run[m], Name(i, b)), Bucket(u, i, b);
    EmptyBucket(u.runs[i], u.hash, u.n, b);
    FilesAreParts(u, run, steps, m, i, b);
    AllIsRead(file, all);
    forall place: nat ensures place in file <==> WrittenSince(u, run, steps, m, Name(i, b), place) {
      FilledIff(u, run, steps, m, Name(i, b), place);
    }
    if Name(i, b) !in run[m].files {
      assert 0 !in file;
    }
  }

  ghost predicate BucketSettled(u: Setup, run: seq<Job>, steps: seq<Step>, m: nat, b: nat)
    requires IsSetup(u) && m <= |steps| < |run|
  {
    forall i: nat :: i < |u.runs| && b in Buckets(u.runs[i], u.hash, u.n) ==> Settled(u, run, steps, m, i, b)
  }

  lemma DiskIsCompleteIff(u: Setup, run: seq<Job>, steps: seq<Step>, m: nat, b: nat)
    requires IsRun(u, run, steps) && m < |run|
    ensures Complete(DiskOf(run[m]), u.runs, u.hash, u.n, b) <==> BucketSettled(u, run, steps, m, b)
  {
    forall i: nat | i < |u.runs| && b in Buckets(u.runs[i], u.hash, u.n)
      ensures Name(i, b) in DiskOf(run[m]) && DiskOf(run[m])[Name(i, b)] == Bucket(u, i, b)
              <==> Settled(u, run, steps, m, i, b)
    {
      FileIsCompleteIff(u, run, steps, m, i, b);
    }
  }

  // ---------- No execution under way ----------

  // Whoever created a file last has filled it as far as it has got.
  ghost predicate FilledBy(u: Setup, j: Job, x: nat, i: nat, b: nat)
    requires IsJob(u, j)
  {
    && x < |j.workers| && j.workers[x].task == i && HasFile(u, j.workers[x], b)
    && forall q: nat :: q < |Part(u, j.workers[x], b)| ==> q in FileOf(j, Name(i, b))
  }

  ghost predicate HasFiller(u: Setup, j: Job, i: nat, b: nat)
    requires IsJob(u, j)
  {
    exists x: nat :: FilledBy(u, j, x, i, b)
  }

  // A file a worker has created is there.
  ghost predicate FilesExist(u: Setup, j: Job)
    requires IsJob(u, j)
  {
    forall x: nat, b: nat :: x < |j.workers| && HasFile(u, j.workers[x], b) ==> Name(j.workers[x].task, b) in j.files
  }

  lemma PartAfterWrite(u: Setup, w: Worker, b: nat)
    requires IsSetup(u) && IsWorker(u, w) && !Finished(u, w)
    ensures var w' := w.(pairs := w.pairs + 1, created := false);
            IsWorker(u, w') && Part(u, w', b) == Part(u, w, b) + if NextBucket(u, w) == b then [NextPair(u, w)] else []
  {
    var kvs := u.runs[w.task];
    var more := kvs[..w.pairs + 1];
    assert more[..w.pairs] == kvs[..w.pairs] && more[w.pairs] == NextPair(u, w);
  }

  lemma StepKeepsFiles(u: Setup, j: Job, step: Step, j': Job)
    requires Follows(u, j, step, j') && FilesExist(u, j)
    ensures IsJob(u, j') && FilesExist(u, j')
  {
    StillJob(u, j, step, j');
    forall x: nat, b: nat | x < |j'.workers| && HasFile(u, j'.workers[x], b)
      ensures Name(j'.workers[x].task, b) in j'.files
    {
      if step.Write? && step.x == x {
        PartAfterWrite(u, j.workers[x], b);
      }
    }
  }

  lemma CreatorFills(u: Setup, j: Job, step: Step, j': Job, i: nat, b: nat)
    requires Follows(u, j, step, j') && IsJob(u, j') && Creates(u, j, step, Name(i, b))
    ensures HasFiller(u, j', i, b)
  {
    var w := j.workers[step.x];
    NameIsInjective(w.task, NextBucket(u, w), i, b);
    assert FilledBy(u, j', step.x, i, b);
  }

  lemma StillFilled(u: Setup, j: Job, step: Step, j': Job, i: nat, b: nat, x: nat)
    requires Follows(u, j, step, j') && IsJob(u, j') && FilledBy(u, j, x, i, b) && !Creates(u, j, step, Name(i, b))
    ensures FilledBy(u, j', x, i, b)
  {
    FileAfter(u, j, step, j', Name(i, b));
    if step.Write? && step.x == x {
      PartAfterWrite(u, j.workers[x], b);
    }
  }

  lemma StepKeepsFiller(u: Setup, j: Job, step: Step, j': Job, i: nat, b: nat)
    requires Follows(u, j, step, j') && IsJob(u, j') && FilesExist(u, j)
    requires Name(i, b) in j.files ==> HasFiller(u, j, i, b)
    ensures Name(i, b) in j'.files ==> HasFiller(u, j', i, b)
  {
    if Name(i, b) in j'.files {
      if Creates(u, j, step, Name(i, b)) {
        CreatorFills(u, j, step, j', i, b);
      } else {
        assert Name(i, b) in j.files;
        var x: nat :| FilledBy(u, j, x, i, b);
        StillFilled(u, j, step, j', i, b, x);
      }
    }
  }

  lemma {:induction false} RunFills(u: Setup, run: seq<Job>, steps: seq<Step>, m: nat, i: nat, b: nat)
    requires IsRun(u, run, steps) && m < |run|
    ensures IsJob(u, run[m]) && FilesExist(u, run[m]) && (Name(i, b) in run[m].files ==> HasFiller(u, run[m], i, b))
  {
    if m > 0 {
      RunFills(u, run, steps, m - 1, i, b);
      assert Follows(u, run[m - 1], steps[m - 1], run[m]);
      StepKeepsFiles(u, run[m - 1], steps[m - 1], run[m]);
      StepKeepsFiller(u, run[m - 1], steps[m - 1], run[m], i, b);
    }
  }

  ghost predicate AllFinished(u: Setup, j: Job, i: nat)
    requires IsJob(u, j)
  {
    forall x :: 0 <= x < |j.workers| && j.workers[x].task == i ==> Finished(u, j.workers[x])
  }

  ghost predicate WasExecuted(u: Setup, j: Job, i: nat)
    requires IsJob(u, j)
  {
    exists x :: 0 <= x < |j.workers| && j.workers[x].task == i && Finished(u, j.workers[x])
  }

  lemma WholePart(u: Setup, w: Worker, b: nat)
    requires IsSetup(u) && IsWorker(u, w) && Finished(u, w)
    ensures Part(u, w, b) == Bucket(u, w.task, b)
  {
    assert u.runs[w.task][..w.pairs] == u.runs[w.task];
  }

  lemma FinishedIsFilled(u: Setup, j: Job, i: nat, b: nat)
    requires IsJob(u, j) && FilesExist(u, j) && (Name(i, b) in j.files ==> HasFiller(u, j, i, b))
    requires i < |u.runs| && WasExecuted(u, j, i) && AllFinished(u, j, i) && b in Buckets(u.runs[i], u.hash, u.n)
    ensures forall place: nat :: place < |Bucket(u, i, b)| ==> place in FileOf(j, Name(i, b))
  {
    EmptyBucket(u.runs[i], u.hash, u.n, b);
    var x :| 0 <= x < |j.workers| && j.workers[x].task == i && Finished(u, j.workers[x]);
    WholePart(u, j.workers[x], b);
    assert HasFile(u, j.workers[x], b);
    var y: nat :| FilledBy(u, j, y, i, b);
    WholePart(u, j.workers[y], b);
  }

  // However its executions overlapped: once a task was executed and no execution of it is under
  // way, its files are complete.
  lemma FinishedIsSettled(u: Setup, run: seq<Job>, steps: seq<Step>, m: nat, i: nat, b: nat)
    requires IsRun(u, run, steps) && m < |run| && IsJob(u, run[m]) && i < |u.runs|
    requires WasExecuted(u, run[m], i) && AllFinished(u, run[m], i) && b in Buckets(u.runs[i], u.hash, u.n)
    ensures Settled(u, run, steps, m, i, b)
  {
    RunFills(u, run, steps, m, i, b);
    FinishedIsFilled(u, run[m], i, b);
    forall place: nat | place < |Bucket(u, i, b)| ensures WrittenSince(u, run, steps, m, Name(i, b), place) {
      FilledIff(u, run, steps, m, Name(i, b), place);
    }
  }

  // ---------- The coordinator's part of a run ----------

  ghost predicate AcceptedWereRun(u: Setup, j: Job)
    requires IsJob(u, j)
  {
    forall p :: 0 <= p < |j.sys.log| && j.sys.log[p].Accepted? && j.sys.log[p].kind == MrCoordinator.Map ==>
      j.sys.log[p].task >= 0 && WasExecuted(u, j, j.sys.log[p].task)
  }

  lemma StillExecuted(u: Setup, j: Job, step: Step, j': Job, i: nat)
    requires Follows(u, j, step, j') && IsJob(u, j') && WasExecuted(u, j, i)
    ensures WasExecuted(u, j', i)
  {
    var x :| 0 <= x < |j.workers| && j.workers[x].task == i && Finished(u, j.workers[x]);
    assert j'.workers[x] == j.workers[x];
  }

  lemma StepAccepts(u: Setup, j: Job, step: Step, j': Job)
    requires Follows(u, j, step, j') && IsJob(u, j') && AcceptedWereRun(u, j)
    ensures AcceptedWereRun(u, j')
  {
    forall p | 0 <= p < |j'.sys.log| && j'.sys.log[p].Accepted? && j'.sys.log[p].kind == MrCoordinator.Map
      ensures j'.sys.log[p].task >= 0 && WasExecuted(u, j', j'.sys.log[p].task)
    {
      if p < |j.sys.log| {
        assert j'.sys.log[p] == j.sys.log[p];
        StillExecuted(u, j, step, j', j.sys.log[p].task);
      } else {
        assert step.Coordinate? && step.step.ReportMap? && j'.sys.log[p].task == step.step.task;
        var x :| 0 <= x < |j.workers| && IsReportOf(u, j.workers[x], step.step);
        assert j'.workers[x] == j.workers[x];
      }
    }
  }

  lemma {:induction false} RunAccepts(u: Setup, run: seq<Job>, steps: seq<Step>, m: nat)
    requires IsRun(u, run, steps) && m < |run|
    ensures IsJob(u, run[m]) && AcceptedWereRun(u, run[m])
  {
    RunOfJobs(u, run, steps, m);
    if m > 0 {
      RunAccepts(u, run, steps, m - 1);
      assert Follows(u, run[m - 1], steps[m - 1], run[m]);
      StepAccepts(u, run[m - 1], steps[m - 1], run[m]);
    }
  }

  // Once every map task has been accepted and no execution is under way, every file is complete.
  lemma MappedIsSettled(u: Setup, run: seq<Job>, steps: seq<Step>, m: nat, b: nat)
    requires IsRun(u, run, steps) && m < |run| && IsJob(u, run[m])
    requires MrSafety.AllMapped(run[m].sys.log, |u.inputs|) && forall i: nat :: AllFinished(u, run[m], i)
    ensures BucketSettled(u, run, steps, m, b)
  {
    var j := run[m];
    RunAccepts(u, run, steps, m);
    forall i: nat | i < |u.runs| && b in Buckets(u.runs[i], u.hash, u.n)
      ensures Settled(u, run, steps, m, i, b)
    {
      assert MrSafety.WasAccepted(j.sys.log, MrCoordinator.Map, i);
      var p :| 0 <= p < |j.sys.log| && j.sys.log[p].Accepted? && MrSafety.About(j.sys.log[p], MrCoordinator.Map, i);
      assert WasExecuted(u, j, i);
      FinishedIsSettled(u, run, steps, m, i, b);
    }
  }

  // The coordinator's steps alone are a run of the coordinator in which every report is honest.
  lemma {:induction false} Projected(u: Setup, run: seq<Job>, steps: seq<Step>, k: nat)
    returns (trace: seq<MrCoordinator.Sys>, csteps: seq<MrCoordinator.Step>)
    requires IsRun(u, run, steps) && k < |run|
    ensures MrCoordinator.Run(u.inputs, trace, csteps) && trace[|csteps|] == run[k].sys
    ensures Reported(csteps, u.runs, u.hash, u.n)
  {
    if k == 0 {
      trace, csteps := [run[0].sys], [];
    } else {
      trace, csteps := Projected(u, run, steps, k - 1);
      var step := steps[k - 1];
      assert Follows(u, run[k - 1], step, run[k]);
      if step.Coordinate? {
        StepIsReported(u, run[k - 1], step.step);
        trace, csteps := Longer(u, trace, csteps, step.step, run[k].sys);
      }
    }
  }

  ghost predicate ReportsNames(u: Setup, step: MrCoordinator.Step)
    requires IsSetup(u)
  {
    step.ReportMap? ==> 0 <= step.task < |u.runs| && NamesOf(step.names, step.task, u.runs[step.task], u.hash, u.n)
  }

  lemma StepIsReported(u: Setup, j: Job, step: MrCoordinator.Step)
    requires IsJob(u, j) && Enabled(u, j, Coordinate(step))
    ensures ReportsNames(u, step)
  {
    if step.ReportMap? {
      var x :| 0 <= x < |j.workers| && IsReportOf(u, j.workers[x], step);
      var w := j.workers[x];
      var files :| Spread(step.names, files, u.runs[w.task], w.task, u.hash, u.n);
      SpreadGivesNames(step.names, files, u.runs[w.task], w.task, u.hash, u.n);
    }
  }

  lemma Longer(u: Setup, trace: seq<MrCoordinator.Sys>, steps: seq<MrCoordinator.Step>, step: MrCoordinator.Step,
               s: MrCoordinator.Sys) returns (trace': seq<MrCoordinator.Sys>, steps': seq<MrCoordinator.Step>)
    requires IsSetup(u) && MrCoordinator.Run(u.inputs, trace, steps) && Reported(steps, u.runs, u.hash, u.n)
    requires MrCoordinator.Follows(trace[|steps|], step, s) && ReportsNames(u, step)
    ensures MrCoordinator.Run(u.inputs, trace', steps') && trace'[|steps'|] == s
    ensures Reported(steps', u.runs, u.hash, u.n)
  {
    trace', steps' := trace + [s], steps + [step];
    forall k | 0 <= k < |steps'|
      ensures MrCoordinator.Follows(trace'[k], steps'[k], trace'[k + 1])
    {
      if k < |steps| {
        assert MrCoordinator.Follows(trace[k], steps[k], trace[k + 1]);
      }
    }
    forall k | 0 <= k < |steps'| && steps'[k].ReportMap?
      ensures ReportsNames(u, steps'[k])
    {
      if k < |steps| {
        assert steps'[k] == steps[k];
      }
    }
  }

  // ---------- Reading ----------

  // One file read pair by pair, each as the file is at that moment, up to the first place that is
  // not filled.  `p` is the hand-out the reader works on.
  ghost predicate IsRead(run: seq<Job>, k: nat, p: nat, name: string, moments: seq<nat>, r: seq<KeyValue>)
    requires k < |run|
  {
    && |moments| == |r| + 1
    && (forall q :: 0 <= q < |moments| ==> moments[q] <= k && p < |run[moments[q]].sys.log|)
    && name in run[moments[0]].files
    && (forall q :: 0 <= q < |r| ==> q in FileOf(run[moments[q]], name) && FileOf(run[moments[q]], name)[q] == r[q])
    && |r| !in FileOf(run[moments[|r|]], name)
  }

  // Every place was, when it was read, written since the file was last created.
  ghost predicate SettledRead(u: Setup, run: seq<Job>, steps: seq<Step>, i: nat, b: nat, moments: seq<nat>)
    requires IsSetup(u) && i < |u.runs| && |run| == |steps| + 1
    requires forall q :: 0 <= q < |moments| ==> moments[q] < |run|
  {
    forall q: nat :: q < |moments| && q < |Bucket(u, i, b)| ==> WrittenSince(u, run, steps, moments[q], Name(i, b), q)
  }

  // A reader gets all of the bucket exactly when that is so.
  lemma AllIsReadIff(u: Setup, run: seq<Job>, steps: seq<Step>, k: nat, p: nat, i: nat, b: nat, moments: seq<nat>,
                     r: seq<KeyValue>)
    requires IsRun(u, run, steps) && k < |run| && i < |u.runs| && IsRead(run, k, p, Name(i, b), moments, r)
    ensures r == Bucket(u, i, b) <==> SettledRead(u, run, steps, i, b, moments)
  {
    var all := Bucket(u, i, b);
    forall q: nat | q < |moments|
      ensures q in FileOf(run[moments[q]], Name(i, b)) <==> WrittenSince(u, run, steps, moments[q], Name(i, b), q)
      ensures IsPartOf(FileOf(run[moments[q]], Name(i, b)), all)
    {
      FilledIff(u, run, steps, moments[q], Name(i, b), q);
      FilesAreParts(u, run, steps, moments[q], i, b);
    }
    assert |r| <= |all| by {
      assert |r| > 0 ==> |r| - 1 in FileOf(run[moments[|r| - 1]], Name(i, b));
    }
  }

  // ---------- The whole job ----------

  // One reduce task: the hand-out it works on, when it read each place of each file, what it read,
  // and what it wrote.
  datatype Reduction = Reduction(p: nat, moments: seq<seq<nat>>, disk: map<string, seq<KeyValue>>, out: seq<string>)

  ghost predicate IsReduction(run: seq<Job>, k: nat, b: nat, r: Reduction, reduce: Reducer)
    requires k < |run|
  {
    var log := run[k].sys.log;
    && r.p < |log| && log[r.p].Handed? && log[r.p].kind == MrCoordinator.Reduce && log[r.p].task == b
    && |r.moments| == |log[r.p].files| && ReduceWrites(r.out, log[r.p].files, r.disk, reduce)
    && forall q :: 0 <= q < |r.moments| ==>
         IsRead(run, k, r.p, log[r.p].files[q], r.moments[q], r.disk[log[r.p].files[q]])
  }

  ghost predicate SettledReduction(u: Setup, run: seq<Job>, steps: seq<Step>, k: nat, b: nat, r: Reduction,
                                   reduce: Reducer)
    requires IsSetup(u) && |run| == |steps| + 1 && k < |run| && IsReduction(run, k, b, r, reduce)
  {
    forall q, i: nat :: 0 <= q < |r.moments| && i < |u.runs| && run[k].sys.log[r.p].files[q] == Name(i, b) ==>
      SettledRead(u, run, steps, i, b, r.moments[q])
  }

  // Such a reduce task has read all that there is for its bucket.
  lemma ReadIsComplete(u: Setup, run: seq<Job>, steps: seq<Step>, k: nat, b: nat, r: Reduction, reduce: Reducer)
    requires IsRun(u, run, steps) && k < |run| && IsReduction(run, k, b, r, reduce)
    requires SettledReduction(u, run, steps, k, b, r, reduce)
    ensures Complete(r.disk, u.runs, u.hash, u.n, b)
  {
    var names := run[k].sys.log[r.p].files;
    var trace, csteps := Projected(u, run, steps, k);
    var tasks := HandedLists(u.inputs, trace, csteps, |csteps|, r.p, u.runs, u.hash, u.n);
    forall i: nat | i < |u.runs| && b in Buckets(u.runs[i], u.hash, u.n)
      ensures Name(i, b) in r.disk && r.disk[Name(i, b)] == Bucket(u, i, b)
    {
      var q :| 0 <= q < |tasks| && tasks[q] == i;
      assert names[q] == Name(i, b) && names[q] in names;
      AllIsReadIff(u, run, steps, k, r.p, i, b, r.moments[q], r.disk[names[q]]);
    }
  }

  ghost function Outputs(rs: seq<Reduction>): seq<seq<string>> {
    seq(|rs|, i requires 0 <= i < |rs| => rs[i].out)
  }

  ghost function Disks(rs: seq<Reduction>): seq<map<string, seq<KeyValue>>> {
    seq(|rs|, i requires 0 <= i < |rs| => rs[i].disk)
  }

  // One reduction for each reduce task the coordinator knows.
  ghost predicate Reduced(run: seq<Job>, k: nat, buckets: seq<nat>, rs: seq<Reduction>, reduce: Reducer)
    requires k < |run|
  {
    && Distinct(buckets) && (forall b: nat :: b in buckets <==> b in run[k].sys.c.files)
    && |rs| == |buckets| && forall q :: 0 <= q < |rs| ==> IsReduction(run, k, buckets[q], rs[q], reduce)
  }

  // In every run that is done, with workers, late workers and the coordinator interleaved in any
  // way: if each place was settled when its reduce task read it, the outputs of the reduce tasks
  // together are, as a multiset of lines, what the sequential program writes for the same inputs.
  lemma DoneJobIsSequential(u: Setup, run: seq<Job>, steps: seq<Step>, k: nat, reduce: Reducer,
                            buckets: seq<nat>, rs: seq<Reduction>, lines: seq<string>)
    requires IsRun(u, run, steps) && k < |run| && MrCoordinator.Done(run[k].sys.c) && OrderFree(reduce)
    requires Reduced(run, k, buckets, rs, reduce)
    requires forall q :: 0 <= q < |rs| ==> SettledReduction(u, run, steps, k, buckets[q], rs[q], reduce)
    requires SequentialWrites(lines, u.runs, reduce)
    ensures multiset(Flatten(Outputs(rs))) == multiset(lines)
  {
    var trace, csteps := Projected(u, run, steps, k);
    var outs, disks := Outputs(rs), Disks(rs);
    forall q | 0 <= q < |rs|
      ensures Complete(disks[q], u.runs, u.hash, u.n, buckets[q])
      ensures WroteFor(trace[|csteps|], buckets[q], outs[q], disks[q], reduce)
    {
      ReadIsComplete(u, run, steps, k, buckets[q], rs[q], reduce);
    }
    FilesAreReduced(u.inputs, trace, csteps, |csteps|, u.runs, u.hash, u.n, disks, reduce, buckets, outs, lines);
  }

  // ---------- When no map execution is under way ----------

  lemma {:induction false} LogGrows(u: Setup, run: seq<Job>, steps: seq<Step>, m: nat, k: nat)
    requires IsRun(u, run, steps) && m <= k < |run|
    ensures run[m].sys.log <= run[k].sys.log
    decreases k - m
  {
    if m < k {
      LogGrows(u, run, steps, m, k - 1);
      assert Follows(u, run[k - 1], steps[k - 1], run[k]);
    }
  }

  // A reader's moments come after all map tasks were accepted.
  lemma ReadersComeLater(u: Setup, run: seq<Job>, steps: seq<Step>, k: nat, p: nat, m: nat)
    requires IsRun(u, run, steps) && m <= k < |run| && p < |run[m].sys.log| && p < |run[k].sys.log|
    requires run[k].sys.log[p].Handed? && run[k].sys.log[p].kind == MrCoordinator.Reduce && run[k].sys.log[p].task >= 0
    ensures MrSafety.AllMapped(run[m].sys.log, |u.inputs|)
  {
    LogGrows(u, run, steps, m, k);
    var log, before := run[m].sys.log, run[k].sys.log[..p];
    var trace, csteps := Projected(u, run, steps, k);
    ReportedIsHonest(csteps, u.runs, u.hash, u.n);
    var tasks := MrFiles.HandedFilesAreAll(u.inputs, trace, csteps, |csteps|, p);
    assert log[..p] == before;
    forall i: nat | i < |u.inputs| ensures MrSafety.WasAccepted(log, MrCoordinator.Map, i) {
      assert MrSafety.WasAccepted(before, MrCoordinator.Map, i);
      var q :| 0 <= q < |before| && before[q].Accepted? && MrSafety.About(before[q], MrCoordinator.Map, i);
      assert log[q] == before[q];
    }
  }

  ghost predicate NoneUnderWay(u: Setup, j: Job)
    requires IsJob(u, j)
  {
    forall i: nat :: AllFinished(u, j, i)
  }

  // No map execution was under way at any moment a reduce task read something.
  ghost predicate QuietReduction(u: Setup, run: seq<Job>, r: Reduction) {
    forall q, t :: 0 <= q < |r.moments| && 0 <= t < |r.moments[q]| && r.moments[q][t] < |run| ==>
      IsJob(u, run[r.moments[q][t]]) && NoneUnderWay(u, run[r.moments[q][t]])
  }

  lemma QuietIsSettled(u: Setup, run: seq<Job>, steps: seq<Step>, k: nat, b: nat, r: Reduction, reduce: Reducer)
    requires IsRun(u, run, steps) && k < |run| && IsReduction(run, k, b, r, reduce) && QuietReduction(u, run, r)
    ensures SettledReduction(u, run, steps, k, b, r, reduce)
  {
    var names := run[k].sys.log[r.p].files;
    forall q, i: nat | 0 <= q < |r.moments| && i < |u.runs| && names[q] == Name(i, b)
      ensures SettledRead(u, run, steps, i, b, r.moments[q])
    {
      var moments := r.moments[q];
      assert IsRead(run, k, r.p, names[q], moments, r.disk[names[q]]);
      forall t: nat | t < |moments| && t < |Bucket(u, i, b)|
        ensures WrittenSince(u, run, steps, moments[t], Name(i, b), t)
      {
        ReadersComeLater(u, run, steps, k, r.p, moments[t]);
        EmptyBucket(u.runs[i], u.hash, u.n, b);
        MappedIsSettled(u, run, steps, moments[t], b);
        assert Settled(u, run, steps, moments[t], i, b);
      }
    }
  }

  // With repeated and overlapping executions, but none under way while a reduce task reads.
  lemma QuietJobIsSequential(u: Setup, run: seq<Job>, steps: seq<Step>, k: nat, reduce: Reducer,
                             buckets: seq<nat>, rs: seq<Reduction>, lines: seq<string>)
    requires IsRun(u, run, steps) && k < |run| && MrCoordinator.Done(run[k].sys.c) && OrderFree(reduce)
    requires Reduced(run, k, buckets, rs, reduce) && forall q :: 0 <= q < |rs| ==> QuietReduction(u, run, rs[q])
    requires SequentialWrites(lines, u.runs, reduce)
    ensures multiset(Flatten(Outputs(rs))) == multiset(lines)
  {
    forall q | 0 <= q < |rs| ensures SettledReduction(u, run, steps, k, buckets[q], rs[q], reduce) {
      QuietIsSettled(u, run, steps, k, buckets[q], rs[q], reduce);
    }
    DoneJobIsSequential(u, run, steps, k, reduce, buckets, rs, lines);
  }
}

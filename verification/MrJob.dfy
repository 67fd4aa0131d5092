/**
 The whole MapReduce job, from the coordinator's side: in any run that is done in which the reduce
 tasks found their files complete, they together have written what the sequential program writes.
 */
module MrJob {
  import opened Collections
  import opened FileNames
  import opened MapReduce
  import opened MapReduceResult
  import MrCoordinator
  import MrSafety
  import MrTheorems
  import MrFiles

  // The names a worker reports for the pairs its map function produced.
  ghost predicate NamesOf(names: seq<string>, task: nat, kvs: seq<KeyValue>, hash: Hash, n: nat)
    requires n > 0
  {
    Distinct(names) && forall name :: name in names <==> HasBucket(name, kvs, task, hash, n)
  }

  // Workers report what WriteBuckets gave them.
  lemma SpreadGivesNames(names: seq<string>, files: map<string, seq<KeyValue>>, kvs: seq<KeyValue>, task: nat,
                         hash: Hash, n: nat)
    requires n > 0 && Spread(names, files, kvs, task, hash, n)
    ensures NamesOf(names, task, kvs, hash, n)
  {
  }

  // `runs[i]` is what the map function makes of input i.
  ghost predicate Reported(steps: seq<MrCoordinator.Step>, runs: seq<seq<KeyValue>>, hash: Hash, n: nat)
    requires n > 0
  {
    forall k :: 0 <= k < |steps| && steps[k].ReportMap? ==>
      0 <= steps[k].task < |runs| && NamesOf(steps[k].names, steps[k].task, runs[steps[k].task], hash, n)
  }

  lemma ReportedIsHonest(steps: seq<MrCoordinator.Step>, runs: seq<seq<KeyValue>>, hash: Hash, n: nat)
    requires 0 < n <= MAX_INT && Reported(steps, runs, hash, n)
    ensures MrFiles.Honest(steps)
  {
    forall k | 0 <= k < |steps| && steps[k].ReportMap?
      ensures MrFiles.WellFormed(steps[k].task, steps[k].names)
    {
      NamesAreWellFormed(steps[k].names, steps[k].task, runs[steps[k].task], hash, n);
    }
  }

  lemma NamesAreWellFormed(names: seq<string>, task: nat, kvs: seq<KeyValue>, hash: Hash, n: nat)
    requires 0 < n <= MAX_INT && NamesOf(names, task, kvs, hash, n)
    ensures MrFiles.WellFormed(task, names)
  {
    forall j | 0 <= j < |names|
      ensures MrFiles.IsNameOf(names[j], task)
    {
      var name := names[j];
      assert name in names;
      var b: nat :| b in Buckets(kvs, hash, n) && name == Name(task, b);
      assert b <= MAX_INT;
    }
  }

  // Every accepted report is one of those.
  ghost predicate LogReports(log: seq<MrCoordinator.Event>, runs: seq<seq<KeyValue>>, hash: Hash, n: nat)
    requires n > 0
  {
    forall p :: 0 <= p < |log| && log[p].Accepted? && log[p].kind == MrCoordinator.Map ==>
      0 <= log[p].task < |runs| && NamesOf(log[p].files, log[p].task, runs[log[p].task], hash, n)
  }

  lemma {:induction false} RunReports(inputs: seq<string>, trace: seq<MrCoordinator.Sys>,
                                      steps: seq<MrCoordinator.Step>, k: nat,
                                      runs: seq<seq<KeyValue>>, hash: Hash, n: nat)
    requires n > 0 && MrCoordinator.Run(inputs, trace, steps) && k < |trace| && Reported(steps, runs, hash, n)
    ensures LogReports(trace[k].log, runs, hash, n)
  {
    if k > 0 {
      RunReports(inputs, trace, steps, k - 1, runs, hash, n);
      assert MrCoordinator.Follows(trace[k - 1], steps[k - 1], trace[k]);
    }
  }

  // The reported names are those of the buckets that are not empty.
  lemma NameIsReported(names: seq<string>, task: nat, kvs: seq<KeyValue>, hash: Hash, n: nat, b: nat)
    requires n > 0 && NamesOf(names, task, kvs, hash, n)
    ensures Name(task, b) in names <==> b in Buckets(kvs, hash, n)
  {
    if Name(task, b) in names {
      var b': nat :| b' in Buckets(kvs, hash, n) && Name(task, b) == Name(task, b');
      NameIsInjective(task, b, task, b');
    }
  }

  // So the list handed to a reduce task names the file of every map task that has one.
  lemma HandedLists(inputs: seq<string>, trace: seq<MrCoordinator.Sys>, steps: seq<MrCoordinator.Step>, k: nat, p: nat,
                    runs: seq<seq<KeyValue>>, hash: Hash, n: nat) returns (tasks: seq<nat>)
    requires 0 < n <= MAX_INT && MrCoordinator.Run(inputs, trace, steps) && k < |trace|
    requires |runs| == |inputs| && Reported(steps, runs, hash, n)
    requires p < |trace[k].log| && trace[k].log[p].Handed? && trace[k].log[p].kind == MrCoordinator.Reduce
    requires trace[k].log[p].task >= 0
    ensures trace[k].log[p].files == Named(tasks, trace[k].log[p].task)
    ensures Lists(tasks, runs, hash, n, trace[k].log[p].task)
  {
    var b, before := trace[k].log[p].task, trace[k].log[..p];
    ReportedIsHonest(steps, runs, hash, n);
    tasks := MrFiles.HandedFilesAreAll(inputs, trace, steps, k, p);
    RunReports(inputs, trace, steps, k, runs, hash, n);
    assert LogReports(before, runs, hash, n);
    ListsAll(tasks, before, runs, hash, n, b);
  }

  lemma ListsAll(tasks: seq<nat>, log: seq<MrCoordinator.Event>, runs: seq<seq<KeyValue>>, hash: Hash, n: nat, b: nat)
    requires n > 0 && Distinct(tasks) && LogReports(log, runs, hash, n) && MrSafety.AllMapped(log, |runs|)
    requires forall i: nat :: i in tasks <==>
             exists q :: 0 <= q < |log| && MrFiles.Reports(log[q], b) && log[q].task == i
    ensures Lists(tasks, runs, hash, n, b)
  {
    forall q | 0 <= q < |tasks|
      ensures tasks[q] < |runs|
    {
      var i := tasks[q];
      assert i in tasks;
      var r :| 0 <= r < |log| && MrFiles.Reports(log[r], b) && log[r].task == i;
    }
    forall i: nat | i < |runs|
      ensures i in tasks <==> b in Buckets(runs[i], hash, n)
    {
      ListsOne(tasks, log, runs, hash, n, b, i);
    }
  }

  lemma ListsOne(tasks: seq<nat>, log: seq<MrCoordinator.Event>, runs: seq<seq<KeyValue>>, hash: Hash, n: nat, b: nat,
                 i: nat)
    requires n > 0 && LogReports(log, runs, hash, n) && i < |runs| && MrSafety.WasAccepted(log, MrCoordinator.Map, i)
    requires i in tasks <==> exists q :: 0 <= q < |log| && MrFiles.Reports(log[q], b) && log[q].task == i
    ensures i in tasks <==> b in Buckets(runs[i], hash, n)
  {
    var p :| 0 <= p < |log| && log[p].Accepted? && MrSafety.About(log[p], MrCoordinator.Map, i);
    NameIsReported(log[p].files, i, runs[i], hash, n, b);
    if i in tasks {
      var q :| 0 <= q < |log| && MrFiles.Reports(log[q], b) && log[q].task == i;
      NameIsReported(log[q].files, i, runs[i], hash, n, b);
    }
    if b in Buckets(runs[i], hash, n) {
      assert MrFiles.Reports(log[p], b);
    }
  }

  lemma {:induction false} BucketsOfAll(runs: seq<seq<KeyValue>>, hash: Hash, n: nat, b: nat)
    requires n > 0
    ensures b in Buckets(Flatten(runs), hash, n) <==> exists i: nat :: i < |runs| && b in Buckets(runs[i], hash, n)
  {
    if runs != [] {
      var m := |runs| - 1;
      BucketsOfAll(runs[..m], hash, n, b);
      assert forall i: nat :: i < m ==> runs[..m][i] == runs[i];
      assert Buckets(Flatten(runs[..m]) + runs[m], hash, n)
        == Buckets(Flatten(runs[..m]), hash, n) + Buckets(runs[m], hash, n);
    }
  }

  // When all map tasks are in, the reduce tasks are exactly the buckets that got a pair.
  lemma ReducesAreBuckets(inputs: seq<string>, trace: seq<MrCoordinator.Sys>, steps: seq<MrCoordinator.Step>, k: nat,
                          b: int,
                          runs: seq<seq<KeyValue>>, hash: Hash, n: nat)
    requires 0 < n <= MAX_INT && MrCoordinator.Run(inputs, trace, steps) && k < |trace|
    requires |runs| == |inputs| && Reported(steps, runs, hash, n) && MrSafety.AllMapped(trace[k].log, |inputs|)
    ensures b in trace[k].c.files <==> b >= 0 && b in Buckets(Flatten(runs), hash, n)
  {
    var log := trace[k].log;
    ReportedIsHonest(steps, runs, hash, n);
    MrFiles.KnownReduces(inputs, trace, steps, k, b);
    if b >= 0 {
      RunReports(inputs, trace, steps, k, runs, hash, n);
      BucketsOfAll(runs, hash, n, b);
      MrSafety.RunKeepsInv(inputs, trace, steps, k);
      var tasks := MrFiles.Tasks(log, b);
      MrFiles.TasksAreDistinct(log, b);
      forall i: nat
        ensures i in tasks <==> exists q :: 0 <= q < |log| && MrFiles.Reports(log[q], b) && log[q].task == i
      {
        MrFiles.TaskHasReport(log, b, i);
      }
      ListsAll(tasks, log, runs, hash, n, b);
      SomeTask(tasks, runs, hash, n, b);
    }
  }

  lemma SomeTask(tasks: seq<nat>, runs: seq<seq<KeyValue>>, hash: Hash, n: nat, b: nat)
    requires n > 0 && Lists(tasks, runs, hash, n, b)
    ensures tasks != [] <==> exists i: nat :: i < |runs| && b in Buckets(runs[i], hash, n)
  {
    if tasks != [] {
      var i := tasks[0];
      assert i in tasks;
    }
  }

  // A worker that was handed reduce task b wrote `out`.
  ghost predicate WroteFor(s: MrCoordinator.Sys, b: nat, out: seq<string>, disk: map<string, seq<KeyValue>>,
                           reduce: Reducer) {
    exists p :: 0 <= p < |s.log| && s.log[p].Handed? && s.log[p].kind == MrCoordinator.Reduce && s.log[p].task == b
                && ReduceWrites(out, s.log[p].files, disk, reduce)
  }

  lemma WroteIsWritten(inputs: seq<string>, trace: seq<MrCoordinator.Sys>, steps: seq<MrCoordinator.Step>, k: nat,
                       b: nat, out: seq<string>, disk: map<string, seq<KeyValue>>, reduce: Reducer,
                       runs: seq<seq<KeyValue>>, hash: Hash, n: nat)
    requires 0 < n <= MAX_INT && MrCoordinator.Run(inputs, trace, steps) && k < |trace|
    requires |runs| == |inputs| && Reported(steps, runs, hash, n) && WroteFor(trace[k], b, out, disk, reduce)
    ensures Written(out, b, runs, disk, hash, n, reduce)
  {
    var log := trace[k].log;
    var p :| 0 <= p < |log| && log[p].Handed? && log[p].kind == MrCoordinator.Reduce && log[p].task == b
             && ReduceWrites(out, log[p].files, disk, reduce);
    var tasks := HandedLists(inputs, trace, steps, k, p, runs, hash, n);
  }

  // In every run that is done, if each reduce task found the files of its bucket complete, their
  // outputs together are, as a multiset of lines, what the sequential program writes.
  lemma FilesAreReduced(inputs: seq<string>, trace: seq<MrCoordinator.Sys>, steps: seq<MrCoordinator.Step>, k: nat,
                        runs: seq<seq<KeyValue>>, hash: Hash, n: nat, disks: seq<map<string, seq<KeyValue>>>,
                        reduce: Reducer, buckets: seq<nat>, outs: seq<seq<string>>, lines: seq<string>)
    requires 0 < n <= MAX_INT && OrderFree(reduce) && |runs| == |inputs|
    requires MrCoordinator.Run(inputs, trace, steps) && k < |trace| && MrCoordinator.Done(trace[k].c)
    requires Reported(steps, runs, hash, n)
    requires Distinct(buckets) && forall b: nat :: b in buckets <==> b in trace[k].c.files
    requires |outs| == |buckets| == |disks|
    requires forall i :: 0 <= i < |outs| ==> Complete(disks[i], runs, hash, n, buckets[i])
    requires forall i :: 0 <= i < |outs| ==> WroteFor(trace[k], buckets[i], outs[i], disks[i], reduce)
    requires SequentialWrites(lines, runs, reduce)
    ensures multiset(Flatten(outs)) == multiset(lines)
  {
    MrTheorems.DoneIffAllAccepted(inputs, trace, steps, k);
    forall b: nat
      ensures b in buckets <==> b in Buckets(Flatten(runs), hash, n)
    {
      ReducesAreBuckets(inputs, trace, steps, k, b, runs, hash, n);
    }
    assert Enumerates(buckets, Buckets(Flatten(runs), hash, n));
    forall i | 0 <= i < |outs|
      ensures Written(outs[i], buckets[i], runs, disks[i], hash, n, reduce)
    {
      WroteIsWritten(inputs, trace, steps, k, buckets[i], outs[i], disks[i], reduce, runs, hash, n);
    }
    JobIsSequential(outs, buckets, runs, disks, hash, n, reduce, lines);
  }
}

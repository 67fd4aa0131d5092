/**
 The coordinator of src/mr/coordinator.go as the object it is: the queues, maps and counters its
 methods change under one lock, each method tied to the step of MrCoordinator it carries out.
 */
module MrNode {
  import opened Collections
  import opened FileNames
  import opened MrCoordinator
  import opened MrSafety

  datatype Task = Task(isMap: bool, filenames: seq<string>, index: int, nReduce: int)

  // What a request for a task comes back with; a waiting one tries again when woken.
  datatype Grant = Granted(task: Task, txn: nat) | Wait | NoMore

  datatype Answer = Rejected | Reported(verdict: Verdict)

  function FilesOf(tasks: map<int, Task>): map<int, seq<string>> {
    map b | b in tasks :: tasks[b].filenames
  }

  lemma FilesOfUpdate(tasks: map<int, Task>, b: int, task: Task)
    ensures FilesOf(tasks[b := task]) == FilesOf(tasks)[b := task.filenames]
  {
  }

  lemma AddFileAppends(a: Added, bucket: int, name: string)
    ensures AddFile(a, bucket, name).files
            == a.files[bucket := (if bucket in a.files then a.files[bucket] else []) + [name]]
    ensures a.files[bucket := []][bucket := [name]] == a.files[bucket := [name]]
  {
    var none: seq<string> := [];
    assert none + [name] == [name];
  }

  // Map tasks in order, each with its one input file; reduce tasks under their own numbers.
  ghost predicate TasksFit(mapTasks: seq<Task>, reduceTasks: map<int, Task>, inputs: seq<string>, nReduce: int) {
    && |mapTasks| == |inputs|
    && (forall i :: 0 <= i < |inputs| ==> mapTasks[i] == Task(true, [inputs[i]], i, nReduce))
    && forall b :: b in reduceTasks ==> !reduceTasks[b].isMap && reduceTasks[b].index == b
  }

  // The transactions that ran out of time, in whatever order the map is walked.
  method FindStale(txns: map<int, Txn>, now: int) returns (stale: seq<int>)
    ensures Distinct(stale) && forall i :: i in stale <==> i in txns && now - txns[i].begin > TIMEOUT_LIMIT
    ensures forall k :: 0 <= k < |stale| ==> stale[k] in txns
  {
    stale := [];
    var left := txns.Keys;
    while left != {}
      invariant left <= txns.Keys && Distinct(stale)
      invariant forall k :: 0 <= k < |stale| ==> stale[k] in txns
      invariant forall i :: i in stale <==> i in txns && i !in left && now - txns[i].begin > TIMEOUT_LIMIT
    {
      var i := Pick(left);
      if now - txns[i].begin > TIMEOUT_LIMIT {
        stale := stale + [i];
      }
      left := left - {i};
    }
  }

  // ---------- What the tasks' invariant gives a method, apart from the heap ----------

  lemma HandMapOk(c: Coord, now: int)
    requires TasksOk(c) && c.maps.idle != []
    ensures TasksOk(HandMap(c, now)) && 0 <= c.maps.idle[0] < |c.inputs|
  {
    TakeHeadOk(c.maps, Txn(c.nextTxn, now));
  }

  lemma HandReduceOk(c: Coord, now: int)
    requires TasksOk(c) && c.reduces.idle != []
    ensures TasksOk(HandReduce(c, now)) && c.reduces.idle[0] in c.files
  {
    TakeHeadOk(c.reduces, Txn(c.nextTxn, now));
    var b := c.reduces.idle[0];
    assert b in c.reduces.status;
  }

  lemma FinishMapOk(c: Coord, i: int)
    requires TasksOk(c) && i in c.maps.txns
    ensures TasksOk(c.(maps := Finish(c.maps, i)))
  {
    FinishOk(c.maps, i);
  }

  lemma NewTaskOk(c: Coord, b: int)
    requires TasksOk(c) && b !in c.files
    ensures TasksOk(c.(files := c.files[b := []], reduces := AddTask(c.reduces, b)))
  {
    AddTaskOk(c.reduces, b);
  }

  class Coordinator {
    const nReduce: int
    ghost const inputs: seq<string>
    var mapTasksCompleted: nat
    var reduceTasksCompleted: nat
    var nextTxn: nat
    var mapTasks: seq<Task>
    var reduceTasks: map<int, Task>
    var mapTaskStatus: map<int, Status>
    var reduceTaskStatus: map<int, Status>
    var mapTxns: map<int, Txn>
    var reduceTxns: map<int, Txn>
    var idleMapTasks: seq<int>
    var idleReduceTasks: seq<int>

    ghost function Maps(): Board
      reads this
    {
      Board(mapTaskStatus, mapTxns, idleMapTasks, mapTasksCompleted)
    }

    ghost function Reduces(): Board
      reads this
    {
      Board(reduceTaskStatus, reduceTxns, idleReduceTasks, reduceTasksCompleted)
    }

    ghost function View(): Coord
      reads this
    {
      Coord(inputs, nextTxn, Maps(), Reduces(), FilesOf(reduceTasks))
    }

    ghost predicate Valid()
      reads this
    {
      TasksFit(mapTasks, reduceTasks, inputs, nReduce) && TasksOk(View())
    }

    constructor (files: seq<string>, n: int)
      ensures Valid() && View() == Start(files) && nReduce == n
    {
      nReduce, inputs := n, files;
      mapTasksCompleted, reduceTasksCompleted, nextTxn := 0, 0, 0;
      reduceTasks, reduceTaskStatus, mapTxns, reduceTxns, idleReduceTasks := map[], map[], map[], map[], [];
      var tasks: seq<Task>, status: map<int, Status>, idle: seq<int> := [], map[], [];
      for i := 0 to |files|
        invariant |tasks| == i && forall k :: 0 <= k < i ==> tasks[k] == Task(true, [files[k]], k, n)
        invariant idle == seq(i, k => k)
        invariant status == map k | k in idle :: Idle
      {
        tasks := tasks + [Task(true, [files[i]], i, n)];
        status := status[i := Idle];
        idle := idle + [i];
      }
      mapTasks, mapTaskStatus, idleMapTasks := tasks, status, idle;
      InitIsInv(files);
    }

    method GetMapTask(now: int) returns (g: Grant)
      requires Valid()
      modifies this
      ensures Valid()
      ensures g == NoMore <==> MapsDone(old(View()))
      ensures g == Wait <==> !MapsDone(old(View())) && old(idleMapTasks) == []
      ensures !g.Granted? ==> View() == old(View())
      ensures g.Granted? ==> View() == HandMap(old(View()), now) && g.txn == old(nextTxn)
      ensures g.Granted? ==> var i := old(idleMapTasks)[0];
                             0 <= i < |inputs| && g.task == Task(true, [inputs[i]], i, nReduce)
    {
      if |idleMapTasks| == 0 && mapTasksCompleted < |mapTasks| {
        return Wait;
      }
      if mapTasksCompleted >= |mapTasks| {
        return NoMore;
      }
      HandMapOk(View(), now);
      var i := idleMapTasks[0];
      idleMapTasks := idleMapTasks[1..];
      mapTaskStatus := mapTaskStatus[i := InProgress];
      g := Granted(mapTasks[i], nextTxn);
      nextTxn := nextTxn + 1;
      mapTxns := mapTxns[i := Txn(g.txn, now)];
    }

    // Past the wait for the map tasks.
    method GetReduceTask(now: int) returns (g: Grant)
      requires Valid()
      modifies this
      ensures Valid()
      ensures g == NoMore <==> ReducesDone(old(View()))
      ensures g == Wait <==> !ReducesDone(old(View())) && old(idleReduceTasks) == []
      ensures !g.Granted? ==> View() == old(View())
      ensures g.Granted? ==> View() == HandReduce(old(View()), now) && g.txn == old(nextTxn)
      ensures g.Granted? ==> var b := old(idleReduceTasks)[0];
                             b in old(View()).files && !g.task.isMap && g.task.index == b
                               && g.task.filenames == old(View()).files[b]
    {
      assert FilesOf(reduceTasks).Keys == reduceTasks.Keys;
      if |idleReduceTasks| == 0 && reduceTasksCompleted < |reduceTasks| {
        return Wait;
      }
      if reduceTasksCompleted >= |reduceTasks| {
        return NoMore;
      }
      HandReduceOk(View(), now);
      var b := idleReduceTasks[0];
      idleReduceTasks := idleReduceTasks[1..];
      reduceTaskStatus := reduceTaskStatus[b := InProgress];
      g := Granted(reduceTasks[b], nextTxn);
      nextTxn := nextTxn + 1;
      reduceTxns := reduceTxns[b := Txn(g.txn, now)];
    }

    method NewReduceTask(bucket: int)
      requires Valid() && bucket !in reduceTasks
      modifies this`reduceTasks, this`reduceTaskStatus, this`idleReduceTasks
      ensures Valid() && bucket in reduceTasks
      ensures View()
              == old(View()).(files := old(View()).files[bucket := []], reduces := AddTask(old(Reduces()), bucket))
    {
      NewTaskOk(View(), bucket);
      FilesOfUpdate(reduceTasks, bucket, Task(false, [], bucket, 0));
      reduceTasks := reduceTasks[bucket := Task(false, [], bucket, 0)];
      reduceTaskStatus := reduceTaskStatus[bucket := Idle];
      idleReduceTasks := idleReduceTasks + [bucket];
    }

    method FileUnder(bucket: int, name: string)
      requires Valid()
      modifies this`reduceTasks, this`reduceTaskStatus, this`idleReduceTasks
      ensures Valid()
      ensures Added(View().files, Reduces(), Fine) == AddFile(old(Added(View().files, Reduces(), Fine)), bucket, name)
    {
      if bucket !in reduceTasks {
        NewReduceTask(bucket);
      }
      var task := reduceTasks[bucket];
      FilesOfUpdate(reduceTasks, bucket, task.(filenames := task.filenames + [name]));
      reduceTasks := reduceTasks[bucket := task.(filenames := task.filenames + [name])];
      AddFileAppends(old(Added(View().files, Reduces(), Fine)), bucket, name);
    }

    // Stops at the first name it cannot read.
    method FileAll(names: seq<string>) returns (verdict: Verdict)
      requires Valid()
      modifies this`reduceTasks, this`reduceTaskStatus, this`idleReduceTasks
      ensures Valid()
      ensures Added(View().files, Reduces(), verdict) == AddFiles(old(Added(View().files, Reduces(), Fine)), names)
    {
      ghost var start := Added(View().files, Reduces(), Fine);
      for i := 0 to |names|
        invariant Valid()
        invariant AddFiles(start, names) == AddFiles(Added(View().files, Reduces(), Fine), names[i..])
      {
        match Parse(names[i]) {
          case TooFewParts => return Crash;
          case BadNumber => return Malformed;
          case Bucket(bucket) =>
            assert names[i..][1..] == names[i + 1..];
            FileUnder(bucket, names[i]);
        }
      }
      return Fine;
    }

    method MapTaskDone(task: int, txn: nat, names: seq<string>) returns (r: Answer)
      requires Valid()
      modifies this
      ensures r == Rejected <==> !IsCurrent(old(Maps()), task, txn)
      ensures r == Rejected ==> Valid() && View() == old(View())
      ensures r.Reported? ==> (View(), r.verdict) == MapReport(old(View()), task, names)
      ensures r.Reported? ==> Valid()
    {
      if task !in mapTxns || mapTxns[task].id != txn {
        return Rejected;
      }
      var verdict := FileAll(names);
      if verdict != Fine {
        return Reported(verdict);
      }
      FinishMapOk(View(), task);
      mapTaskStatus := mapTaskStatus[task := Completed];
      mapTasksCompleted := mapTasksCompleted + 1;
      mapTxns := mapTxns - {task};
      return Reported(Fine);
    }

    method ReduceTaskDone(task: int, txn: nat) returns (accepted: bool)
      requires Valid()
      modifies this
      ensures Valid()
      ensures accepted <==> IsCurrent(old(Reduces()), task, txn)
      ensures View() == old(View()).(reduces := if accepted then Finish(old(Reduces()), task) else old(Reduces()))
    {
      if task !in reduceTxns || reduceTxns[task].id != txn {
        return false;
      }
      FinishOk(Reduces(), task);
      reduceTaskStatus := reduceTaskStatus[task := Completed];
      reduceTasksCompleted := reduceTasksCompleted + 1;
      reduceTxns := reduceTxns - {task};
      return true;
    }

    method ExpireMap(i: int)
      requires Valid() && i in mapTxns
      modifies this
      ensures Valid() && View() == old(View()).(maps := Expire(old(Maps()), i))
    {
      ExpireOk(Maps(), i);
      mapTxns := mapTxns - {i};
      mapTaskStatus := mapTaskStatus[i := Idle];
      idleMapTasks := idleMapTasks + [i];
    }

    method InspectMapTasks(now: int) returns (ghost stale: seq<int>)
      requires Valid()
      modifies this
      ensures Valid() && IsStale(old(Maps()), now, stale)
      ensures View() == old(View()).(maps := ExpireAll(old(Maps()), stale))
    {
      var late := FindStale(mapTxns, now);
      stale := late;
      for k := 0 to |late|
        invariant Valid() && View() == old(View()).(maps := ExpireAll(old(Maps()), late[..k]))
        invariant forall j :: k <= j < |late| ==> late[j] in mapTxns
      {
        ExpireMap(late[k]);
        assert late[..k + 1][..k] == late[..k];
      }
      assert late[..|late|] == late;
    }

    method ExpireReduce(i: int)
      requires Valid() && i in reduceTxns
      modifies this
      ensures Valid() && View() == old(View()).(reduces := Expire(old(Reduces()), i))
    {
      ExpireOk(Reduces(), i);
      reduceTxns := reduceTxns - {i};
      reduceTaskStatus := reduceTaskStatus[i := Idle];
      idleReduceTasks := idleReduceTasks + [i];
    }

    method InspectReduceTasks(now: int) returns (ghost stale: seq<int>)
      requires Valid()
      modifies this
      ensures Valid() && IsStale(old(Reduces()), now, stale)
      ensures View() == old(View()).(reduces := ExpireAll(old(Reduces()), stale))
    {
      var late := FindStale(reduceTxns, now);
      stale := late;
      for k := 0 to |late|
        invariant Valid() && View() == old(View()).(reduces := ExpireAll(old(Reduces()), late[..k]))
        invariant forall j :: k <= j < |late| ==> late[j] in reduceTxns
      {
        ExpireReduce(late[k]);
        assert late[..k + 1][..k] == late[..k];
      }
      assert late[..|late|] == late;
    }

    method IsDone() returns (done: bool)
      requires Valid()
      ensures done <==> Done(View())
    {
      assert FilesOf(reduceTasks).Keys == reduceTasks.Keys;
      return mapTasksCompleted >= |mapTasks| && reduceTasksCompleted >= |reduceTasks|;
    }
  }
}

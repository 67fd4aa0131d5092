/**
 Which intermediate files a reduce task of the MapReduce coordinator is given.
 */
module MrFiles {
  import opened Collections
  import opened FileNames
  import opened MrCoordinator
  import opened MrSafety
  import opened MrTheorems

  // ---------- The files of the accepted reports ----------

  function Picked(names: seq<string>, b: int): seq<string> {
    if names == [] then []
    else (if Parse(names[0]) == Bucket(b) then [names[0]] else []) + Picked(names[1..], b)
  }

  function Collected(log: seq<Event>, b: int): seq<string> {
    if log == [] then []
    else
      var e := log[|log| - 1];
      Collected(log[..|log| - 1], b) + if e.Accepted? && e.kind == Map then Picked(e.files, b) else []
  }

  function Listed(files: map<int, seq<string>>, b: int): seq<string> {
    if b in files then files[b] else []
  }

  // Every reduce task lists the files of the accepted reports, and nothing else.
  ghost predicate ListsAccepted(s: Sys) {
    forall b :: Listed(s.c.files, b) == Collected(s.log, b)
  }

  // ---------- One report ----------

  // The names up to the first one the coordinator cannot read.
  function Readable(names: seq<string>): seq<string> {
    if names == [] || !Parse(names[0]).Bucket? then [] else [names[0]] + Readable(names[1..])
  }

  lemma ReadableStep(names: seq<string>, b: int)
    requires names != [] && Parse(names[0]).Bucket?
    ensures Picked(Readable(names), b)
         == (if Parse(names[0]) == Bucket(b) then [names[0]] else []) + Picked(Readable(names[1..]), b)
    ensures Readable(names) == names <==> Readable(names[1..]) == names[1..]
  {
    var rest := Readable(names[1..]);
    assert ([names[0]] + rest)[1..] == rest;
    assert names == [names[0]] + names[1..];
  }

  lemma {:induction false} AddFilesLists(a: Added, names: seq<string>, b: int)
    ensures Listed(AddFiles(a, names).files, b) == Listed(a.files, b) + Picked(Readable(names), b)
    decreases |names|
  {
    if names != [] && Parse(names[0]).Bucket? {
      AddFilesLists(AddFile(a, Parse(names[0]).index, names[0]), names[1..], b);
      ReadableStep(names, b);
    }
  }

  lemma {:induction false} AddFilesVerdict(a: Added, names: seq<string>)
    requires a.verdict == Fine
    ensures AddFiles(a, names).verdict == Fine <==> Readable(names) == names
    decreases |names|
  {
    if names != [] && Parse(names[0]).Bucket? {
      AddFilesVerdict(AddFile(a, Parse(names[0]).index, names[0]), names[1..]);
      ReadableStep(names, 0);
    }
  }

  ghost predicate NoneEmpty(files: map<int, seq<string>>) {
    forall b :: b in files ==> files[b] != []
  }

  lemma {:induction false} AddFilesNoneEmpty(a: Added, names: seq<string>)
    requires NoneEmpty(a.files)
    ensures NoneEmpty(AddFiles(a, names).files)
    decreases |names|
  {
    if names != [] && Parse(names[0]).Bucket? {
      AddFilesNoneEmpty(AddFile(a, Parse(names[0]).index, names[0]), names[1..]);
    }
  }

  lemma {:induction false} ListsAreNotEmpty(inputs: seq<string>, trace: seq<Sys>, steps: seq<Step>, k: nat)
    requires Run(inputs, trace, steps) && k < |trace|
    ensures NoneEmpty(trace[k].c.files)
  {
    if k > 0 {
      ListsAreNotEmpty(inputs, trace, steps, k - 1);
      var s, step := trace[k - 1], steps[k - 1];
      assert Follows(s, step, trace[k]);
      if step.ReportMap? {
        AddFilesNoneEmpty(Added(s.c.files, s.c.reduces, Fine), step.names);
      }
    }
  }

  // ---------- Exactly when the lists are right ----------

  // A report that is refused half way: some of its files are already on the lists.
  ghost predicate LeavesRests(s: Sys, step: Step) {
    && step.ReportMap?
    && IsCurrent(s.c.maps, step.task, step.txn)
    && Readable(step.names) != step.names
    && Readable(step.names) != []
  }

  lemma {:induction false} CollectedMore(log: seq<Event>, more: seq<Event>, b: int)
    requires forall p :: 0 <= p < |more| ==> !(more[p].Accepted? && more[p].kind == Map)
    ensures Collected(log + more, b) == Collected(log, b)
  {
    if more == [] {
      assert log + more == log;
    } else {
      assert (log + more)[..|log + more| - 1] == log + more[..|more| - 1];
      CollectedMore(log, more[..|more| - 1], b);
    }
  }

  // Only a current report changes the lists, by what can be read of it.
  lemma StepLists(s: Sys, step: Step, s': Sys, b: int)
    requires Follows(s, step, s')
    ensures if step.ReportMap? && IsCurrent(s.c.maps, step.task, step.txn) then
              && Listed(s'.c.files, b) == Listed(s.c.files, b) + Picked(Readable(step.names), b)
              && Collected(s'.log, b)
                == Collected(s.log, b) + (if Readable(step.names) == step.names then Picked(step.names, b) else [])
            else
              Listed(s'.c.files, b) == Listed(s.c.files, b) && Collected(s'.log, b) == Collected(s.log, b)
  {
    if step.ReportMap? && IsCurrent(s.c.maps, step.task, step.txn) {
      var a := Added(s.c.files, s.c.reduces, Fine);
      AddFilesLists(a, step.names, b);
      AddFilesVerdict(a, step.names);
      ReportCollects(s.log, Accepted(Map, step.task, step.txn, step.names), b);
      assert s.log + [] == s.log;
    } else {
      OtherLog(s, step, b);
    }
  }

  lemma ReportCollects(log: seq<Event>, e: Event, b: int)
    requires e.Accepted? && e.kind == Map
    ensures Collected(log + [e], b) == Collected(log, b) + Picked(e.files, b)
  {
    assert (log + [e])[..|log|] == log;
  }

  lemma OtherLog(s: Sys, step: Step, b: int)
    requires Enabled(s, step) && !(step.ReportMap? && IsCurrent(s.c.maps, step.task, step.txn))
    ensures Collected(Next(s, step).log, b) == Collected(s.log, b)
  {
    var log := Next(s, step).log;
    assert s.log <= log by {
      assert s.log + [] == s.log;
    }
    var more := log[|s.log|..];
    assert log == s.log + more;
    CollectedMore(s.log, more, b);
  }

  lemma {:induction false} ReadableParse(names: seq<string>, j: nat)
    requires j < |Readable(names)|
    ensures Parse(Readable(names)[j]).Bucket?
  {
    if j > 0 {
      ReadableParse(names[1..], j - 1);
    }
  }

  // A list has files that no accepted report accounts for.
  predicate HasSurplus(s: Sys, b: int) {
    |Listed(s.c.files, b)| > |Collected(s.log, b)|
  }

  predicate NoShortage(s: Sys, b: int) {
    |Listed(s.c.files, b)| >= |Collected(s.log, b)|
  }

  lemma SurplusStep(s: Sys, step: Step, s': Sys, b: int)
    requires Follows(s, step, s')
    ensures NoShortage(s, b) ==> NoShortage(s', b)
    ensures HasSurplus(s, b) ==> HasSurplus(s', b)
  {
    StepLists(s, step, s', b);
    if step.ReportMap? && Readable(step.names) == step.names {
      assert Picked(Readable(step.names), b) == Picked(step.names, b);
    }
  }

  lemma {:induction false} NeverShort(inputs: seq<string>, trace: seq<Sys>, steps: seq<Step>, k: nat, b: int)
    requires Run(inputs, trace, steps) && k < |trace|
    ensures NoShortage(trace[k], b)
  {
    if k > 0 {
      NeverShort(inputs, trace, steps, k - 1, b);
      SurplusStep(trace[k - 1], steps[k - 1], trace[k], b);
    }
  }

  lemma {:induction false} SurplusStays(trace: seq<Sys>, j: nat, k: nat, b: int)
    requires j <= k < |trace| && HasSurplus(trace[j], b)
    requires forall i :: 0 < i < |trace| && HasSurplus(trace[i - 1], b) ==> HasSurplus(trace[i], b)
    ensures HasSurplus(trace[k], b)
  {
    if j < k {
      SurplusStays(trace, j, k - 1, b);
    }
  }

  lemma RestsAreSurplus(inputs: seq<string>, trace: seq<Sys>, steps: seq<Step>, j: nat, k: nat)
    requires Run(inputs, trace, steps) && j < k < |trace| && LeavesRests(trace[j], steps[j])
    ensures !ListsAccepted(trace[k])
  {
    var names := Readable(steps[j].names);
    ReadableParse(steps[j].names, 0);
    var b := Parse(names[0]).index;
    NeverShort(inputs, trace, steps, j, b);
    StepLists(trace[j], steps[j], trace[j + 1], b);
    assert Picked(names, b) != [];
    forall i | 0 < i < |trace| && HasSurplus(trace[i - 1], b)
      ensures HasSurplus(trace[i], b)
    {
      SurplusStep(trace[i - 1], steps[i - 1], trace[i], b);
    }
    SurplusStays(trace, j + 1, k, b);
    assert HasSurplus(trace[k], b);
  }

  lemma {:induction false} NoRestsListsAccepted(inputs: seq<string>, trace: seq<Sys>, steps: seq<Step>, k: nat)
    requires Run(inputs, trace, steps) && k < |trace| && forall j :: 0 <= j < k ==> !LeavesRests(trace[j], steps[j])
    ensures ListsAccepted(trace[k])
  {
    if k > 0 {
      NoRestsListsAccepted(inputs, trace, steps, k - 1);
      forall b
        ensures Listed(trace[k].c.files, b) == Collected(trace[k].log, b)
      {
        StepLists(trace[k - 1], steps[k - 1], trace[k], b);
      }
    }
  }

  // The lists hold the files of the accepted reports exactly as long as no report in time has had
  // an unreadable name after a readable one.
  lemma ListsAcceptedIff(inputs: seq<string>, trace: seq<Sys>, steps: seq<Step>, k: nat)
    requires Run(inputs, trace, steps) && k < |trace|
    ensures ListsAccepted(trace[k]) <==> forall j :: 0 <= j < k ==> !LeavesRests(trace[j], steps[j])
  {
    if j :| 0 <= j < k && LeavesRests(trace[j], steps[j]) {
      RestsAreSurplus(inputs, trace, steps, j, k);
    } else {
      NoRestsListsAccepted(inputs, trace, steps, k);
    }
  }

  lemma BadName()
    ensures Parse("mr-0-x") == BadNumber
  {
    SplitAtDash("mr", "0-x");
    SplitAtDash("0", "x");
    SplitNoDash("x");
    assert "mr-0-x" == "mr" + "-" + "0-x" && "0-x" == "0" + "-" + "x";
    assert !IsDigit("x"[0]);
  }

  lemma BadReport(s: Sys, txn: nat, name: string) returns (s': Sys)
    requires IsCurrent(s.c.maps, 0, txn) && Parse(name) == Bucket(1) && 1 !in s.c.files
    ensures var step := ReportMap(0, txn, [name, "mr-0-x"]);
            Enabled(s, step) && s' == Next(s, step)
    ensures Listed(s'.c.files, 1) == [name] && s'.c.maps == s.c.maps && s'.c.inputs == s.c.inputs
    ensures s'.c.nextTxn == s.c.nextTxn && s'.log == s.log && s'.waiting == s.waiting
  {
    BadName();
    var names := [name, "mr-0-x"];
    assert names[1..] == ["mr-0-x"];
    var a := Added(s.c.files, s.c.reduces, Fine);
    assert AddFiles(a, names) == AddFile(a, 1, name).(verdict := Malformed);
    s' := Next(s, ReportMap(0, txn, names));
    assert s.log + [] == s.log;
  }

  lemma GoodReport(s: Sys, txn: nat, name: string) returns (s': Sys)
    requires IsCurrent(s.c.maps, 0, txn) && Parse(name) == Bucket(1)
    ensures var step := ReportMap(0, txn, [name]);
            Enabled(s, step) && s' == Next(s, step)
    ensures Listed(s'.c.files, 1) == Listed(s.c.files, 1) + [name] && s'.log == s.log + [Accepted(Map, 0, txn, [name])]
  {
    var names := [name];
    assert names[1..] == [];
    var a := Added(s.c.files, s.c.reduces, Fine);
    assert AddFiles(a, names) == AddFile(a, 1, name);
    s' := Next(s, ReportMap(0, txn, names));
  }

  lemma FirstTry() returns (s: Sys)
    ensures Enabled(Init(["in"]), GiveMap(0)) && s == Next(Init(["in"]), GiveMap(0))
    ensures s.c.maps.txns == map[0 := Txn(0, 0)] && s.c.maps.idle == [] && s.c.maps.done == 0 && s.c.nextTxn == 1
    ensures s.c.inputs == ["in"] && s.c.files == map[] && s.log == [Handed(Map, 0, 0, ["in"])]
    ensures s.c.reduces == Board(map[], map[], [], 0) && s.waiting == {}
  {
    var s0 := Init(["in"]);
    assert s0.c.maps.idle == [0];
    s := Next(s0, GiveMap(0));
  }

  lemma SecondTry(s: Sys) returns (s': Sys, s'': Sys)
    requires s.c.maps.txns == map[0 := Txn(0, 0)] && s.c.maps.idle == [] && s.c.maps.done == 0 && s.c.nextTxn == 1
    requires s.c.inputs == ["in"]
    ensures Enabled(s, ExpireMaps(11, [0])) && s' == Next(s, ExpireMaps(11, [0]))
    ensures Enabled(s', GiveMap(11)) && s'' == Next(s', GiveMap(11))
    ensures IsCurrent(s''.c.maps, 0, 1) && s''.c.files == s.c.files
    ensures s''.c.maps.txns == map[0 := Txn(1, 11)] && s''.c.maps.idle == [] && s''.c.maps.done == 0
    ensures s''.c.nextTxn == 2 && s''.c.inputs == s.c.inputs && s''.c.reduces == s.c.reduces && s''.waiting == s.waiting
    ensures s''.log == s.log + [Expired(Map, 0), Handed(Map, 0, 1, ["in"])]
  {
    assert ExpireAll(s.c.maps, [0]) == Expire(s.c.maps, 0) by {
      assert [0][..0] == [];
    }
    s' := Next(s, ExpireMaps(11, [0]));
    assert s'.c.maps.idle == [0];
    assert s'.log == s.log + [Expired(Map, 0)];
    s'' := Next(s', GiveMap(11));
  }

  lemma Extend(inputs: seq<string>, trace: seq<Sys>, steps: seq<Step>, step: Step, s: Sys)
    returns (longer: seq<Sys>, more: seq<Step>)
    requires Run(inputs, trace, steps) && Follows(trace[|steps|], step, s)
    ensures Run(inputs, longer, more) && |longer| == |trace| + 1 && longer[|trace|] == s
  {
    longer, more := trace + [s], steps + [step];
    forall k | 0 <= k < |more|
      ensures Follows(longer[k], more[k], longer[k + 1])
    {
      if k < |steps| {
        assert longer[k] == trace[k] && longer[k + 1] == trace[k + 1] && more[k] == steps[k];
      }
    }
  }

  lemma UpToTheRefusal(name: string) returns (trace: seq<Sys>, steps: seq<Step>)
    requires Parse(name) == Bucket(1)
    ensures Run(["in"], trace, steps) && |trace| == 3
    ensures var s := trace[2];
            && s.c.maps.txns == map[0 := Txn(0, 0)] && s.c.maps.idle == [] && s.c.maps.done == 0 && s.c.nextTxn == 1
            && s.c.inputs == ["in"] && Listed(s.c.files, 1) == [name] && s.log == [Handed(Map, 0, 0, ["in"])]
  {
    var s1 := FirstTry();
    trace, steps := Extend(["in"], [Init(["in"])], [], GiveMap(0), s1);
    var s2 := BadReport(s1, 0, name);
    trace, steps := Extend(["in"], trace, steps, ReportMap(0, 0, [name, "mr-0-x"]), s2);
  }

  // A list that is wrong: the report is refused at its second name, the task times out, is done
  // again, and its only accepted report puts the same file on the list a second time.
  lemma RefusedReportDuplicates() returns (trace: seq<Sys>, steps: seq<Step>)
    ensures Run(["in"], trace, steps) && |trace| == 6
    ensures Listed(trace[5].c.files, 1) == [Name(0, 1), Name(0, 1)] && Collected(trace[5].log, 1) == [Name(0, 1)]
  {
    var name := Name(0, 1);
    ParseOfName(0, 1);
    trace, steps := UpToTheRefusal(name);
    var s3, s4 := SecondTry(trace[2]);
    trace, steps := Extend(["in"], trace, steps, ExpireMaps(11, [0]), s3);
    trace, steps := Extend(["in"], trace, steps, GiveMap(11), s4);
    var s5 := GoodReport(s4, 1, name);
    trace, steps := Extend(["in"], trace, steps, ReportMap(0, 1, [name]), s5);
    OneReport(s4.log, Accepted(Map, 0, 1, [name]), name);
  }

  lemma OneReport(log: seq<Event>, e: Event, name: string)
    requires forall p :: 0 <= p < |log| ==> !log[p].Accepted?
    requires e.Accepted? && e.kind == Map && e.files == [name] && Parse(name) == Bucket(1)
    ensures Collected(log + [e], 1) == [name]
  {
    CollectedMore([], log, 1);
    assert [] + log == log;
    ReportCollects(log, e, 1);
    assert e.files[1..] == [];
  }

  // ---------- Well-formed reports ----------

  ghost predicate IsNameOf(name: string, task: nat) {
    exists b: nat :: b <= MAX_INT && name == Name(task, b)
  }

  ghost predicate WellFormed(task: int, names: seq<string>) {
    task >= 0 && Distinct(names) && forall j :: 0 <= j < |names| ==> IsNameOf(names[j], task)
  }

  ghost predicate Honest(steps: seq<Step>) {
    forall k :: 0 <= k < |steps| && steps[k].ReportMap? ==> WellFormed(steps[k].task, steps[k].names)
  }

  lemma NameParses(name: string, task: nat) returns (b: nat)
    requires IsNameOf(name, task)
    ensures b <= MAX_INT && name == Name(task, b) && Parse(name) == Bucket(b)
  {
    b :| b <= MAX_INT && name == Name(task, b);
    ParseOfName(task, b);
  }

  lemma {:induction false} WellFormedIsReadable(task: int, names: seq<string>)
    requires WellFormed(task, names)
    ensures Readable(names) == names
  {
    if names != [] {
      var b := NameParses(names[0], task);
      WellFormedIsReadable(task, names[1..]);
      assert names == [names[0]] + names[1..];
    }
  }

  lemma {:induction false} PickedIsOne(task: int, names: seq<string>, b: nat)
    requires WellFormed(task, names)
    ensures Picked(names, b) == if Name(task, b) in names then [Name(task, b)] else []
  {
    if names != [] {
      var b0 := NameParses(names[0], task);
      PickedIsOne(task, names[1..], b);
      assert names == [names[0]] + names[1..];
      assert names[0] !in names[1..];
      assert names[0] == Name(task, b) <==> b0 == b by {
        if names[0] == Name(task, b) {
          NameIsInjective(task, b0, task, b);
        }
      }
    }
  }

  lemma {:induction false} NoNegativeBucket(task: int, names: seq<string>, b: int)
    requires WellFormed(task, names) && b < 0
    ensures Picked(names, b) == []
  {
    if names != [] {
      var b0 := NameParses(names[0], task);
      NoNegativeBucket(task, names[1..], b);
    }
  }

  lemma HonestLeavesNoRests(inputs: seq<string>, trace: seq<Sys>, steps: seq<Step>, k: nat)
    requires Run(inputs, trace, steps) && k < |trace| && Honest(steps)
    ensures ListsAccepted(trace[k])
  {
    forall j | 0 <= j < k
      ensures !LeavesRests(trace[j], steps[j])
    {
      if steps[j].ReportMap? {
        WellFormedIsReadable(steps[j].task, steps[j].names);
      }
    }
    NoRestsListsAccepted(inputs, trace, steps, k);
  }

  // ---------- Each accepted file once ----------

  predicate Reports(e: Event, b: nat) {
    e.Accepted? && e.kind == Map && e.task >= 0 && Name(e.task, b) in e.files
  }

  // The map tasks whose accepted report has a file for the bucket, in the order of acceptance.
  function Tasks(log: seq<Event>, b: nat): seq<nat> {
    if log == [] then []
    else Tasks(log[..|log| - 1], b) + if Reports(log[|log| - 1], b) then [log[|log| - 1].task] else []
  }

  ghost predicate GoodLog(log: seq<Event>) {
    forall p :: 0 <= p < |log| && log[p].Accepted? && log[p].kind == Map ==> WellFormed(log[p].task, log[p].files)
  }

  lemma {:induction false} CollectedIsNamed(log: seq<Event>, b: nat)
    requires GoodLog(log)
    ensures Collected(log, b) == Named(Tasks(log, b), b)
  {
    if log != [] {
      var m := |log| - 1;
      CollectedIsNamed(log[..m], b);
      if log[m].Accepted? && log[m].kind == Map {
        PickedIsOne(log[m].task, log[m].files, b);
      }
    }
  }

  lemma {:induction false} NothingNegative(log: seq<Event>, b: int)
    requires GoodLog(log) && b < 0
    ensures Collected(log, b) == []
  {
    if log != [] {
      var m := |log| - 1;
      NothingNegative(log[..m], b);
      if log[m].Accepted? && log[m].kind == Map {
        NoNegativeBucket(log[m].task, log[m].files, b);
      }
    }
  }

  // The known reduce tasks are the buckets that some accepted report has a file for.
  lemma KnownReduces(inputs: seq<string>, trace: seq<Sys>, steps: seq<Step>, k: nat, b: int)
    requires Run(inputs, trace, steps) && k < |trace| && Honest(steps)
    ensures b in trace[k].c.files <==> b >= 0 && Tasks(trace[k].log, b) != []
  {
    HonestLeavesNoRests(inputs, trace, steps, k);
    ListsAreNotEmpty(inputs, trace, steps, k);
    HonestLog(inputs, trace, steps, k);
    assert Listed(trace[k].c.files, b) == Collected(trace[k].log, b);
    if b >= 0 {
      CollectedIsNamed(trace[k].log, b);
    } else {
      NothingNegative(trace[k].log, b);
    }
  }

  lemma {:induction false} TaskHasReport(log: seq<Event>, b: nat, i: nat)
    ensures i in Tasks(log, b) <==> exists p :: 0 <= p < |log| && Reports(log[p], b) && log[p].task == i
  {
    if log != [] {
      var m := |log| - 1;
      TaskHasReport(log[..m], b, i);
      assert forall p :: 0 <= p < m ==> log[..m][p] == log[p];
    }
  }

  lemma {:induction false} TasksAreDistinct(log: seq<Event>, b: nat)
    requires Final(log)
    ensures Distinct(Tasks(log, b))
  {
    if log != [] {
      var m := |log| - 1;
      TasksAreDistinct(log[..m], b);
      if Reports(log[m], b) {
        TaskHasReport(log[..m], b, log[m].task);
        assert log[m].task !in Tasks(log[..m], b) by {
          assert forall p :: 0 <= p < m && log[p].Accepted? ==> !Same(log[p], log[m]);
        }
      }
    }
  }

  lemma {:induction false} HonestLog(inputs: seq<string>, trace: seq<Sys>, steps: seq<Step>, k: nat)
    requires Run(inputs, trace, steps) && k < |trace| && Honest(steps)
    ensures GoodLog(trace[k].log)
  {
    if k > 0 {
      HonestLog(inputs, trace, steps, k - 1);
    }
  }

  // ---------- What a reduce task is handed ----------

  ghost predicate HandedAccepted(log: seq<Event>) {
    forall p :: 0 <= p < |log| && log[p].Handed? && log[p].kind == Reduce ==>
      log[p].files == Collected(log[..p], log[p].task)
  }

  lemma {:induction false} HandedIsAccepted(inputs: seq<string>, trace: seq<Sys>, steps: seq<Step>, k: nat)
    requires Run(inputs, trace, steps) && k < |trace| && Honest(steps)
    ensures HandedAccepted(trace[k].log)
  {
    if k > 0 {
      HandedIsAccepted(inputs, trace, steps, k - 1);
      HonestLeavesNoRests(inputs, trace, steps, k - 1);
      HandedStep(trace[k - 1], steps[k - 1]);
    }
  }

  lemma HandedStep(s: Sys, step: Step)
    requires Enabled(s, step) && HandedAccepted(s.log) && ListsAccepted(s)
    ensures HandedAccepted(Next(s, step).log)
  {
    var log := Next(s, step).log;
    forall p | 0 <= p < |log| && log[p].Handed? && log[p].kind == Reduce
      ensures log[p].files == Collected(log[..p], log[p].task)
    {
      if p < |s.log| {
        assert log[p] == s.log[p] && log[..p] == s.log[..p];
      } else {
        assert step.GiveReduce? && p == |s.log|;
        assert log[..p] == s.log;
        assert Listed(s.c.files, log[p].task) == Collected(s.log, log[p].task);
      }
    }
  }

  // In runs with well-formed reports, a reduce task's list has the file of every map task that
  // reported one for its bucket, each once, and nothing else; and by then all have reported.
  lemma HandedFilesAreAll(inputs: seq<string>, trace: seq<Sys>, steps: seq<Step>, k: nat, p: nat)
    returns (tasks: seq<nat>)
    requires Run(inputs, trace, steps) && k < |trace| && Honest(steps)
    requires p < |trace[k].log| && trace[k].log[p].Handed? && trace[k].log[p].kind == Reduce
             && trace[k].log[p].task >= 0
    ensures var b, before := trace[k].log[p].task, trace[k].log[..p];
            && trace[k].log[p].files == Named(tasks, b)
            && Distinct(tasks)
            && (forall i: nat :: i in tasks <==>
                exists q :: 0 <= q < |before| && Reports(before[q], b) && before[q].task == i)
            && AllMapped(before, |inputs|)
  {
    var log := trace[k].log;
    var b, before := log[p].task, log[..p];
    tasks := Tasks(before, b);
    RunKeepsInv(inputs, trace, steps, k);
    InputsStay(inputs, trace, steps, k);
    HandedIsAccepted(inputs, trace, steps, k);
    HonestLog(inputs, trace, steps, k);
    CollectedIsNamed(before, b);
    TasksAreDistinct(before, b);
    forall i: nat
      ensures i in tasks <==> exists q :: 0 <= q < |before| && Reports(before[q], b) && before[q].task == i
    {
      TaskHasReport(before, b, i);
    }
  }
}

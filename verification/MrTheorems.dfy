/**
 What holds of every run of the MapReduce coordinator, whatever the interleaving of hand-outs,
 timeouts and late or repeated reports.
 */
module MrTheorems {
  import opened Collections
  import opened MrCoordinator
  import opened MrSafety

  // ---------- Tasks ----------

  // Every known task is in exactly one place, and in the queue at most once.
  lemma TaskIsInOnePlace(inputs: seq<string>, trace: seq<Sys>, steps: seq<Step>, k: nat, kind: Kind, i: int)
    requires Run(inputs, trace, steps) && k < |trace| && i in BoardOf(trace[k].c, kind).status
    ensures var b := BoardOf(trace[k].c, kind);
            multiset(b.idle)[i] + (if i in b.txns then 1 else 0)
              + (if WasAccepted(trace[k].log, kind, i) then 1 else 0) == 1
  {
    RunKeepsInv(inputs, trace, steps, k);
    var b, log := BoardOf(trace[k].c, kind), trace[k].log;
    assert Matches(b, i, LastAbout(log, kind, i));
    OnceOrNever(b.idle, i);
    if b.status[i] == Completed {
      var p := LastIsInLog(log, kind, i);
    } else if WasAccepted(log, kind, i) {
      var p :| 0 <= p < |log| && log[p].Accepted? && About(log[p], kind, i);
      AcceptedIsLast(log, p);
    }
  }

  // A report counts exactly when nothing has happened to the task since that very hand-out.
  lemma ReportCountsIff(inputs: seq<string>, trace: seq<Sys>, steps: seq<Step>, k: nat, kind: Kind, i: int, txn: nat)
    requires Run(inputs, trace, steps) && k < |trace|
    ensures IsCurrent(BoardOf(trace[k].c, kind), i, txn)
       <==> var last := LastAbout(trace[k].log, kind, i); last.Some? && last.value.Handed? && last.value.txn == txn
  {
    RunKeepsInv(inputs, trace, steps, k);
    assert Matches(BoardOf(trace[k].c, kind), i, LastAbout(trace[k].log, kind, i));
  }

  // No two hand-outs share a transaction number, and no task is accepted twice.
  lemma AcceptedOnce(inputs: seq<string>, trace: seq<Sys>, steps: seq<Step>, k: nat, p: nat, q: nat)
    requires Run(inputs, trace, steps) && k < |trace| && p < q < |trace[k].log|
    ensures var e, f := trace[k].log[p], trace[k].log[q];
            && !(e.Accepted? && f.Accepted? && Same(e, f))
            && !(e.Handed? && f.Handed? && e.txn == f.txn)
  {
    RunKeepsInv(inputs, trace, steps, k);
  }

  // No reduce task is handed out before every map task has been accepted.
  lemma ReducesWaitForMaps(inputs: seq<string>, trace: seq<Sys>, steps: seq<Step>, k: nat, p: nat, i: nat)
    requires Run(inputs, trace, steps) && k < |trace| && p < |trace[k].log| && i < |inputs|
    requires trace[k].log[p].Handed? && trace[k].log[p].kind == Reduce
    ensures WasAccepted(trace[k].log[..p], Map, i)
  {
    RunKeepsInv(inputs, trace, steps, k);
    InputsStay(inputs, trace, steps, k);
  }

  lemma {:induction false} InputsStay(inputs: seq<string>, trace: seq<Sys>, steps: seq<Step>, k: nat)
    requires Run(inputs, trace, steps) && k < |trace|
    ensures trace[k].c.inputs == inputs
  {
    if k > 0 {
      InputsStay(inputs, trace, steps, k - 1);
    }
  }

  // ---------- Done ----------

  lemma {:induction false} DoneCount(b: Board, stale: seq<int>)
    ensures ExpireAll(b, stale).done == b.done
  {
    if stale != [] {
      DoneCount(b, stale[..|stale| - 1]);
    }
  }

  lemma NoneInProgress(c: Coord)
    requires TasksOk(c) && MapsDone(c)
    ensures c.maps.txns == map[]
  {
    MapsDoneMeansAll(c);
    assert forall i :: i in c.maps.status ==> i in Ended(c.maps);
    assert c.maps.txns.Keys == {};
  }

  lemma DoneStays(s: Sys, step: Step, s': Sys)
    requires Inv(s) && Follows(s, step, s') && Done(s.c)
    ensures Done(s'.c)
  {
    NoneInProgress(s.c);
    match step
    case ExpireMaps(now, stale) => DoneCount(s.c.maps, stale);
    case ExpireReduces(now, stale) => DoneCount(s.c.reduces, stale);
    case _ =>
  }

  lemma {:induction false} DoneFromThere(trace: seq<Sys>, j: nat, k: nat)
    requires j <= k < |trace| && Done(trace[j].c)
    requires forall i :: 0 < i < |trace| && Done(trace[i - 1].c) ==> Done(trace[i].c)
    ensures Done(trace[k].c)
  {
    if j < k {
      DoneFromThere(trace, j, k - 1);
    }
  }

  // Once the coordinator says it is done, it stays done.
  lemma DoneIsFinal(inputs: seq<string>, trace: seq<Sys>, steps: seq<Step>, j: nat, k: nat)
    requires Run(inputs, trace, steps) && j <= k < |trace| && Done(trace[j].c)
    ensures Done(trace[k].c)
  {
    forall i | 0 < i < |trace| && Done(trace[i - 1].c)
      ensures Done(trace[i].c)
    {
      RunKeepsInv(inputs, trace, steps, i - 1);
      DoneStays(trace[i - 1], steps[i - 1], trace[i]);
    }
    DoneFromThere(trace, j, k);
  }

  lemma ReducesDoneMeansAll(c: Coord, b: int)
    requires TasksOk(c) && ReducesDone(c) && b in c.files
    ensures b in c.reduces.status && c.reduces.status[b] == Completed
  {
    assert forall i :: i in Ended(c.reduces) ==> i in c.files.Keys;
    FullSubset(Ended(c.reduces), c.files.Keys);
    assert b in Ended(c.reduces);
  }

  // It says so exactly when every map task and every known reduce task has been accepted.
  lemma DoneIffAllAccepted(inputs: seq<string>, trace: seq<Sys>, steps: seq<Step>, k: nat)
    requires Run(inputs, trace, steps) && k < |trace|
    ensures var s := trace[k];
            Done(s.c) <==> AllMapped(s.log, |inputs|) && forall b :: b in s.c.files ==> WasAccepted(s.log, Reduce, b)
  {
    RunKeepsInv(inputs, trace, steps, k);
    InputsStay(inputs, trace, steps, k);
    var s := trace[k];
    if Done(s.c) {
      AllAreMapped(s);
      forall b | b in s.c.files
        ensures WasAccepted(s.log, Reduce, b)
      {
        ReducesDoneMeansAll(s.c, b);
        assert Matches(s.c.reduces, b, LastAbout(s.log, Reduce, b));
        var p := LastIsInLog(s.log, Reduce, b);
      }
    }
    if AllMapped(s.log, |inputs|) && forall b :: b in s.c.files ==> WasAccepted(s.log, Reduce, b) {
      AcceptedAreEnded(s, Map, Range(|inputs|));
      AcceptedAreEnded(s, Reduce, s.c.files.Keys);
    }
  }

  lemma AcceptedAreEnded(s: Sys, kind: Kind, all: set<int>)
    requires Inv(s) && forall i :: i in all ==> WasAccepted(s.log, kind, i)
    ensures BoardOf(s.c, kind).done >= |all|
  {
    var b := BoardOf(s.c, kind);
    forall i | i in all
      ensures i in Ended(b)
    {
      var p :| 0 <= p < |s.log| && s.log[p].Accepted? && About(s.log[p], kind, i);
      AcceptedIsLast(s.log, p);
      assert Matches(b, i, LastAbout(s.log, kind, i));
    }
    SubsetSize(all, Ended(b));
  }
}

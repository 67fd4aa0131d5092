/**
 What the key/value services do with a client call, and why executing each call once, between
 its invocation and its response, makes the history linearizable.  Shared by the models of
 src/kvraft and src/shardkv.
 */
module KvStore {
  import opened Collections
  import opened Linearizability
  import opened KvHistory

  datatype Kind = Get | Put | Append

  datatype Op = Op(kind: Kind, client: int, call: int, key: string, value: string)

  // The last call of a client that was executed, and its answer.
  datatype LastOperation = LastOperation(call: int, result: string)

  // Clients by number; each entry is the client's newest executed call.
  type LastOps = map<int, LastOperation>

  function Effect(data: Store, op: Op): Store {
    match op.kind
    case Get => data
    case Put => data[op.key := op.value]
    case Append => data[op.key := ValueOf(data, op.key) + op.value]
  }

  // Only a get has an answer.
  function Answer(data: Store, op: Op): string {
    if op.kind == Get then ValueOf(data, op.key) else ""
  }

  // ---------------------------------------------------------------------------------------
  // The calls executed, in order
  // ---------------------------------------------------------------------------------------

  datatype Record = Record(op: Op, result: string, invoked: nat, executed: nat)

  // The sequential store after these calls.
  function Replay(log: seq<Record>): Store {
    if log == [] then map[] else Effect(Replay(log[..|log| - 1]), log[|log| - 1].op)
  }

  // Every answer is the sequential store's, every call is executed after its invocation, and
  // the log is in the order of execution.
  ghost predicate Faithful(log: seq<Record>) {
    Ordered(log) && forall i: nat :: i < |log| ==> Answered(log, i)
  }

  // No call is executed twice.
  ghost predicate Once(log: seq<Record>) {
    forall i, j :: 0 <= i < j < |log| ==> log[i].op.client != log[j].op.client || log[i].op.call != log[j].op.call
  }

  ghost predicate Recorded(log: seq<Record>, client: int, call: int, result: string) {
    exists i :: 0 <= i < |log| && log[i].op.client == client && log[i].op.call == call && log[i].result == result
  }

  ghost predicate Answered(log: seq<Record>, i: nat)
    requires i < |log|
  {
    log[i].result == Answer(Replay(log[..i]), log[i].op)
  }

  lemma OneMore(log: seq<Record>, e: Record)
    requires Faithful(log) && e.result == Answer(Replay(log), e.op) && e.invoked < e.executed
    requires forall i :: 0 <= i < |log| ==> log[i].executed < e.executed
    ensures Faithful(log + [e]) && Replay(log + [e]) == Effect(Replay(log), e.op)
  {
    AnsweredMore(log, e);
    OrderedMore(log, e);
    ReplayMore(log, e);
  }

  lemma ReplayMore(log: seq<Record>, e: Record)
    ensures Replay(log + [e]) == Effect(Replay(log), e.op)
  {
    assert (log + [e])[..|log|] == log;
  }

  ghost predicate Ordered(log: seq<Record>) {
    && (forall i :: 0 <= i < |log| ==> log[i].invoked < log[i].executed)
    && (forall i, j :: 0 <= i < j < |log| ==> log[i].executed < log[j].executed)
  }

  lemma OrderedMore(log: seq<Record>, e: Record)
    requires Ordered(log) && e.invoked < e.executed && forall i :: 0 <= i < |log| ==> log[i].executed < e.executed
    ensures Ordered(log + [e])
  {
    var more := log + [e];
    forall i, j | 0 <= i < j < |more| ensures more[i].executed < more[j].executed {
      assert more[i] == log[i] && (j < |log| ==> more[j] == log[j]);
    }
  }

  lemma AnsweredMore(log: seq<Record>, e: Record)
    requires (forall i: nat :: i < |log| ==> Answered(log, i)) && e.result == Answer(Replay(log), e.op)
    ensures forall i: nat :: i < |log + [e]| ==> Answered(log + [e], i)
  {
    forall i: nat | i < |log + [e]| ensures Answered(log + [e], i) {
      if i < |log| {
        StillAnswered(log, e, i);
      } else {
        LastAnswered(log, e);
      }
    }
  }

  lemma LastAnswered(log: seq<Record>, e: Record)
    requires e.result == Answer(Replay(log), e.op)
    ensures Answered(log + [e], |log|)
  {
    assert (log + [e])[..|log|] == log;
  }

  lemma StillAnswered(log: seq<Record>, e: Record, i: nat)
    requires i < |log| && Answered(log, i)
    ensures Answered(log + [e], i)
  {
    assert (log + [e])[..i] == log[..i];
  }

  // ---------------------------------------------------------------------------------------
  // As a history for the checker
  // ---------------------------------------------------------------------------------------

  // When each answered call was answered, by client and call number.
  type Replies = map<(int, int), nat>

  function InputOf(op: Op): KvInput {
    KvInput(match op.kind case Get => 0 case Put => 1 case Append => 2, op.key, op.value)
  }

  // A call not answered yet returns at the end.
  function ReturnTime(replies: Replies, e: Record, end: nat): nat {
    var id := (e.op.client, e.op.call);
    if id in replies then replies[id] else end
  }

  function HistoryOf(log: seq<Record>, replies: Replies, end: nat): (h: seq<KvOperation>)
    ensures |h| == |log|
  {
    seq(|log|, i requires 0 <= i < |log| =>
      var e := log[i];
      Operation(e.op.client, InputOf(e.op), e.invoked, KvOutput(e.result), ReturnTime(replies, e, end)))
  }

  // Calls are answered after they are executed, and everything happens before the end.
  ghost predicate Timed(log: seq<Record>, replies: Replies, end: nat) {
    forall i :: 0 <= i < |log| ==> log[i].executed < ReturnTime(replies, log[i], end)
  }

  function Steps(k: nat, n: nat): (p: seq<nat>)
    requires k <= n
    ensures |p| == n - k && forall i :: 0 <= i < |p| ==> p[i] == k + i
    decreases n - k
  {
    if k == n then [] else [k] + Steps(k + 1, n)
  }

  ghost predicate SameValues(s: Store, t: Store) {
    forall key: string :: ValueOf(s, key) == ValueOf(t, key)
  }

  // The model's step is the service's effect, and it accepts the service's answer.
  lemma StepIsEffect(s: Store, t: Store, op: Op)
    requires SameValues(s, t)
    ensures StepStore(s, InputOf(op), KvOutput(Answer(t, op))).0
    ensures SameValues(StepStore(s, InputOf(op), KvOutput(Answer(t, op))).1, Effect(t, op))
  {
    var s', t' := StepStore(s, InputOf(op), KvOutput(Answer(t, op))).1, Effect(t, op);
    assert ValueOf(s, op.key) == ValueOf(t, op.key);
    forall key: string ensures ValueOf(s', key) == ValueOf(t', key) {
      assert ValueOf(s, key) == ValueOf(t, key);
    }
  }

  lemma {:induction false} AcceptsInOrder(h: seq<KvOperation>, log: seq<Record>, replies: Replies, end: nat, k: nat,
                                          s: Store)
    requires h == HistoryOf(log, replies, end) && k <= |log| && Faithful(log)
    requires SameValues(s, Replay(log[..k]))
    ensures Accepts(WholeStore(), h, Steps(k, |log|), s)
    decreases |log| - k
  {
    if k < |log| {
      assert Answered(log, k);
      StepIsEffect(s, Replay(log[..k]), log[k].op);
      assert log[..k + 1][..k] == log[..k];
      AcceptsInOrder(h, log, replies, end, k + 1, Step(WholeStore(), h, s, k).1);
      assert Steps(k, |log|)[1..] == Steps(k + 1, |log|);
    }
  }

  lemma InOrderRespectsTime(log: seq<Record>, replies: Replies, end: nat)
    requires Faithful(log) && Timed(log, replies, end)
    ensures RespectsTime(RealTime(HistoryOf(log, replies, end)), Steps(0, |log|))
  {
  }

  lemma InOrderArranges(n: nat)
    ensures Arranges(Steps(0, n), Indices(n))
  {
    forall i: nat | i in Indices(n) ensures i in Steps(0, n) {
      assert Steps(0, n)[i] == i;
    }
  }

  // The order of execution is a linearization of the whole history.
  lemma ExecutionLinearizes(log: seq<Record>, replies: Replies, end: nat)
    requires Faithful(log) && Timed(log, replies, end)
    ensures Linearizable(WholeStore(), HistoryOf(log, replies, end))
  {
    var h, p := HistoryOf(log, replies, end), Steps(0, |log|);
    assert log[..0] == [];
    AcceptsInOrder(h, log, replies, end, 0, map[]);
    InOrderRespectsTime(log, replies, end);
    InOrderArranges(|log|);
    assert Linearizes(WholeStore(), h, RealTime(h), Indices(|h|), WholeStore().init, p);
  }
}

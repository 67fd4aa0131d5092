/**
 The clerks of src/kvraft/client.go and src/shardkv/client.go: each numbers its calls from 0,
 has one outstanding at a time, and is answered from a table of last operations.  What the
 services have to show about a log of executed calls is stated here once for both.
 */
module KvClients {
  import opened Collections
  import opened Linearizability
  import opened KvHistory
  import opened KvStore

  datatype Call = Call(op: Op, time: nat)

  // The calls started, by client and number; when and how they were answered; the time.
  datatype Clients = Clients(calls: map<int, seq<Call>>, replies: Replies, answers: map<(int, int), string>, now: nat)

  const NoClients := Clients(map[], map[], map[], 0)

  function CallsOf(c: Clients, client: int): seq<Call> {
    if client in c.calls then c.calls[client] else []
  }

  predicate IsStarted(c: Clients, id: (int, int)) {
    0 <= id.1 < |CallsOf(c, id.0)|
  }

  predicate Started(c: Clients, op: Op) {
    0 <= op.call < |CallsOf(c, op.client)| && CallsOf(c, op.client)[op.call].op == op
  }

  // The next number, and only when the call before has been answered.
  predicate MayStart(c: Clients, op: Op) {
    op.call == |CallsOf(c, op.client)| && (op.call > 0 ==> (op.client, op.call - 1) in c.replies)
  }

  function StartCall(c: Clients, op: Op): Clients {
    c.(calls := c.calls[op.client := CallsOf(c, op.client) + [Call(op, c.now)]], now := c.now + 1)
  }

  // A server answers a call when its table holds this very call.
  predicate MayRespond(c: Clients, id: (int, int), table: LastOps) {
    && IsStarted(c, id) && id !in c.replies
    && id.0 in table && table[id.0].call == id.1
  }

  function Respond(c: Clients, id: (int, int), table: LastOps): Clients
    requires MayRespond(c, id, table)
  {
    c.(replies := c.replies[id := c.now], answers := c.answers[id := table[id.0].result], now := c.now + 1)
  }

  function Tick(c: Clients): Clients {
    c.(now := c.now + 1)
  }

  // No started call is forgotten.
  ghost predicate CallsGrow(c: Clients, d: Clients) {
    forall client :: CallsOf(c, client) <= CallsOf(d, client)
  }

  lemma StartGrows(c: Clients, op: Op)
    ensures CallsGrow(c, StartCall(c, op))
  {
  }

  lemma StaysStarted(c: Clients, d: Clients, op: Op)
    requires CallsGrow(c, d) && Started(c, op)
    ensures Started(d, op)
  {
    assert CallsOf(c, op.client) <= CallsOf(d, op.client);
  }

  // The record of a call executed now.
  function NewRecord(c: Clients, op: Op, result: string): Record
    requires Started(c, op)
  {
    Record(op, result, CallsOf(c, op.client)[op.call].time, c.now)
  }

  // ---------------------------------------------------------------------------------------
  // The invariant
  // ---------------------------------------------------------------------------------------

  // Calls carry their own client and number, and were started in the past.
  ghost predicate CallOk(c: Clients, client: int, n: nat)
    requires n < |CallsOf(c, client)|
  {
    var k := CallsOf(c, client)[n];
    k.op.client == client && k.op.call == n && k.time < c.now
  }

  ghost predicate CallsOk(c: Clients) {
    forall client, n: nat :: n < |CallsOf(c, client)| ==> CallOk(c, client, n)
  }

  ghost predicate RecordOk(c: Clients, e: Record) {
    Started(c, e.op) && e.invoked == CallsOf(c, e.op.client)[e.op.call].time && e.executed < c.now
  }

  // Every answer is the sequential store's, and no call is executed twice.
  ghost predicate LogOk(c: Clients, log: seq<Record>) {
    && Faithful(log) && Once(log)
    && forall i :: 0 <= i < |log| ==> RecordOk(c, log[i])
  }

  ghost predicate Gave(e: Record, id: (int, int), answer: string, time: nat) {
    e.op.client == id.0 && e.op.call == id.1 && e.result == answer && e.executed < time
  }

  // An answered call was executed before, and got the answer of its execution.
  ghost predicate RepliedOk(c: Clients, log: seq<Record>, id: (int, int))
    requires id in c.replies && id in c.answers
  {
    && c.replies[id] < c.now
    && exists i :: 0 <= i < |log| && Gave(log[i], id, c.answers[id], c.replies[id])
  }

  ghost predicate RepliesOk(c: Clients, log: seq<Record>) {
    c.replies.Keys == c.answers.Keys && forall id :: id in c.replies ==> RepliedOk(c, log, id)
  }

  ghost predicate ClientsOk(c: Clients, log: seq<Record>) {
    CallsOk(c) && LogOk(c, log) && RepliesOk(c, log)
  }

  // Every entry of the table is a call that was executed, with its answer.
  ghost predicate TableOk(log: seq<Record>, l: LastOps) {
    forall client :: client in l ==> Recorded(log, client, l[client].call, l[client].result)
  }

  // ---------------------------------------------------------------------------------------
  // What keeps it
  // ---------------------------------------------------------------------------------------

  // Time passing, and calls being added, keep what was known.
  ghost predicate Onwards(c: Clients, d: Clients) {
    && c.now <= d.now && c.replies == d.replies && c.answers == d.answers
    && forall client :: CallsOf(c, client) <= CallsOf(d, client)
  }

  lemma OnwardsKeeps(c: Clients, d: Clients, log: seq<Record>)
    requires Onwards(c, d) && LogOk(c, log) && RepliesOk(c, log)
    ensures LogOk(d, log) && RepliesOk(d, log)
  {
    forall i | 0 <= i < |log| ensures RecordOk(d, log[i]) {
      assert RecordOk(c, log[i]);
      assert CallsOf(c, log[i].op.client) <= CallsOf(d, log[i].op.client);
    }
    forall id | id in d.replies ensures RepliedOk(d, log, id) {
      assert RepliedOk(c, log, id);
    }
  }

  lemma StartKeepsClients(c: Clients, log: seq<Record>, op: Op)
    requires ClientsOk(c, log) && MayStart(c, op)
    ensures ClientsOk(StartCall(c, op), log)
  {
    var d := StartCall(c, op);
    forall client, n: nat | n < |CallsOf(d, client)| ensures CallOk(d, client, n) {
      if n < |CallsOf(c, client)| {
        assert CallOk(c, client, n);
      }
    }
    OnwardsKeeps(c, d, log);
  }

  lemma TickKeepsClients(c: Clients, log: seq<Record>)
    requires ClientsOk(c, log)
    ensures ClientsOk(Tick(c), log)
  {
    var d := Tick(c);
    forall client, n: nat | n < |CallsOf(d, client)| ensures CallOk(d, client, n) {
      assert CallOk(c, client, n);
    }
    OnwardsKeeps(c, d, log);
  }

  lemma RespondKeepsReplies(c: Clients, log: seq<Record>, id: (int, int), table: LastOps)
    requires LogOk(c, log) && RepliesOk(c, log) && TableOk(log, table) && MayRespond(c, id, table)
    ensures RepliesOk(Respond(c, id, table), log)
  {
    var d := Respond(c, id, table);
    assert Recorded(log, id.0, table[id.0].call, table[id.0].result);
    var i :| 0 <= i < |log| && log[i].op.client == id.0 && log[i].op.call == id.1
      && log[i].result == table[id.0].result;
    assert RecordOk(c, log[i]);
    assert Gave(log[i], id, d.answers[id], d.replies[id]);
    forall k | k in d.replies ensures RepliedOk(d, log, k) {
      if k != id {
        assert RepliedOk(c, log, k);
      }
    }
  }

  lemma RespondKeepsClients(c: Clients, log: seq<Record>, id: (int, int), table: LastOps)
    requires ClientsOk(c, log) && TableOk(log, table) && MayRespond(c, id, table)
    ensures ClientsOk(Respond(c, id, table), log)
  {
    var d := Respond(c, id, table);
    RespondKeepsReplies(c, log, id, table);
    forall j | 0 <= j < |log| ensures RecordOk(d, log[j]) {
      assert RecordOk(c, log[j]);
    }
    forall client, n: nat | n < |CallsOf(d, client)| ensures CallOk(d, client, n) {
      assert CallOk(c, client, n);
    }
  }

  // A started call that has not been executed is executed now.
  lemma ExecuteKeepsClients(c: Clients, log: seq<Record>, op: Op)
    requires ClientsOk(c, log) && Started(c, op)
    requires forall i :: 0 <= i < |log| ==> log[i].op != op
    ensures ClientsOk(Tick(c), log + [NewRecord(c, op, Answer(Replay(log), op))])
    ensures Replay(log + [NewRecord(c, op, Answer(Replay(log), op))]) == Effect(Replay(log), op)
  {
    var e, d := NewRecord(c, op, Answer(Replay(log), op)), Tick(c);
    assert CallOk(c, op.client, op.call);
    assert forall i :: 0 <= i < |log| ==> RecordOk(c, log[i]);
    OneMore(log, e);
    TickKeepsClients(c, log);
    RepliesStay(d, log, e);
    forall i | 0 <= i < |log| + 1 ensures RecordOk(d, (log + [e])[i]) {
      if i < |log| {
        assert RecordOk(d, log[i]);
      }
    }
    NewCallOnce(c, log, op, e);
  }

  lemma NewCallOnce(c: Clients, log: seq<Record>, op: Op, e: Record)
    requires Once(log) && Started(c, op) && e.op == op
    requires forall i :: 0 <= i < |log| ==> RecordOk(c, log[i]) && log[i].op != op
    ensures Once(log + [e])
  {
    forall i | 0 <= i < |log| ensures log[i].op.client != op.client || log[i].op.call != op.call {
      assert RecordOk(c, log[i]);
    }
  }

  lemma RepliesStay(c: Clients, log: seq<Record>, e: Record)
    requires RepliesOk(c, log)
    ensures RepliesOk(c, log + [e])
  {
    forall id | id in c.replies ensures RepliedOk(c, log + [e], id) {
      assert RepliedOk(c, log, id);
      var i :| 0 <= i < |log| && Gave(log[i], id, c.answers[id], c.replies[id]);
      assert (log + [e])[i] == log[i];
    }
  }

  lemma TableStays(log: seq<Record>, e: Record, l: LastOps)
    requires TableOk(log, l)
    ensures TableOk(log + [e], l)
  {
    forall client | client in l ensures Recorded(log + [e], client, l[client].call, l[client].result) {
      assert Recorded(log, client, l[client].call, l[client].result);
      var i :| 0 <= i < |log| && log[i].op.client == client && log[i].op.call == l[client].call
        && log[i].result == l[client].result;
      assert (log + [e])[i] == log[i];
    }
  }

  lemma TableNext(log: seq<Record>, e: Record, l: LastOps)
    requires TableOk(log, l)
    ensures TableOk(log + [e], l[e.op.client := LastOperation(e.op.call, e.result)])
  {
    TableStays(log, e, l);
    assert (log + [e])[|log|] == e;
  }

  // ---------------------------------------------------------------------------------------
  // What it gives
  // ---------------------------------------------------------------------------------------

  ghost predicate IsCall(e: Record, id: (int, int)) {
    e.op.client == id.0 && e.op.call == id.1
  }

  // The execution of an answered call: the only one, between its start and its answer.
  lemma ExecutedOnce(c: Clients, log: seq<Record>, id: (int, int)) returns (i: nat)
    requires ClientsOk(c, log) && id in c.replies
    ensures i < |log| && IsCall(log[i], id) && id in c.answers && IsStarted(c, id)
    ensures log[i].op == CallsOf(c, id.0)[id.1].op && log[i].invoked == CallsOf(c, id.0)[id.1].time
    ensures log[i].result == c.answers[id] == Answer(Replay(log[..i]), log[i].op)
    ensures log[i].invoked < log[i].executed < c.replies[id]
    ensures forall j :: 0 <= j < |log| && IsCall(log[j], id) ==> j == i
  {
    assert RepliedOk(c, log, id);
    i :| i < |log| && Gave(log[i], id, c.answers[id], c.replies[id]);
    assert Answered(log, i);
    assert RecordOk(c, log[i]);
  }

  // What a clerk saw of one of its calls: its own operation, when it started it, and, once it was
  // answered, the answer and when it came.  A call still out is open to the end.
  ghost predicate Saw(c: Clients, id: (int, int), o: KvOperation) {
    && IsStarted(c, id) && o.clientId == id.0
    && o.input == InputOf(CallsOf(c, id.0)[id.1].op) && o.call == CallsOf(c, id.0)[id.1].time
    && (if id in c.replies then id in c.answers && o.output == KvOutput(c.answers[id]) && o.ret == c.replies[id]
        else o.ret == c.now)
  }

  // A history of the clerks' calls: every answered call once, and perhaps some that are still out.
  ghost predicate HistoryOfCalls(c: Clients, ids: seq<(int, int)>, h: seq<KvOperation>) {
    && |ids| == |h| && Distinct(ids)
    && (forall i :: 0 <= i < |ids| ==> Saw(c, ids[i], h[i]))
    && (forall id :: id in c.replies ==> id in ids)
  }

  // What the clerks saw is what one sequential store could have told them.
  ghost predicate SeeOneStore(c: Clients) {
    exists ids, h :: HistoryOfCalls(c, ids, h) && Linearizable(WholeStore(), h)
  }

  function IdsOf(log: seq<Record>): (ids: seq<(int, int)>)
    ensures |ids| == |log|
  {
    seq(|log|, i requires 0 <= i < |log| => (log[i].op.client, log[i].op.call))
  }

  // The executed calls, as recorded, are such a history.
  lemma LogIsHistory(c: Clients, log: seq<Record>)
    requires ClientsOk(c, log)
    ensures HistoryOfCalls(c, IdsOf(log), HistoryOf(log, c.replies, c.now))
  {
    var ids, h := IdsOf(log), HistoryOf(log, c.replies, c.now);
    forall i | 0 <= i < |ids| ensures Saw(c, ids[i], h[i]) {
      assert RecordOk(c, log[i]);
      if ids[i] in c.replies {
        var j := ExecutedOnce(c, log, ids[i]);
        assert IsCall(log[i], ids[i]);
      }
    }
    forall id | id in c.replies ensures id in ids {
      var j := ExecutedOnce(c, log, id);
      assert ids[j] == id;
    }
  }

  // The whole history is linearizable.
  lemma HistoryIsLinearizable(c: Clients, log: seq<Record>)
    requires ClientsOk(c, log)
    ensures SeeOneStore(c)
  {
    forall i | 0 <= i < |log| ensures log[i].executed < ReturnTime(c.replies, log[i], c.now) {
      assert RecordOk(c, log[i]);
      var id := (log[i].op.client, log[i].op.call);
      if id in c.replies {
        var j := ExecutedOnce(c, log, id);
      }
    }
    ExecutionLinearizes(log, c.replies, c.now);
    LogIsHistory(c, log);
  }
}

/**
 A server of the replicated key/value service (src/kvraft/server.go): the maps it changes in
 place, tied to the functions of KvRaft and to the receiving end of Delivery.
 */
module KvNode {
  import opened KvHistory
  import opened KvStore
  import opened KvRaft
  import RaftServer
  import Delivery

  datatype Outcome = Done | Panic

  // What a handler tells the clerk, or that it has to go through the log first.
  datatype Verdict = Ok(value: string) | WrongLeader | NotYet

  class KVServer {
    var data: Store
    var lastOps: LastOps
    var lastApplied: nat

    function View(): KvState
      reads this
    {
      KvState(data, lastOps)
    }

    function Held(): Delivery.Replica<KvState>
      reads this
    {
      Delivery.Replica(lastApplied, View())
    }

    constructor ()
      ensures View() == Empty && lastApplied == 0
    {
      data, lastOps, lastApplied := map[], map[], 0;
    }

    // Executes the next command; `m` is the service the encoded command is received by.
    method ExecOp(op: Op, index: int, ghost m: Delivery.Service<KvState>, ghost command: RaftServer.Command)
      returns (outcome: Outcome)
      requires index >= 0 && forall k: KvState :: m.exec(k, command) == Execute(k, op)
      modifies this
      ensures outcome == Panic <==> Delivery.Receive(m, old(Held()), RaftServer.CommandMsg(index, command)).Panic?
      ensures outcome == Panic ==> Held() == old(Held())
      ensures outcome == Done ==>
              Delivery.Receive(m, old(Held()), RaftServer.CommandMsg(index, command)) == RaftServer.Done(Held())
      ensures outcome == Done ==> View() == Execute(old(View()), op)
    {
      if lastApplied >= index {
        return Panic;
      }
      if lastApplied + 1 != index {
        return Panic;
      }
      lastApplied := lastApplied + 1;
      if op.client in lastOps && lastOps[op.client].call >= op.call {
        return Done;
      }
      var result := "";
      match op.kind {
        case Get =>
          if op.key in data {
            result := data[op.key];
          }
        case Put =>
          data := data[op.key := op.value];
        case Append =>
          var value := if op.key in data then data[op.key] else "";
          data := data[op.key := value + op.value];
      }
      lastOps := lastOps[op.client := LastOperation(op.call, result)];
      return Done;
    }

    // The encoded snapshot carries the index it covers.
    method ApplySnapshot(snapshotIndex: nat, term: nat, snapshot: RaftServer.Snapshot, index: nat, state: KvState,
                         ghost m: Delivery.Service<KvState>)
      returns (outcome: Outcome)
      requires snapshot.Snapshot? && snapshot.lastIncludedIndex == index && m.decode(snapshot.data) == state
      modifies this
      ensures outcome == Panic <==> index != snapshotIndex
      ensures outcome == Panic ==> Held() == old(Held())
      ensures outcome == Done ==>
                Delivery.Receive(m, old(Held()), RaftServer.SnapshotMsg(snapshotIndex, term, snapshot))
                  == RaftServer.Done(Held())
    {
      if index != snapshotIndex {
        return Panic;
      }
      if snapshotIndex < lastApplied {
        return Done;
      }
      lastApplied := snapshotIndex;
      data := state.data;
      lastOps := state.lastOps;
      return Done;
    }

    // After a restart; nothing saved means a fresh start.
    method RestoreState(snapshot: RaftServer.Snapshot, state: KvState, ghost m: Delivery.Service<KvState>)
      requires View() == Empty && lastApplied == 0 && m.init == Empty
      requires snapshot.Snapshot? ==> m.decode(snapshot.data) == state
      modifies this
      ensures Held() == Delivery.Restore(m, snapshot)
    {
      if snapshot.NoSnapshot? {
        return;
      }
      lastApplied := snapshot.lastIncludedIndex;
      data := state.data;
      lastOps := state.lastOps;
    }

    // Before proposing: an old call is answered from the table or turned away.
    method Precheck(client: int, call: int) returns (v: Verdict)
      ensures v.Ok? <==> client in lastOps && lastOps[client].call == call
      ensures v.Ok? ==> v.value == lastOps[client].result
      ensures v == NotYet <==> client !in lastOps || lastOps[client].call < call
    {
      if client in lastOps && call <= lastOps[client].call {
        if call == lastOps[client].call {
          return Ok(lastOps[client].result);
        }
        return WrongLeader;
      }
      return NotYet;
    }

    // When the wait is over: only a table entry for this very call is an answer.
    method Finish(client: int, call: int, startTerm: nat, currentTerm: nat) returns (v: Verdict)
      ensures v == NotYet <==> currentTerm == startTerm && (client !in lastOps || lastOps[client].call < call)
      ensures v.Ok? <==> currentTerm == startTerm && client in lastOps && lastOps[client].call == call
      ensures v.Ok? ==> v.value == lastOps[client].result
    {
      if currentTerm == startTerm && (client !in lastOps || lastOps[client].call < call) {
        return NotYet;
      }
      if currentTerm != startTerm {
        return WrongLeader;
      }
      if client !in lastOps || lastOps[client].call != call {
        return WrongLeader;
      }
      return Ok(lastOps[client].result);
    }
  }
}

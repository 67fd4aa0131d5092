/**
 A server of the sharded store (src/shardkv/server.go): the maps it changes in place and the
 loops that change them, each method tied to the function of ShardServer it carries out.
 */
module ShardNode {
  import opened Collections
  import opened KvHistory
  import opened KvStore
  import opened ShardConfig
  import opened ShardServer

  // What the waiting handler is told.
  datatype Notice = Executed | WrongGroup | Panic

  // Copy src over dst, key by key.
  method CopyInto(dst: Store, src: Store) returns (r: Store)
    ensures r == dst + src
  {
    r := dst;
    var left := src.Keys;
    while left != {}
      invariant left <= src.Keys
      invariant r == dst + (src - left)
    {
      var key := Pick(left);
      r := r[key := src[key]];
      left := left - {key};
    }
  }

  method CopyOps(src: LastOps) returns (r: LastOps)
    ensures r == src
  {
    r := map[];
    var left := src.Keys;
    while left != {}
      invariant left <= src.Keys
      invariant r == src - left
    {
      var c := Pick(left);
      r := r[c := src[c]];
      left := left - {c};
    }
  }

  // Take over the newer calls, key by key.
  method MergeOps(mine: LastOps, theirs: LastOps) returns (r: LastOps)
    ensures r == Newest(mine, theirs)
  {
    r := mine;
    var left := theirs.Keys;
    while left != {}
      invariant left <= theirs.Keys
      invariant r == Newest(mine, theirs - left)
    {
      var c := Pick(left);
      assert c in mine ==> r[c] == mine[c];
      if c !in r || r[c].call <= theirs[c].call {
        r := r[c := theirs[c]];
      }
      left := left - {c};
    }
  }

  class ShardKV {
    const gid: int
    var data: Store
    var lastOps: LastOps
    var lastApplied: nat
    var config: Config
    var myShards: set<nat>
    var dataForMigration: Parking
    var shardDataReqs: map<nat, nat>
    var gcList: set<(nat, nat)>

    function View(): Group
      reads this
    {
      Group(gid, config, data, lastOps, myShards, dataForMigration, shardDataReqs, gcList)
    }

    ghost predicate Valid()
      reads this
    {
      |config.shards| == NSHARDS
    }

    constructor (gid: int)
      ensures Valid() && View() == Fresh(gid) && lastApplied == 0
    {
      this.gid := gid;
      data, lastOps, lastApplied := map[], map[], 0;
      config := FirstConfig();
      myShards, dataForMigration, shardDataReqs, gcList := {}, map[], map[], {};
    }

    // ---------------------------------------------------------------------------------------
    // Configurations
    // ---------------------------------------------------------------------------------------

    // Move the keys of a lost shard out of the data.
    method TakeOutShard(shard: nat) returns (moved: Store)
      modifies `data
      ensures moved == ShardData(old(data), shard) && data == OtherData(old(data), {shard})
    {
      moved := map[];
      var all := data;
      var left := data.Keys;
      while left != {}
        invariant left <= all.Keys
        invariant moved == map key | key in all && key !in left && KeyShard(key) == shard :: all[key]
        invariant data == map key | key in all && (key in left || KeyShard(key) != shard) :: all[key]
      {
        var key := Pick(left);
        if KeyShard(key) == shard {
          moved := moved[key := data[key]];
          data := data - {key};
        }
        left := left - {key};
      }
    }

    // A shard this group did not serve before: it has to be fetched, or in the first
    // configuration is simply served.
    method GainShard(i: nat, ghost x: Group, ghost gained: set<nat>)
      requires x.config == config && shardDataReqs == ReqsWith(x, gained) && myShards == MineWith(x, gained)
      modifies `shardDataReqs, `myShards
      ensures shardDataReqs == ReqsWith(x, gained + {i}) && myShards == MineWith(x, gained + {i})
    {
      AskForNext(x.reqs, gained, i, config.num);
      if config.num != 0 {
        shardDataReqs := shardDataReqs[i := config.num];
      } else {
        myShards := myShards + {i};
      }
    }

    // Note what the new configuration takes away and what it brings.
    method CompareShards(newConfig: Config) returns (lostShards: seq<nat>)
      requires Valid() && |newConfig.shards| == NSHARDS
      modifies `shardDataReqs, `myShards
      ensures SetOf(lostShards) == Lost(old(View()), newConfig)
      ensures forall j, k :: 0 <= j < k < |lostShards| ==> lostShards[j] < lostShards[k]
      ensures shardDataReqs == ReqsWith(old(View()), Gained(old(View()), newConfig))
      ensures myShards == MineWith(old(View()), Gained(old(View()), newConfig))
    {
      lostShards := [];
      ghost var x := View();
      ghost var lost, gained := Lost(x, newConfig), Gained(x, newConfig);
      for i := 0 to NSHARDS
        invariant Valid() && SetOf(lostShards) == UpTo(lost, i)
        invariant forall j :: 0 <= j < |lostShards| ==> lostShards[j] < i
        invariant forall j, k :: 0 <= j < k < |lostShards| ==> lostShards[j] < lostShards[k]
        invariant shardDataReqs == ReqsWith(x, UpTo(gained, i)) && myShards == MineWith(x, UpTo(gained, i))
      {
        var gid1, gid2 := config.shards[i], newConfig.shards[i];
        BelowNext(lost, i);
        BelowNext(gained, i);
        assert i in lost <==> gid1 == gid && gid2 != gid;
        assert i in gained <==> gid1 != gid && gid2 == gid;
        if gid1 != gid2 && (gid1 == gid || gid2 == gid) {
          if gid1 == gid {
            SetOfNext(lostShards, i);
            lostShards := lostShards + [i];
          } else {
            GainShard(i, x, UpTo(gained, i));
          }
        }
      }
      assert UpTo(lost, NSHARDS) == lost && UpTo(gained, NSHARDS) == gained;
    }

    method ExecApplyConfig(newConfig: Config)
      requires Valid() && |newConfig.shards| == NSHARDS
      modifies `data, `config, `myShards, `dataForMigration, `shardDataReqs
      ensures Valid() && View() == ApplyConfig(old(View()), newConfig)
    {
      if newConfig.num <= config.num {
        return;
      }
      var oldConfig := config;
      var lostShards := CompareShards(newConfig);
      ParkLost(lostShards, oldConfig.num);
      config := newConfig;
    }

    // Stop serving the lost shards and park their data under the old number.
    method ParkLost(lostShards: seq<nat>, num: nat)
      requires forall j, k :: 0 <= j < k < |lostShards| ==> lostShards[j] < lostShards[k]
      modifies `data, `myShards, `dataForMigration
      ensures myShards == old(myShards) - SetOf(lostShards)
      ensures data == OtherData(old(data), SetOf(lostShards))
      ensures dataForMigration == old(dataForMigration) + ParkedFrom(old(data), SetOf(lostShards), num)
    {
      ghost var data0, parked0, mine0 := data, dataForMigration, myShards;
      for k := 0 to |lostShards|
        invariant myShards == mine0 - SetOf(lostShards[..k])
        invariant data == OtherData(data0, SetOf(lostShards[..k]))
        invariant dataForMigration == parked0 + ParkedFrom(data0, SetOf(lostShards[..k]), num)
      {
        var shard := lostShards[k];
        assert lostShards[..k + 1] == lostShards[..k] + [shard];
        SetOfNext(lostShards[..k], shard);
        ParkOneMore(data0, parked0, SetOf(lostShards[..k]), shard, num);
        myShards := myShards - {shard};
        var moved := TakeOutShard(shard);
        dataForMigration := dataForMigration[(num, shard) := moved];
      }
      assert lostShards[..|lostShards|] == lostShards;
    }

    // ---------------------------------------------------------------------------------------
    // Migration
    // ---------------------------------------------------------------------------------------

    method MigrateShard(isLeader: bool, num: nat, shard: nat) returns (reply: Option<ShardReply>)
      ensures reply.Some? <==> isLeader && Ready(View(), num, shard)
      ensures reply.Some? ==> reply.value == Answers(View(), num, shard)
    {
      if !isLeader {
        return None;
      }
      if num > config.num {
        return None;
      }
      if (num, shard) !in dataForMigration {
        return None;
      }
      var copy := CopyInto(map[], dataForMigration[(num, shard)]);
      var ops := CopyOps(lastOps);
      return Some(ShardReply(num, shard, copy, ops));
    }

    method ExecMigrationDataSync(r: ShardReply)
      modifies `data, `lastOps, `myShards, `shardDataReqs, `gcList
      ensures View() == InstallShard(old(View()), r)
    {
      if r.num != config.num - 1 {
        return;
      }
      if r.shard !in myShards {
        myShards := myShards + {r.shard};
        data := CopyInto(data, r.data);
        lastOps := MergeOps(lastOps, r.lastOps);
      }
      if r.shard in shardDataReqs {
        shardDataReqs := shardDataReqs - {r.shard};
        gcList := gcList + {(r.num, r.shard)};
      }
    }

    method ExecGC(num: nat, shard: nat)
      modifies `dataForMigration
      ensures View() == CollectShard(old(View()), num, shard)
    {
      if (num, shard) !in dataForMigration {
        assert dataForMigration == dataForMigration - {(num, shard)};
        return;
      }
      dataForMigration := dataForMigration - {(num, shard)};
    }

    // ---------------------------------------------------------------------------------------
    // Committed commands
    // ---------------------------------------------------------------------------------------

    method ExecOperation(op: Op) returns (notice: Notice)
      modifies `data, `lastOps
      ensures View() == ExecOp(old(View()), op)
      ensures notice == if !Duplicate(old(View()), op) && KeyShard(op.key) !in myShards then WrongGroup else Executed
    {
      if op.client in lastOps && lastOps[op.client].call >= op.call {
        return Executed;
      }
      if KeyShard(op.key) !in myShards {
        return WrongGroup;
      }
      var result := "";
      match op.kind {
        case Get =>
          if op.key in data {
            result := data[op.key];
          }
        case Put =>
          data := data[op.key := op.value];
        case Append =>
          var value := if op.key in data then data[op.key] else "";
          data := data[op.key := value + op.value];
      }
      lastOps := lastOps[op.client := LastOperation(op.call, result)];
      return Executed;
    }

    // The next command of the log; one that is not the next is a panic and changes nothing.
    method ExecCommand(command: Command, index: int) returns (notice: Notice)
      requires Valid() && Shaped(View(), command)
      modifies this
      ensures notice == Panic <==> index != old(lastApplied) + 1
      ensures notice == Panic ==> View() == old(View()) && lastApplied == old(lastApplied)
      ensures notice != Panic ==> Valid() && View() == Exec(old(View()), command) && lastApplied == index
      ensures notice == WrongGroup <==>
                index == old(lastApplied) + 1 && command.ClientOp? && !Duplicate(old(View()), command.op)
                && KeyShard(command.op.key) !in old(myShards)
    {
      if lastApplied + 1 != index {
        return Panic;
      }
      lastApplied := lastApplied + 1;
      notice := Executed;
      match command {
        case NewConfig(c) => ExecApplyConfig(c);
        case Install(r) => ExecMigrationDataSync(r);
        case Collect(num, shard) => ExecGC(num, shard);
        case ClientOp(op) => notice := ExecOperation(op);
      }
    }
  }

  // What is asked for, and what is served, once these shards have been gained.
  ghost function ReqsWith(x: Group, gained: set<nat>): map<nat, nat> {
    if x.config.num == 0 then x.reqs else x.reqs + AskFor(gained, x.config.num)
  }

  ghost function MineWith(x: Group, gained: set<nat>): set<nat> {
    if x.config.num == 0 then x.mine + gained else x.mine
  }

  function SetOf(s: seq<nat>): set<nat> {
    set x | x in s
  }

  lemma SetOfNext(s: seq<nat>, x: nat)
    ensures SetOf(s + [x]) == SetOf(s) + {x}
  {
  }

  function UpTo(s: set<nat>, n: nat): set<nat> {
    set x | x in s && x < n
  }

  lemma BelowNext(s: set<nat>, n: nat)
    ensures UpTo(s, n + 1) == UpTo(s, n) + if n in s then {n} else {}
  {
  }

  lemma AskForNext(reqs: map<nat, nat>, shards: set<nat>, s: nat, num: nat)
    ensures (reqs + AskFor(shards, num))[s := num] == reqs + AskFor(shards + {s}, num)
  {
  }

  lemma ParkOneMore(data: Store, parked: Parking, done: set<nat>, shard: nat, num: nat)
    requires shard !in done
    ensures OtherData(OtherData(data, done), {shard}) == OtherData(data, done + {shard})
    ensures ShardData(OtherData(data, done), shard) == ShardData(data, shard)
    ensures (parked + ParkedFrom(data, done, num))[(num, shard) := ShardData(data, shard)]
            == parked + ParkedFrom(data, done + {shard}, num)
  {
    OtherDataNext(data, done, shard);
    OtherShardData(data, done, shard);
    ParkedFromNext(data, done, shard, num);
    ParkedMore(parked, ParkedFrom(data, done, num), (num, shard), ShardData(data, shard));
  }

  lemma OtherDataNext(data: Store, done: set<nat>, shard: nat)
    ensures OtherData(OtherData(data, done), {shard}) == OtherData(data, done + {shard})
  {
  }

  lemma OtherShardData(data: Store, done: set<nat>, shard: nat)
    requires shard !in done
    ensures ShardData(OtherData(data, done), shard) == ShardData(data, shard)
  {
  }

  lemma ParkedMore(a: Parking, b: Parking, k: (nat, nat), data: Store)
    ensures (a + b)[k := data] == a + b[k := data]
  {
  }

  lemma ParkedFromNext(data: Store, done: set<nat>, shard: nat, num: nat)
    ensures ParkedFrom(data, done + {shard}, num) == ParkedFrom(data, done, num)[(num, shard) := ShardData(data, shard)]
  {
  }
}

/**
 The replicated state of one group of the sharded store (src/shardkv/server.go) and what each
 committed command does to it, as functions.
 */
module ShardServer {
  import opened KvHistory
  import opened KvStore
  import opened ShardConfig

  function KeyShard(key: string): (s: nat)
    ensures s < NSHARDS
  {
    (if |key| > 0 then key[0] as int else 0) % NSHARDS
  }

  // What an old owner answers to a request for a shard.
  datatype ShardReply = ShardReply(num: nat, shard: nat, data: Store, lastOps: LastOps)

  datatype Command =
    | ClientOp(op: Op)
    | NewConfig(config: Config)
    | Install(reply: ShardReply)
    | Collect(num: nat, shard: nat)

  // Shards of an old configuration, by configuration number and shard.
  type Parking = map<(nat, nat), Store>

  datatype Group = Group(
    gid: int,
    config: Config,
    data: Store,
    lastOps: LastOps,
    mine: set<nat>,
    parked: Parking,
    reqs: map<nat, nat>,
    gc: set<(nat, nat)>)

  function Fresh(gid: int): Group {
    Group(gid, FirstConfig(), map[], map[], {}, map[], map[], {})
  }

  // The keys of one shard.
  function ShardData(data: Store, shard: nat): Store {
    map key | key in data && KeyShard(key) == shard :: data[key]
  }

  // The keys of the other shards.
  function OtherData(data: Store, shards: set<nat>): Store {
    map key | key in data && KeyShard(key) !in shards :: data[key]
  }

  // ---------------------------------------------------------------------------------------
  // Client operations
  // ---------------------------------------------------------------------------------------

  predicate Duplicate(x: Group, op: Op) {
    op.client in x.lastOps && x.lastOps[op.client].call >= op.call
  }

  // The operation is executed: not a duplicate, and its shard is served here.
  predicate Runs(x: Group, op: Op) {
    !Duplicate(x, op) && KeyShard(op.key) in x.mine
  }

  function ExecOp(x: Group, op: Op): Group {
    if Runs(x, op) then
      x.(data := Effect(x.data, op), lastOps := x.lastOps[op.client := LastOperation(op.call, Answer(x.data, op))])
    else x
  }

  // ---------------------------------------------------------------------------------------
  // Configurations
  // ---------------------------------------------------------------------------------------

  function Lost(x: Group, c: Config): set<nat>
    requires |x.config.shards| == NSHARDS && |c.shards| == NSHARDS
  {
    set s: nat | s < NSHARDS && x.config.shards[s] == x.gid && c.shards[s] != x.gid
  }

  function Gained(x: Group, c: Config): set<nat>
    requires |x.config.shards| == NSHARDS && |c.shards| == NSHARDS
  {
    set s: nat | s < NSHARDS && x.config.shards[s] != x.gid && c.shards[s] == x.gid
  }

  // Requests for the shards, as owned in configuration num.
  function AskFor(shards: set<nat>, num: nat): map<nat, nat> {
    map s | s in shards :: num
  }

  function ParkedFrom(data: Store, shards: set<nat>, num: nat): Parking {
    map s | s in shards :: (num, s) := ShardData(data, s)
  }

  // Lost shards are parked with their data under the old number.  Gained shards are asked for,
  // except that in configuration 1 they start empty.
  function ApplyConfig(x: Group, c: Config): Group
    requires |x.config.shards| == NSHARDS && |c.shards| == NSHARDS
  {
    if c.num <= x.config.num then x
    else
      var lost, gained, was := Lost(x, c), Gained(x, c), x.config.num;
      x.(config := c,
         mine := (if was == 0 then x.mine + gained else x.mine) - lost,
         reqs := if was == 0 then x.reqs else x.reqs + AskFor(gained, was),
         data := OtherData(x.data, lost),
         parked := x.parked + ParkedFrom(x.data, lost, was))
  }

  // ---------------------------------------------------------------------------------------
  // Migration
  // ---------------------------------------------------------------------------------------

  // The newer call of each client, the second table's on a tie.
  function Newest(a: LastOps, b: LastOps): LastOps {
    map c | c in a.Keys + b.Keys :: if c in b && (c !in a || a[c].call <= b[c].call) then b[c] else a[c]
  }

  // The answer of an old owner, when it has the shard ready.
  predicate Ready(x: Group, num: nat, shard: nat) {
    num <= x.config.num && (num, shard) in x.parked
  }

  function Answers(x: Group, num: nat, shard: nat): ShardReply
    requires Ready(x, num, shard)
  {
    ShardReply(num, shard, x.parked[(num, shard)], x.lastOps)
  }

  function InstallShard(x: Group, r: ShardReply): Group {
    if r.num + 1 != x.config.num then x
    else
      var y := if r.shard in x.mine then x
               else x.(mine := x.mine + {r.shard}, data := x.data + r.data, lastOps := Newest(x.lastOps, r.lastOps));
      if r.shard in y.reqs then y.(reqs := y.reqs - {r.shard}, gc := y.gc + {(r.num, r.shard)}) else y
  }

  function CollectShard(x: Group, num: nat, shard: nat): Group {
    x.(parked := x.parked - {(num, shard)})
  }

  ghost predicate Shaped(x: Group, command: Command) {
    |x.config.shards| == NSHARDS && (command.NewConfig? ==> |command.config.shards| == NSHARDS)
  }

  function Exec(x: Group, command: Command): Group
    requires Shaped(x, command)
  {
    match command
    case ClientOp(op) => ExecOp(x, op)
    case NewConfig(config) => ApplyConfig(x, config)
    case Install(reply) => InstallShard(x, reply)
    case Collect(num, shard) => CollectShard(x, num, shard)
  }
}

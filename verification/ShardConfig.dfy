/**
 The configurations of the sharded store (src/shardctrler/common.go), shared by the controller
 that makes them and the groups that follow them.
 */
module ShardConfig {
  const NSHARDS: nat := 10

  // The servers of each group.
  type Servers = map<int, seq<string>>

  // Which group owns each shard; group 0 stands for none.
  datatype Config = Config(num: nat, shards: seq<int>, groups: Servers)

  // The configuration every controller and every group starts with.
  function FirstConfig(): Config {
    Config(0, seq(NSHARDS, _ => 0), map[])
  }

  // Configurations are numbered from 0 on, and the first one assigns no shard.
  ghost predicate Numbered(configs: seq<Config>) {
    && configs != [] && configs[0] == FirstConfig()
    && forall n :: 0 <= n < |configs| ==> configs[n].num == n && |configs[n].shards| == NSHARDS
  }

  // The configuration asked for; the latest for -1 and for numbers beyond it.
  function AnswerTo(configs: seq<Config>, num: int): Config
    requires configs != [] && num >= -1
  {
    configs[if num == -1 || num >= |configs| then |configs| - 1 else num]
  }
}

/**
 The groups of the sharded store together (src/shardkv/server.go, src/shardkv/client.go): a
 state machine in which every group commits commands one at a time, and every proposal,
 migration answer and garbage-collection request may be computed by a server that lags
 behind, from any state its group has been in.
 */
module ShardCluster {
  import opened KvHistory
  import opened KvStore
  import opened KvClients
  import opened ShardConfig
  import opened ShardServer

  // The configurations the controller hands out, by number.
  type Plan = nat -> Config

  ghost predicate PlanOk(plan: Plan) {
    plan(0) == FirstConfig() && forall n: nat :: plan(n).num == n && |plan(n).shards| == NSHARDS
  }

  // The plan that a controller's configurations make.
  ghost function PlanOf(configs: seq<Config>): Plan
    requires Numbered(configs)
  {
    (n: nat) => if n < |configs| then configs[n] else configs[|configs| - 1].(num := n)
  }

  ghost function Owner(plan: Plan, n: nat, s: nat): int
    requires PlanOk(plan) && s < NSHARDS
  {
    plan(n).shards[s]
  }

  // Where a shard's current contents are: in the group that serves it, or parked by its last
  // owner under the number of the configuration it was owned in.
  datatype Token = NoHolder | Serving(gid: int) | Parked(gid: int, num: nat)

  // Each group's states, oldest first, and the clients.  The log of executed calls and the tokens
  // record the run; no step reads them.
  datatype Cluster = Cluster(
    traces: map<int, seq<Group>>,
    clients: Clients,
    log: seq<Record>,
    token: seq<Token>)

  datatype Step =
    | Start(op: Op)
    | RunOp(gid: int, op: Op)
    | Reconfigure(gid: int, seen: nat)
    | Migrate(gid: int, seen: nat, shard: nat, from: int, ready: nat)
    | CollectParked(gid: int, asker: int, seen: nat, num: nat, shard: nat)
    | Reply(client: int, call: int, gid: int, seen: nat)

  ghost predicate Init(plan: Plan, c: Cluster) {
    && c.traces.Keys != {} && 0 !in c.traces
    && (forall g :: g in c.traces ==> c.traces[g] == [Fresh(g)])
    && (forall n: nat, s: nat :: s < NSHARDS && PlanOk(plan) ==>
        Owner(plan, n, s) == 0 || Owner(plan, n, s) in c.traces)
    && c.clients == NoClients && c.log == []
    && c.token == seq(NSHARDS, _ => NoHolder)
  }

  // Group g has been in state number k.
  predicate Seen(c: Cluster, g: int, k: nat) {
    g in c.traces && k < |c.traces[g]|
  }

  predicate Alive(c: Cluster, g: int) {
    g in c.traces && c.traces[g] != []
  }

  function Now(c: Cluster, g: int): Group
    requires Alive(c, g)
  {
    c.traces[g][|c.traces[g]| - 1]
  }

  ghost predicate Enabled(plan: Plan, c: Cluster, step: Step)
    requires PlanOk(plan)
  {
    match step
    case Start(op) => MayStart(c.clients, op)
    // A request may be delivered late, more than once and to any group.
    case RunOp(gid, op) =>
      Alive(c, gid) && Started(c.clients, op)
    // The leader asks for the next configuration when nothing is pending in the state it sees.
    case Reconfigure(gid, seen) =>
      Seen(c, gid, seen) && c.traces[gid][seen].reqs == map[]
    // A pending request in a state of one group meets a state of the old owner that is ready.
    case Migrate(gid, seen, shard, from, ready) =>
      && Seen(c, gid, seen) && Seen(c, from, ready) && shard < NSHARDS
      && shard in c.traces[gid][seen].reqs
      && from == Owner(plan, c.traces[gid][seen].reqs[shard], shard)
      && Ready(c.traces[from][ready], c.traces[gid][seen].reqs[shard], shard)
    // The new owner asks the old one to drop a shard that is on its list.
    case CollectParked(gid, asker, seen, num, shard) =>
      && Alive(c, gid) && Seen(c, asker, seen) && shard < NSHARDS
      && (num, shard) in c.traces[asker][seen].gc && gid == Owner(plan, num, shard)
    // A server of the group, possibly behind, answers.
    case Reply(client, call, gid, seen) =>
      Seen(c, gid, seen) && MayRespond(c.clients, (client, call), c.traces[gid][seen].lastOps)
  }

  // The group that commits, and the command.
  predicate Commits(step: Step) {
    step.RunOp? || step.Reconfigure? || step.Migrate? || step.CollectParked?
  }

  ghost function CommandOf(plan: Plan, c: Cluster, step: Step): Command
    requires PlanOk(plan) && Enabled(plan, c, step) && Commits(step)
  {
    match step
    case RunOp(_, op) => ClientOp(op)
    case Reconfigure(gid, seen) =>
      NewConfig(plan(c.traces[gid][seen].config.num + 1))
    case Migrate(gid, seen, shard, from, ready) =>
      Install(Answers(c.traces[from][ready], c.traces[gid][seen].reqs[shard], shard))
    case CollectParked(_, _, _, num, shard) => Collect(num, shard)
  }

  // A group that gains or gives up a shard moves its token.
  function NextToken(t: Token, x: Group, y: Group, s: nat): Token {
    if s in y.mine && s !in x.mine then Serving(x.gid)
    else if s in x.mine && s !in y.mine then Parked(x.gid, x.config.num)
    else t
  }

  function NextLog(c: Cluster, x: Group, command: Command): seq<Record> {
    if command.ClientOp? && Runs(x, command.op) && Started(c.clients, command.op) then
      c.log + [NewRecord(c.clients, command.op, Answer(x.data, command.op))]
    else c.log
  }

  ghost function Commit(c: Cluster, g: int, command: Command): Cluster
    requires Alive(c, g) && Shaped(Now(c, g), command)
  {
    var x := Now(c, g);
    var y := Exec(x, command);
    c.(traces := c.traces[g := c.traces[g] + [y]],
       clients := Tick(c.clients),
       log := NextLog(c, x, command),
       token := seq(|c.token|, s requires 0 <= s < |c.token| => NextToken(c.token[s], x, y, s)))
  }

  ghost function Next(plan: Plan, c: Cluster, step: Step): Cluster
    requires PlanOk(plan) && Enabled(plan, c, step)
    requires Commits(step) ==> Alive(c, step.gid) && Shaped(Now(c, step.gid), CommandOf(plan, c, step))
  {
    match step
    case Start(op) => c.(clients := StartCall(c.clients, op))
    case Reply(client, call, gid, seen) =>
      c.(clients := Respond(c.clients, (client, call), c.traces[gid][seen].lastOps))
    case _ => Commit(c, step.gid, CommandOf(plan, c, step))
  }
}

/**
 The shard controller on its Raft cluster (src/shardctrler/server.go, src/raft/raft.go): whichever
 server answers a query, and however far behind it is, the configurations handed out are those of
 one plan, which is the plan the groups of the sharded store follow.
 */
module CtrlOverRaft {
  import opened ShardConfig
  import opened ShardCtrler
  import opened ShardCluster
  import RaftServer
  import RaftService
  import ShardTheorems
  import Delivery

  datatype Coding = Coding(parse: string -> Call, encode: Ctrl -> string, decode: string -> Ctrl)

  ghost function ServiceOf(k: Coding): Delivery.Service<Ctrl> {
    Delivery.Service(FirstCtrl(), (s: Ctrl, c: RaftServer.Command) => CtrlNext(s, k.parse(c)), k.encode, k.decode)
  }

  // The controller after the first n commands of its log.
  ghost function CtrlAt(k: Coding, log: seq<string>, n: nat): Ctrl {
    Delivery.Fold(ServiceOf(k), RaftService.TruthOf(log), n)
  }

  lemma {:induction false} ConfigsAt(k: Coding, log: seq<string>, m: nat, n: nat)
    requires m <= n
    ensures Numbered(CtrlAt(k, log, m).configs) && CtrlAt(k, log, m).configs <= CtrlAt(k, log, n).configs
    ensures Numbered(CtrlAt(k, log, n).configs)
    decreases n
  {
    if m < n {
      ConfigsAt(k, log, m, n - 1);
      ConfigsGrow(CtrlAt(k, log, n - 1), k.parse(RaftService.TruthOf(log)(n)));
    } else if n > 0 {
      ConfigsAt(k, log, n - 1, n - 1);
      ConfigsGrow(CtrlAt(k, log, n - 1), k.parse(RaftService.TruthOf(log)(n)));
    }
  }

  // The configurations that the whole run's commands make.
  ghost function FinalConfigs(k: Coding, run: seq<RaftService.Served<Ctrl>>): seq<Config>
    requires run != []
  {
    var log := run[|run| - 1].log;
    CtrlAt(k, log, |log|).configs
  }

  // Every query answered by any server at any time, in any run of the controller's peers.
  lemma ServersAnswerFromOnePlan(k: Coding, n: nat, run: seq<RaftService.Served<Ctrl>>,
                                 steps: seq<RaftService.ServedStep>,
                                 x: nat, i: nat, num: int)
    requires RaftService.IsServedRun(ServiceOf(k), n, run, steps) && x < |run| && i < run[x].raft.n && num >= -1
    ensures RaftService.Sized(run[x]) && Numbered(FinalConfigs(k, run)) && PlanOk(PlanOf(FinalConfigs(k, run)))
    ensures var configs := run[x].replicas[i].state.configs;
            && Numbered(configs)
            && var answer := AnswerTo(configs, num);
               && answer == PlanOf(FinalConfigs(k, run))(answer.num)
               && (answer.num == num || answer.num == |configs| - 1)
  {
    RaftService.ServicesFollowOneLog(ServiceOf(k), n, run, steps, x, i);
    var log, r := run[|run| - 1].log, run[x].replicas[i];
    ConfigsAt(k, log, r.lastApplied, |log|);
    ShardTheorems.AnswersFollowPlan(r.state.configs, FinalConfigs(k, run), num);
  }
}

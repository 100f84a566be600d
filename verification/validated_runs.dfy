/** What a plan that passes validation guarantees of every run of the executor. */
module ValidatedRuns {
  import opened Tables
  import opened Machine
  import opened ExecutorRuns
  import opened ExecutorTheorems
  import opened ExecutorCounts
  import opened Plans
  import opened StageOrder

  /** The machine runs plan `name` with the stages the config declares. */
  ghost predicate RunsPlan(cfg: Machine.Config, name: string, fleet: Fleet, stages: seq<Refs>) {
    && name in cfg.plans
    && |cfg.plans[name].stages| == |stages|
    && forall i | 0 <= i < |stages| :: cfg.plans[name].stages[i].clients == Resolved(fleet, stages[i])
  }

  /** Every plan of the machine passed the stage checks. */
  ghost predicate Validated(cfg: Machine.Config, fleet: Fleet, plans: map<string, seq<Refs>>) {
    forall name | name in cfg.plans :: name in plans && RunsPlan(cfg, name, fleet, plans[name]) && StagesFit(fleet, plans[name])
  }

  /** Validation is what the bound on repeated commands asks for. */
  lemma ValidatedMeansOneStage(cfg: Machine.Config, fleet: Fleet, plans: map<string, seq<Refs>>)
    requires Validated(cfg, fleet, plans)
    ensures OneStagePerClient(cfg)
  {
    forall plan, j: nat, k: nat, c |
      plan in cfg.plans && j < k < |cfg.plans[plan].stages| && c in cfg.plans[plan].stages[j].clients
      ensures c !in cfg.plans[plan].stages[k].clients {
      var ls := Lists(fleet, plans[plan]);
      assert RunsPlan(cfg, plan, fleet, plans[plan]);
      assert c in ls[j];
    }
  }

  /** When `c` depends on `d` and both are in the plan, `d` is commanded only once
      `c`'s stage is recorded complete or skipped, in every run, across any
      crashes, power cuts and resumes. */
  lemma DependentsGoDownFirst(cfg: Machine.Config, fleet: Fleet, plans: map<string, seq<Refs>>,
                              ss: seq<State>, ls: seq<Label>, i: nat,
                              id: SeqId, stage: nat, c: ClientDef, d: string, n: IntentId, own: nat)
    requires Validated(cfg, fleet, plans) && IsRun(cfg, ss, ls) && i < |ls|
    requires Emits(ss[i], ss[i + 1], Command(id, stage, d, n))
    requires c in fleet && d in c.dependsOn
    requires var plan := PlanOf(ss[i], id);
      plan in plans && own < |plans[plan]| && c.name in Resolved(fleet, plans[plan][own])
    ensures own < stage && Recorded(ss[i].disk.Current(), id, own)
  {
    CommandSituation(cfg, ss, ls, i, id, stage, d, n);
    var plan := PlanOf(ss[i], id);
    assert RunsPlan(cfg, plan, fleet, plans[plan]);
    var lists := Lists(fleet, plans[plan]);
    assert c.name in lists[own] && d in lists[stage];
    ShutdownRespectsOrder(cfg, ss, ls, i, id, stage, d, n, own);
  }

  /** The plan a sequence was started for. */
  function PlanOf(s: State, id: SeqId): string {
    if id in s.disk.Current().seqs then s.disk.Current().seqs[id].plan else ""
  }
}

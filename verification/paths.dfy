/** Stretches of a run within one process. */
module Paths {
  import opened Options
  import opened Machine

  function Walk(cfg: Config, s: State, ls: seq<Label>): Option<State> {
    if ls == [] then Some(s)
    else
      match Walk(cfg, s, ls[..|ls| - 1])
      case None => None
      case Some(t) => Next(cfg, t, ls[|ls| - 1])
  }

  ghost predicate Path(cfg: Config, s: State, ls: seq<Label>, t: State) {
    Walk(cfg, s, ls) == Some(t) && forall l | l in ls :: OfRun(l)
  }

  /** The machine can go from `s` to `t` by steps of the running sequence. */
  ghost predicate Leads(cfg: Config, s: State, t: State) {
    exists ls :: Path(cfg, s, ls, t)
  }

  lemma LeadsNowhere(cfg: Config, s: State)
    ensures Leads(cfg, s, s)
  {
    assert Path(cfg, s, [], s);
  }

  lemma LeadsOn(cfg: Config, s: State, t: State, l: Label, u: State)
    requires Leads(cfg, s, t) && StepOf(cfg, t, l, u) && OfRun(l)
    ensures Leads(cfg, s, u)
  {
    var ls :| Path(cfg, s, ls, t);
    assert (ls + [l])[..|ls|] == ls;
    assert Path(cfg, s, ls + [l], u);
  }

  lemma {:induction false} PathLeads(cfg: Config, s: State, t: State, ls: seq<Label>, u: State)
    requires Leads(cfg, s, t) && Path(cfg, t, ls, u)
    ensures Leads(cfg, s, u)
  {
    if ls != [] {
      var shorter := ls[..|ls| - 1];
      var v := Walk(cfg, t, shorter).value;
      assert Path(cfg, t, shorter, v);
      PathLeads(cfg, s, t, shorter, v);
      LeadsOn(cfg, s, v, ls[|ls| - 1], u);
    }
  }

  lemma LeadsThrough(cfg: Config, s: State, t: State, u: State)
    requires Leads(cfg, s, t) && Leads(cfg, t, u)
    ensures Leads(cfg, s, u)
  {
    var ls :| Path(cfg, t, ls, u);
    PathLeads(cfg, s, t, ls, u);
  }

  lemma LastStep(cfg: Config, s: State, path: seq<Label>, t: State) returns (v: State)
    requires Path(cfg, s, path, t) && path != []
    ensures Path(cfg, s, path[..|path| - 1], v) && StepOf(cfg, v, path[|path| - 1], t)
  {
    v := Walk(cfg, s, path[..|path| - 1]).value;
  }

  lemma StepExtendsRun(cfg: Config, ss: seq<State>, ls: seq<Label>, l: Label, t: State)
    requires IsRun(cfg, ss, ls) && StepOf(cfg, ss[|ls|], l, t)
    ensures IsRun(cfg, ss + [t], ls + [l])
  {
    forall i | 0 <= i < |ls + [l]| ensures StepAt(cfg, ss + [t], ls + [l], i) {
      if i < |ls| {
        assert StepAt(cfg, ss, ls, i);
      }
    }
  }

  /** Whatever goes on within one process continues a run of the machine, so what
      is proved of every run holds of it. */
  lemma {:induction false} PathContinuesRun(cfg: Config, ss: seq<State>, ls: seq<Label>, path: seq<Label>, t: State)
    returns (ss': seq<State>, ls': seq<Label>)
    requires IsRun(cfg, ss, ls) && Path(cfg, ss[|ls|], path, t)
    ensures IsRun(cfg, ss', ls') && ls' == ls + path && ss <= ss' && ss'[|ls'|] == t
  {
    if path == [] {
      ss', ls' := ss, ls;
    } else {
      var shorter, l := path[..|path| - 1], path[|path| - 1];
      var v := LastStep(cfg, ss[|ls|], path, t);
      var ss1, ls1 := PathContinuesRun(cfg, ss, ls, shorter, v);
      StepExtendsRun(cfg, ss1, ls1, l, t);
      ss', ls' := ss1 + [t], ls1 + [l];
      assert ls + shorter + [l] == ls + path;
    }
  }
}

/** How states of one run relate: what only grows, what is never lost, and what
    the machine was doing when an event appeared. */
module ExecutorRuns {
  import opened Tables
  import opened Disks
  import opened Machine
  import opened ExecutorInvariant
  import opened ExecutorInduction

  ghost predicate Emits(s: State, s': State, e: Event) {
    s'.trace == s.trace + [e]
  }

  // ---------------------------------------------------------------------
  // One step.

  lemma MainEvents(p: Plan, db: Db, a: Active, o: Outcome)
    requires MainStep(p, db, a, o).Some?
    ensures var es := MainStep(p, db, a, o).value.events;
      || es == []
      || (es == [PostIssued(a.id)] && a.pc.PostIssue?)
      || (es == [PostSaved(a.id)] && a.pc.PostSave?)
      || (es == [AbortEntered(a.id)] && a.pc.AbortSave?)
      || (es == [WakeSent(a.id)] && a.pc.InTurn? && o.SendWake?)
      || (InLoop(a.pc) && es == [StageRecorded(a.id, a.pc.i)])
  {
  }

  /** Flushed facts and the trace survive every step; committed facts survive
      every step but a power cut. */
  lemma StepMoves(cfg: Config, s: State, l: Label, s': State)
    requires Inv(cfg, s) && StepOf(cfg, s, l, s')
    ensures Inv(cfg, s')
    ensures Advances(s.disk.Durable(), s'.disk.Durable())
    ensures !l.Cut? ==> Advances(s.disk.Current(), s'.disk.Current())
    ensures s.trace <= s'.trace
  {
    StepKeepsInv(cfg, s, l, s');
    if OfRun(l) {
      RunFits(cfg, s, l);
      WriteMovesOn(s.disk, RunEffect(cfg, s, l).value.op);
    } else {
      EnvMoves(cfg, s, l);
    }
  }

  lemma EnvMoves(cfg: Config, s: State, l: Label)
    requires Inv(cfg, s) && !OfRun(l) && EnvNext(cfg, s, l).Some?
    ensures var s' := EnvNext(cfg, s, l).value;
      && Advances(s.disk.Durable(), s'.disk.Durable())
      && (!l.Cut? ==> Advances(s.disk.Current(), s'.disk.Current()))
      && s.trace <= s'.trace
  {
    assert Advances(s.disk.Durable(), s.disk.Durable());
    assert Advances(s.disk.Current(), s.disk.Current());
    if l.Cut? {
      PowerCutSound(s.disk, l.k);
    } else if l.RestartOrphan? {
      WriteMovesOn(s.disk, Lazy(FailOrphanedSequence(l.id)));
    }
  }

  // ---------------------------------------------------------------------
  // Whole runs.

  lemma StepMovesAt(cfg: Config, ss: seq<State>, ls: seq<Label>, i: nat)
    requires IsRun(cfg, ss, ls) && i < |ls|
    ensures Advances(ss[i].disk.Durable(), ss[i + 1].disk.Durable())
    ensures !ls[i].Cut? ==> Advances(ss[i].disk.Current(), ss[i + 1].disk.Current())
    ensures ss[i].trace <= ss[i + 1].trace
  {
    assert StepAt(cfg, ss, ls, i);
    RunInv(cfg, ss, ls, i);
    StepMoves(cfg, ss[i], ls[i], ss[i + 1]);
  }

  /** What has been flushed survives everything. */
  lemma {:induction false} FlushedSurvives(cfg: Config, ss: seq<State>, ls: seq<Label>, i: nat, j: nat)
    requires IsRun(cfg, ss, ls) && i <= j < |ss|
    ensures Advances(ss[i].disk.Durable(), ss[j].disk.Durable())
    ensures ss[i].trace <= ss[j].trace
    decreases j - i
  {
    if i == j {
      assert Advances(ss[i].disk.Durable(), ss[i].disk.Durable());
    } else {
      FlushedSurvives(cfg, ss, ls, i, j - 1);
      StepMovesAt(cfg, ss, ls, j - 1);
      AdvancesTransitive(ss[i].disk.Durable(), ss[j - 1].disk.Durable(), ss[j].disk.Durable());
    }
  }

  /** What has been committed survives everything but a power cut. */
  lemma {:induction false} CommittedSurvives(cfg: Config, ss: seq<State>, ls: seq<Label>, i: nat, j: nat)
    requires IsRun(cfg, ss, ls) && i <= j < |ss| && PowerHolds(ls, i, j)
    ensures Advances(ss[i].disk.Current(), ss[j].disk.Current())
    decreases j - i
  {
    if i == j {
      assert Advances(ss[i].disk.Current(), ss[i].disk.Current());
    } else {
      CommittedSurvives(cfg, ss, ls, i, j - 1);
      StepMovesAt(cfg, ss, ls, j - 1);
      AdvancesTransitive(ss[i].disk.Current(), ss[j - 1].disk.Current(), ss[j].disk.Current());
    }
  }

  // ---------------------------------------------------------------------
  // The situation in which each event can appear.

  lemma EnvEvents(cfg: Config, s: State, l: Label)
    requires !OfRun(l) && EnvNext(cfg, s, l).Some?
    ensures var t := EnvNext(cfg, s, l).value.trace;
      |t| == |s.trace| || (|t| == |s.trace| + 1 && (t[|s.trace|].Crashed? || t[|s.trace|].Resumed?))
  {
  }

  lemma EventSource(cfg: Config, s: State, l: Label, s': State, e: Event)
    requires StepOf(cfg, s, l, s') && Emits(s, s', e)
    requires e.Command? || e.PostIssued? || e.AbortEntered? || e.AbortAnswer? || e.StageRecorded? || e.PostSaved? || e.WakeSent?
    ensures OfRun(l) && HasPlan(cfg, s) && RunEffect(cfg, s, l).Some? && RunEffect(cfg, s, l).value.events == [e]
  {
    if OfRun(l) {
      var es := RunEffect(cfg, s, l).value.events;
      assert s.trace + es == s.trace + [e];
      assert (s.trace + es)[|s.trace|..] == es && (s.trace + [e])[|s.trace|..] == [e];
    } else {
      EnvEvents(cfg, s, l);
    }
  }

  lemma CommandSource(cfg: Config, s: State, l: Label, s': State, id: SeqId, stage: nat, c: Client, n: IntentId)
    requires StepOf(cfg, s, l, s') && Emits(s, s', Command(id, stage, c, n))
    ensures l == ClientStep(c, Send) && s.proc.Running? && s.proc.act.id == id
    ensures s.proc.act.pc.InStage? && s.proc.act.pc.i == stage
    ensures c in s.proc.act.pc.clients && s.proc.act.pc.clients[c] == Recording(n)
  {
    EventSource(cfg, s, l, s', Command(id, stage, c, n));
    if l.Main? {
      MainEvents(cfg.plans[s.proc.act.row.plan], s.disk.Current(), s.proc.act, l.o);
    }
  }

  lemma PostSource(cfg: Config, s: State, l: Label, s': State, id: SeqId)
    requires StepOf(cfg, s, l, s') && Emits(s, s', PostIssued(id))
    ensures s.proc.Running? && s.proc.act.id == id && s.proc.act.pc.PostIssue?
  {
    EventSource(cfg, s, l, s', PostIssued(id));
    if l.Main? {
      MainEvents(cfg.plans[s.proc.act.row.plan], s.disk.Current(), s.proc.act, l.o);
    }
  }

  lemma AbortSource(cfg: Config, s: State, l: Label, s': State, id: SeqId)
    requires StepOf(cfg, s, l, s') && Emits(s, s', AbortEntered(id))
    ensures s.proc.Running? && s.proc.act.id == id && s.proc.act.pc.AbortSave?
    ensures s'.proc.Running? && s'.proc.act.id == id && s'.proc.act.pc.AbortSettle?
  {
    EventSource(cfg, s, l, s', AbortEntered(id));
    if l.Main? {
      MainEvents(cfg.plans[s.proc.act.row.plan], s.disk.Current(), s.proc.act, l.o);
    }
  }

  lemma WakeSource(cfg: Config, s: State, l: Label, s': State, id: SeqId)
    requires StepOf(cfg, s, l, s') && Emits(s, s', WakeSent(id))
    ensures l == Main(SendWake) && s.proc.Running? && s.proc.act.id == id && s.proc.act.pc.InTurn? && s.proc.act.pc.tries > 0
    ensures s'.proc == Running(s.proc.act.(pc := Verifying(s.proc.act.pc.left, s.proc.act.pc.tries - 1)))
  {
    EventSource(cfg, s, l, s', WakeSent(id));
    if l.Main? {
      MainEvents(cfg.plans[s.proc.act.row.plan], s.disk.Current(), s.proc.act, l.o);
    }
  }
}

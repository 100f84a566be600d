/** What follows from how the executor is answered, whatever else happens. */
module AnswerTheorems {
  import opened Options
  import opened Tables
  import opened Machine
  import opened Answers
  import opened ExecutorRuns

  // ---------------------------------------------------------------------
  // One answer.

  /** At each place that looks outside, the answer alone, with what the operator has
      asked for, decides where the sequence goes next. */
  lemma AnswersDecide(cfg: Config, d: Drive, l: Label, d': Drive, p: Poll)
    requires Acted(cfg, d, l, d') && d.answer == Some(p)
    ensures var a, a', plan := d.state.proc.act, d'.state.proc.act, cfg.plans[d.state.proc.act.row.plan];
      var stops := !a.row.ponr && (a.abortReq || (plan.canAbort && p.abortHolds));
      && (a.pc.AbortCheck? ==> a'.pc == if stops then AbortSave else Waiting(a.pc.i))
      && (a.pc.Waiting? ==>
          && a'.pc == (if p.when || a.proceedReq then Entering(a.pc.i) else WaitAbort(a.pc.i))
          && a'.proceedReq == (p.when && a.proceedReq))
      && (a.pc.WaitAbort? ==> a'.pc == if stops then AbortSave else if p.expired then Expiring(a.pc.i) else Waiting(a.pc.i))
  {
  }

  /** The same at the gate: it is passed exactly when it is open, and left otherwise
      only for a request. */
  lemma GateDecides(cfg: Config, d: Drive, l: Label, d': Drive, p: Poll)
    requires Acted(cfg, d, l, d') && d.answer == Some(p) && d.state.proc.act.pc.AtGate?
    ensures var a, a', plan := d.state.proc.act, d'.state.proc.act, cfg.plans[d.state.proc.act.row.plan];
      if p.gate then a'.pc == InWake(plan.wakes) && a'.row.phase == Waking
      else a.abortReq && a'.pc == Finishing && a'.row.aborted
  {
  }

  /** And so whether the post-shutdown action and a wake command go out. */
  lemma AnswersSend(cfg: Config, d: Drive, l: Label, d': Drive, p: Poll)
    requires Acted(cfg, d, l, d') && d.answer == Some(p)
    ensures var a, plan := d.state.proc.act, cfg.plans[d.state.proc.act.row.plan];
      && (a.pc.PostIssue? ==> (Emits(d.state, d'.state, PostIssued(a.id)) <==> !p.dryRun))
      && (a.pc.InTurn? && a.pc.tries > plan.retries ==>
          (Emits(d.state, d'.state, WakeSent(a.id)) <==> !p.up && !p.dryRun) &&
          (p.up || p.dryRun ==> d'.state.proc.act.pc == InWake(a.pc.left)))
      && (a.pc.InTurn? && a.pc.tries <= plan.retries ==> Emits(d.state, d'.state, WakeSent(a.id)))
      && (a.pc.Verifying? ==>
          d'.state.proc.act.pc == if p.expired && a.pc.tries > 0 then InTurn(a.pc.left, a.pc.tries) else InWake(a.pc.left))
      && (a.pc.Verifying? && !p.expired ==> p.up || a.abortReq)
  {
    var s, s' := d.state, d'.state;
    assert s'.trace == s.trace ==> !Emits(s, s', PostIssued(s.proc.act.id)) && !Emits(s, s', WakeSent(s.proc.act.id)) by {
      assert |s.trace + [PostIssued(s.proc.act.id)]| == |s.trace| + 1;
      assert |s.trace + [WakeSent(s.proc.act.id)]| == |s.trace| + 1;
    }
  }

  // ---------------------------------------------------------------------
  // Dry runs.

  predicate Harmless(e: Event) {
    !e.Command? && !e.PostIssued? && !e.WakeSent?
  }

  /** From trace `t` to trace `t'` nothing was handed to a transport. */
  ghost predicate OnlyRecords(t: seq<Event>, t': seq<Event>) {
    t <= t' && forall i | |t| <= i < |t'| :: Harmless(t'[i])
  }

  /** Every answer says dry run, and no wake command has gone out in this turn. */
  ghost predicate Dry(cfg: Config, d: Drive) {
    && (d.answer.Some? ==> d.answer.value.dryRun) && (forall p | p in d.script :: p.dryRun)
    && (d.state.proc.Running? ==> FirstOfTurn(cfg, d.state.proc.act))
  }

  predicate FirstOfTurn(cfg: Config, a: Active) {
    && !a.pc.Verifying?
    && (a.pc.InTurn? && a.row.plan in cfg.plans ==> a.pc.tries > cfg.plans[a.row.plan].retries)
  }

  lemma TurnsBegin(p: Plan, db: Db, a: Active, o: Outcome)
    requires MainStep(p, db, a, o).Some? && !a.pc.Verifying?
    ensures var a' := MainStep(p, db, a, o).value.act;
      && (a'.pc.Verifying? ==> a.pc.InTurn? && o.SendWake?)
      && (a'.pc.InTurn? ==> a'.pc.tries > p.retries && a'.row == a.row)
  {
    if InLoop(a.pc) {
      LoopBeginsNone(p, db, a, o);
    }
  }

  lemma LoopBeginsNone(p: Plan, db: Db, a: Active, o: Outcome)
    requires InLoop(a.pc) && MainStep(p, db, a, o).Some?
    ensures var pc' := MainStep(p, db, a, o).value.act.pc; !pc'.Verifying? && !pc'.InTurn?
  {
  }

  lemma DryMain(cfg: Config, d: Drive, o: Outcome, d': Drive)
    requires Acted(cfg, d, Main(o), d') && Dry(cfg, d)
    ensures Dry(cfg, d') && OnlyRecords(d.state.trace, d'.state.trace)
  {
    var a, plan, db := d.state.proc.act, cfg.plans[d.state.proc.act.row.plan], d.state.disk.Current();
    TurnsBegin(plan, db, a, o);
    MainEvents(plan, db, a, o);
    DryEvents(cfg, d, o);
    assert d'.state.trace == d.state.trace + MainStep(plan, db, a, o).value.events;
  }

  lemma DryEvents(cfg: Config, d: Drive, o: Outcome)
    requires HasPlan(cfg, d.state) && Dry(cfg, d)
    requires var a := d.state.proc.act; MainStep(cfg.plans[a.row.plan], d.state.disk.Current(), a, o).Some?
    requires LeadsTo(cfg, cfg.plans[d.state.proc.act.row.plan], d.state.disk.Current(), d.state.proc.act, d.answer, Main(o))
    ensures !(d.state.proc.act.pc.InTurn? && o.SendWake?)
    ensures var a := d.state.proc.act;
      forall e | e in MainStep(cfg.plans[a.row.plan], d.state.disk.Current(), a, o).value.events :: Harmless(e)
  {
    var a := d.state.proc.act;
    MainEvents(cfg.plans[a.row.plan], d.state.disk.Current(), a, o);
  }

  lemma DryClient(cfg: Config, d: Drive, c: Client, o: ClientOutcome, d': Drive)
    requires Acted(cfg, d, ClientStep(c, o), d') && Dry(cfg, d)
    ensures Dry(cfg, d') && OnlyRecords(d.state.trace, d'.state.trace)
  {
  }

  lemma DryMove(cfg: Config, d: Drive, m: Move, d': Drive)
    requires Moved(cfg, d, m, d') && Dry(cfg, d)
    ensures Dry(cfg, d') && OnlyRecords(d.state.trace, d'.state.trace)
  {
    match m
    case Ask => assert d.script[0] in d.script && forall p | p in d.script[1..] :: p in d.script;
    case Again =>
    case Act(l) =>
      if l.Main? {
        DryMain(cfg, d, l.o, d');
      } else {
        DryClient(cfg, d, l.c, l.co, d');
      }
  }

  lemma {:induction false} DryTrip(cfg: Config, ds: seq<Drive>, ms: seq<Move>, k: nat)
    requires Trip(cfg, ds, ms) && k <= |ms| && Dry(cfg, ds[0])
    ensures Dry(cfg, ds[k]) && OnlyRecords(ds[0].state.trace, ds[k].state.trace)
  {
    if k > 0 {
      DryTrip(cfg, ds, ms, k - 1);
      assert MovedAt(cfg, ds, ms, k - 1);
      DryMove(cfg, ds[k - 1], ms[k - 1], ds[k]);
    }
  }

  /** As long as every answer says dry run, nothing is handed to a transport: no
      command, no post-shutdown action, no wake command. */
  lemma DryRunOnlyRecords(cfg: Config, d: Drive, d': Drive)
    requires Driven(cfg, d, d') && d.state.proc.Running? && FirstOfTurn(cfg, d.state.proc.act) && d.answer.None?
    ensures (forall p | p in d.script :: p.dryRun) ==> OnlyRecords(d.state.trace, d'.state.trace)
  {
    if forall p | p in d.script :: p.dryRun {
      var ds, ms :| Makes(cfg, d, d', ds, ms);
      DryTrip(cfg, ds, ms, |ms|);
    }
  }

  // ---------------------------------------------------------------------
  // The gate.

  /** At the gate, or past it because of a request, with no answer that opens it. */
  ghost predicate Shut(d: Drive) {
    && (d.answer.Some? ==> !d.answer.value.gate) && (forall p | p in d.script :: !p.gate)
    && d.state.proc.Running?
    && var pc := d.state.proc.act.pc; pc.AtGate? || pc.Finishing? || pc.Releasing? || pc.Clearing?
  }

  lemma ShutMove(cfg: Config, d: Drive, m: Move, d': Drive)
    requires Moved(cfg, d, m, d') && Shut(d)
    ensures Shut(d') && OnlyRecords(d.state.trace, d'.state.trace)
    ensures d'.state.proc.act.row.phase == Waking ==> d.state.proc.act.row.phase == Waking
  {
    if m.Ask? {
      assert d.script[0] in d.script && forall p | p in d.script[1..] :: p in d.script;
    }
  }

  lemma {:induction false} ShutTrip(cfg: Config, ds: seq<Drive>, ms: seq<Move>, k: nat)
    requires Trip(cfg, ds, ms) && k <= |ms| && Shut(ds[0])
    ensures Shut(ds[k]) && OnlyRecords(ds[0].state.trace, ds[k].state.trace)
    ensures ds[k].state.proc.act.row.phase == Waking ==> ds[0].state.proc.act.row.phase == Waking
  {
    if k > 0 {
      ShutTrip(cfg, ds, ms, k - 1);
      assert MovedAt(cfg, ds, ms, k - 1);
      ShutMove(cfg, ds[k - 1], ms[k - 1], ds[k]);
    }
  }

  /** While no answer says that the gate is open, the wake does not begin: the
      sequence stays at the gate or is called off, and nobody is woken. */
  lemma ShutGateWakesNobody(cfg: Config, d: Drive, d': Drive)
    requires Driven(cfg, d, d') && d.state.proc.Running? && d.state.proc.act.pc == AtGate && d.answer.None?
    ensures (forall p | p in d.script :: !p.gate) ==>
      && Shut(d') && OnlyRecords(d.state.trace, d'.state.trace)
      && (d'.state.proc.act.row.phase == Waking ==> d.state.proc.act.row.phase == Waking)
  {
    if forall p | p in d.script :: !p.gate {
      var ds, ms :| Makes(cfg, d, d', ds, ms);
      ShutTrip(cfg, ds, ms, |ms|);
    }
  }
}

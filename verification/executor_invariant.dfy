/** The inductive invariant of the executor machine, under process crashes and
    power cuts alike. */
module ExecutorInvariant {
  import opened Tables
  import opened Disks
  import opened Machine

  // ---------------------------------------------------------------------
  // The running sequence against the last committed version.

  predicate BeforeGate(pc: Pc) {
    InLoop(pc) || pc.Reconciling? || pc.PostCheck? || pc.PostIssue? || pc.PostSave? || pc.GateSave?
  }

  predicate Over(pc: Pc) {
    pc.Releasing? || pc.Clearing?
  }

  predicate PhaseFits(pc: Pc, row: SeqRow) {
    && FlagsAgree(row)
    && (BeforeGate(pc) || pc.AbortSave? || pc.FirstSave? ==> row.phase.ShuttingDown?)
    && (pc.AbortSave? ==> !row.ponr)
    && (pc.AbortSettle? ==> row.phase.Aborting?)
    && (pc.AtGate? || pc.Finishing? ==> row.phase.WakeGate? || row.phase.Waking?)
    && (pc.InWake? || pc.InTurn? || pc.Verifying? ==> row.phase.Waking?)
    && (pc.Resuming? ==> !row.phase.Terminal())
    && (Over(pc) <==> row.phase.Terminal())
    && !row.phase.Failed?
  }

  /** The saved row lags behind the one in memory only where a save is due. */
  predicate RowFits(pc: Pc, saved: SeqRow, row: SeqRow) {
    && RowLe(saved, row)
    && (saved.phase.Terminal() <==> Over(pc))
    && (Over(pc) ==> saved == row)
    && (if pc.PonrSave? then row.ponr else row.ponr == saved.ponr)
    && (if pc.PostIssue? || pc.PostSave? then row.postRun && !saved.postRun else row.postRun == saved.postRun)
  }

  predicate LoopIndexFits(p: Plan, pc: Pc, row: SeqRow)
    requires InLoop(pc) || pc.Reconciling?
  {
    && pc.i <= |p.stages|
    && (!pc.LoopTop? && !pc.Reconciling? ==> pc.i < |p.stages|)
    && ((pc.Opening? || pc.InStage?) && p.stages[pc.i].ponr ==> row.ponr)
  }

  ghost predicate PositionFits(p: Plan, db: Db, a: Active) {
    && (InLoop(a.pc) || a.pc.Reconciling? ==>
        LoopIndexFits(p, a.pc, a.row) && RecordedBelow(db, a.id, a.pc.i))
    && (a.pc.PostCheck? || a.pc.PostIssue? || a.pc.PostSave? || a.pc.GateSave? ==>
        RecordedBelow(db, a.id, |p.stages|))
    && (a.pc.PostIssue? || a.pc.PostSave? ==> p.post)
  }

  ghost predicate ActiveFits(cfg: Config, db: Db, a: Active) {
    && a.row.plan in cfg.plans
    && PhaseFits(a.pc, a.row)
    && PositionFits(cfg.plans[a.row.plan], db, a)
    && (a.pc.FirstSave? ==> a.id !in db.seqs && AllTerminal(db) && a.row == FreshRow(a.row.plan))
    && (!a.pc.FirstSave? ==> a.id in db.seqs && RowFits(a.pc, db.seqs[a.id], a.row))
    && (Over(a.pc) ==> AllTerminal(db))
  }

  predicate Locked(db: Db, c: Client, id: SeqId) {
    c in db.locks && db.locks[c] == id
  }

  predicate ClientFits(cur: Db, durable: Db, id: SeqId, c: Client, pc: ClientPc) {
    && (pc.Holding? || pc.Recording? || pc.Sent? || pc.Settling? ==> Locked(cur, c, id))
    && (pc.Recording? || pc.Sent? ==> HasIntent(durable, pc.intent, id, c))
  }

  ghost predicate ClientsFit(cfg: Config, cur: Db, durable: Db, a: Active) {
    a.pc.InStage? && a.row.plan in cfg.plans && a.pc.i < |cfg.plans[a.row.plan].stages| ==>
      forall c | c in a.pc.clients ::
        && c in cfg.plans[a.row.plan].stages[a.pc.i].clients
        && (a.pc.clients[c].Todo? || a.pc.clients[c].Done? || c in cfg.reachable)
        && ClientFits(cur, durable, a.id, c, a.pc.clients[c])
  }

  // ---------------------------------------------------------------------
  // Facts about the disk.

  ghost predicate IdsFresh(db: Db, nextSeq: SeqId, nextIntent: IntentId) {
    && (forall id | id in db.seqs :: id < nextSeq)
    && (forall n | n in db.intents :: n < nextIntent)
  }

  /** Recorded stages lie inside the plan. */
  ghost predicate WithinPlan(cfg: Config, db: Db) {
    forall id, j: nat | Recorded(db, id, j) ::
      id in db.seqs && db.seqs[id].plan in cfg.plans && j < |cfg.plans[db.seqs[id].plan].stages|
  }

  ghost predicate PonrDurable(cur: Db, durable: Db) {
    forall id | id in cur.seqs && cur.seqs[id].ponr :: id in durable.seqs && durable.seqs[id].ponr
  }

  /** A command already handed over is on the flushed part of the disk. */
  predicate CommandKept(cfg: Config, durable: Db, id: SeqId, stage: nat, c: Client, n: IntentId) {
    && HasIntent(durable, n, id, c)
    && id in durable.seqs
    && durable.seqs[id].plan in cfg.plans
    && var stages := cfg.plans[durable.seqs[id].plan].stages;
      && stage < |stages|
      && c in stages[stage].clients
      && (stages[stage].ponr ==> durable.seqs[id].ponr)
  }

  ghost predicate CommandsKept(cfg: Config, durable: Db, trace: seq<Event>) {
    forall e | e in trace && e.Command? :: CommandKept(cfg, durable, e.id, e.stage, e.client, e.intent)
  }

  ghost predicate LocksExplained(db: Db, proc: Proc, leaked: set<SeqId>) {
    forall c | c in db.locks ::
      || Live(db, db.locks[c])
      || db.locks[c] in leaked
      || (proc.Running? && proc.act.pc.Releasing? && proc.act.id == db.locks[c])
  }

  ghost predicate ProcFits(cfg: Config, s: State) {
    && (s.proc.Idle? ==> AllTerminal(s.disk.Current()))
    && (s.proc.Running? ==>
        && s.proc.act.id < s.nextSeq
        && ActiveFits(cfg, s.disk.Current(), s.proc.act)
        && ClientsFit(cfg, s.disk.Current(), s.disk.Durable(), s.proc.act))
  }

  ghost predicate Inv(cfg: Config, s: State) {
    && Sound(s.disk)
    && IdsFresh(s.disk.Current(), s.nextSeq, s.nextIntent)
    && WithinPlan(cfg, s.disk.Current())
    && PonrDurable(s.disk.Current(), s.disk.Durable())
    && CommandsKept(cfg, s.disk.Durable(), s.trace)
    && LocksExplained(s.disk.Current(), s.proc, s.leaked)
    && ProcFits(cfg, s)
  }

  // ---------------------------------------------------------------------
  // What a step of the running sequence has to establish.

  function After(db: Db, op: WriteOp): Db {
    if op.NoWrite? then db else Apply(db, op.w)
  }

  /** The running sequence writes only under its own id, and never makes the
      point of no return visible without flushing it. */
  predicate OwnWrite(cur: Db, a: Active, op: WriteOp) {
    op.NoWrite? ||
    match op.w
    case SaveSequence(id, row) =>
      && id == a.id
      && (op.Lazy? ==> row.ponr == (id in cur.seqs && cur.seqs[id].ponr))
    case SaveStageRecord(id, index, _) => id == a.id
    case SaveIntent(_, intent) => intent.seqId == a.id
    case AcquireClientLock(_, id) => id == a.id
    case ReleaseSequenceLocks(id) => id == a.id
    case FailOrphanedSequence(_) => false
  }

  ghost predicate EffectFits(cfg: Config, cur: Db, a: Active, e: Effect) {
    && e.act.id == a.id
    && (e.op.NoWrite? || Legal(cur, e.op.w))
    && OwnWrite(cur, a, e.op)
    && (!e.op.NoWrite? && e.op.w.SaveStageRecord? ==>
        && a.row.plan in cfg.plans && e.op.w.index < |cfg.plans[a.row.plan].stages|
        && a.id in cur.seqs && cur.seqs[a.id].plan == a.row.plan)
    && (!e.op.NoWrite? && e.op.w.SaveSequence? ==> !e.act.pc.Clearing?)
    && ActiveFits(cfg, After(cur, e.op), e.act)
  }

  /** A write that leaves the sequence's row and records alone keeps the fit. */
  lemma FitsAcross(cfg: Config, db: Db, w: Write, a: Active)
    requires ActiveFits(cfg, db, a) && !a.pc.FirstSave?
    requires w.SaveIntent? || w.AcquireClientLock? || w.ReleaseSequenceLocks?
    ensures ActiveFits(cfg, Apply(db, w), a)
  {
    var db' := Apply(db, w);
    assert db'.seqs == db.seqs && db'.stages == db.stages;
    assert forall j: nat :: Recorded(db', a.id, j) <==> Recorded(db, a.id, j);
  }

  /** A step that writes nothing. */
  lemma QuietFits(cfg: Config, db: Db, a: Active, a': Active, events: seq<Event>)
    requires ActiveFits(cfg, db, a) && !a.pc.FirstSave?
    requires a'.id == a.id && a'.row.plan == a.row.plan && !a'.pc.FirstSave?
    requires PhaseFits(a'.pc, a'.row) && RowFits(a'.pc, db.seqs[a.id], a'.row) && !Over(a'.pc)
    requires PositionFits(cfg.plans[a.row.plan], db, a')
    ensures EffectFits(cfg, db, a, Effect(a', NoWrite, events))
  {
  }

  /** Saving the in-memory row brings the saved one level with it. */
  lemma SaveFits(cfg: Config, db: Db, a: Active, a': Active, events: seq<Event>)
    requires ActiveFits(cfg, db, a) && !Over(a.pc) && !a.pc.FirstSave?
    requires a'.id == a.id && a'.row.plan == a.row.plan && !a'.pc.FirstSave?
    requires RowLe(db.seqs[a.id], a'.row) && PhaseFits(a'.pc, a'.row)
    requires !a'.pc.PonrSave? && !a'.pc.PostIssue? && !a'.pc.PostSave? && !a'.pc.Clearing?
    requires PositionFits(cfg.plans[a.row.plan], db, a') && (Over(a'.pc) ==> OneLive(db))
    ensures a.pc.PonrSave? ==> EffectFits(cfg, db, a, Effect(a', Flushed(SaveSequence(a.id, a'.row)), events))
    ensures a'.row.ponr == db.seqs[a.id].ponr ==>
              EffectFits(cfg, db, a, Effect(a', Lazy(SaveSequence(a.id, a'.row)), events))
  {
    var db' := Apply(db, SaveSequence(a.id, a'.row));
    assert db'.seqs[a.id] == a'.row;
    assert forall j: nat :: Recorded(db', a.id, j) <==> Recorded(db, a.id, j);
    if Over(a'.pc) {
      forall id | id in db'.seqs ensures db'.seqs[id].phase.Terminal() {
        assert Live(db, a.id);
        assert id != a.id ==> !Live(db, id);
      }
    }
    assert ActiveFits(cfg, db', a');
  }

  /** Writing the record of the stage in hand. */
  lemma RecordFits(cfg: Config, db: Db, a: Active, completed: bool, a': Active, events: seq<Event>)
    requires Good(db) && ActiveFits(cfg, db, a) && InLoop(a.pc)
    requires a' == a.(pc := a'.pc)
    requires !a.pc.PonrSave? && a.pc.i < |cfg.plans[a.row.plan].stages|
    requires if completed then a'.pc == LoopTop(a.pc.i + 1) else a.pc.Opening? && a'.pc.InStage? && a'.pc.i == a.pc.i
    ensures EffectFits(cfg, db, a, Effect(a', Lazy(SaveStageRecord(a.id, a.pc.i, completed)), events))
  {
    assert Live(db, a.id);
    LegalStage(db, a.id, a.pc.i, completed);
  }

  lemma CheckFits(cfg: Config, db: Db, a: Active, o: Outcome)
    requires ActiveFits(cfg, db, a) && (a.pc.LoopTop? || a.pc.AbortCheck?)
    requires CheckStep(cfg.plans[a.row.plan], a, o).Some?
    ensures EffectFits(cfg, db, a, CheckStep(cfg.plans[a.row.plan], a, o).value)
  {
    var e := CheckStep(cfg.plans[a.row.plan], a, o).value;
    if e.op.NoWrite? {
      QuietFits(cfg, db, a, e.act, e.events);
    } else {
      SaveFits(cfg, db, a, e.act, e.events);
    }
  }

  lemma WaitFits(cfg: Config, db: Db, a: Active, o: Outcome)
    requires Good(db) && ActiveFits(cfg, db, a) && (a.pc.Waiting? || a.pc.WaitAbort? || a.pc.Expiring?)
    requires WaitStep(cfg.plans[a.row.plan], a, o).Some?
    ensures EffectFits(cfg, db, a, WaitStep(cfg.plans[a.row.plan], a, o).value)
  {
    if a.pc.Expiring? {
      ExpireFits(cfg, db, a, o);
    } else {
      PollFits(cfg, db, a, o);
    }
  }

  lemma PollFits(cfg: Config, db: Db, a: Active, o: Outcome)
    requires ActiveFits(cfg, db, a) && (a.pc.Waiting? || a.pc.WaitAbort?)
    requires WaitStep(cfg.plans[a.row.plan], a, o).Some?
    ensures EffectFits(cfg, db, a, WaitStep(cfg.plans[a.row.plan], a, o).value)
  {
    var e := WaitStep(cfg.plans[a.row.plan], a, o).value;
    QuietFits(cfg, db, a, e.act, e.events);
  }

  lemma ExpireFits(cfg: Config, db: Db, a: Active, o: Outcome)
    requires Good(db) && ActiveFits(cfg, db, a) && a.pc.Expiring?
    requires WaitStep(cfg.plans[a.row.plan], a, o).Some?
    ensures EffectFits(cfg, db, a, WaitStep(cfg.plans[a.row.plan], a, o).value)
  {
    var e := WaitStep(cfg.plans[a.row.plan], a, o).value;
    if cfg.plans[a.row.plan].stages[a.pc.i].hold {
      QuietFits(cfg, db, a, e.act, e.events);
    } else {
      RecordFits(cfg, db, a, true, e.act, e.events);
    }
  }

  lemma EnterFits(cfg: Config, db: Db, a: Active, o: Outcome)
    requires ActiveFits(cfg, db, a) && (a.pc.Entering? || a.pc.PonrSave?)
    requires EnterStep(cfg.plans[a.row.plan], a, o).Some?
    ensures EffectFits(cfg, db, a, EnterStep(cfg.plans[a.row.plan], a, o).value)
  {
    var e := EnterStep(cfg.plans[a.row.plan], a, o).value;
    if e.op.NoWrite? {
      QuietFits(cfg, db, a, e.act, e.events);
    } else {
      SaveFits(cfg, db, a, e.act, e.events);
    }
  }

  lemma StageFits(cfg: Config, db: Db, a: Active, o: Outcome)
    requires Good(db) && ActiveFits(cfg, db, a) && (a.pc.Opening? || a.pc.InStage?)
    requires StageStep(cfg.plans[a.row.plan], a, o).Some?
    ensures EffectFits(cfg, db, a, StageStep(cfg.plans[a.row.plan], a, o).value)
  {
    var e := StageStep(cfg.plans[a.row.plan], a, o).value;
    RecordFits(cfg, db, a, a.pc.InStage?, e.act, e.events);
  }

  lemma PostFits(cfg: Config, db: Db, a: Active, o: Outcome)
    requires ActiveFits(cfg, db, a) && (a.pc.PostCheck? || a.pc.PostIssue? || a.pc.PostSave?)
    requires PostStep(cfg.plans[a.row.plan], a, o).Some?
    ensures EffectFits(cfg, db, a, PostStep(cfg.plans[a.row.plan], a, o).value)
  {
    var e := PostStep(cfg.plans[a.row.plan], a, o).value;
    if e.op.NoWrite? {
      QuietFits(cfg, db, a, e.act, e.events);
    } else {
      SaveFits(cfg, db, a, e.act, e.events);
    }
  }

  lemma GateSaveFits(cfg: Config, db: Db, a: Active, o: Outcome)
    requires ActiveFits(cfg, db, a) && a.pc.GateSave?
    requires WakeStep(cfg.plans[a.row.plan], a, o).Some?
    ensures EffectFits(cfg, db, a, WakeStep(cfg.plans[a.row.plan], a, o).value)
  {
    var e := WakeStep(cfg.plans[a.row.plan], a, o).value;
    SaveFits(cfg, db, a, e.act, e.events);
  }

  lemma GateFits(cfg: Config, db: Db, a: Active, o: Outcome)
    requires ActiveFits(cfg, db, a) && a.pc.AtGate?
    requires WakeStep(cfg.plans[a.row.plan], a, o).Some?
    ensures EffectFits(cfg, db, a, WakeStep(cfg.plans[a.row.plan], a, o).value)
  {
    var e := WakeStep(cfg.plans[a.row.plan], a, o).value;
    if e.op.NoWrite? {
      QuietFits(cfg, db, a, e.act, e.events);
    } else {
      SaveFits(cfg, db, a, e.act, e.events);
    }
  }

  lemma WakeFits(cfg: Config, db: Db, a: Active, o: Outcome)
    requires ActiveFits(cfg, db, a) && a.pc.InWake?
    requires WakeStep(cfg.plans[a.row.plan], a, o).Some?
    ensures EffectFits(cfg, db, a, WakeStep(cfg.plans[a.row.plan], a, o).value)
  {
    var e := WakeStep(cfg.plans[a.row.plan], a, o).value;
    QuietFits(cfg, db, a, e.act, e.events);
  }

  lemma TurnFits(cfg: Config, db: Db, a: Active, o: Outcome)
    requires ActiveFits(cfg, db, a) && (a.pc.InTurn? || a.pc.Verifying?) && TurnStep(a, o).Some?
    ensures EffectFits(cfg, db, a, TurnStep(a, o).value)
  {
    var e := TurnStep(a, o).value;
    QuietFits(cfg, db, a, e.act, e.events);
  }

  lemma FinishFits(cfg: Config, db: Db, a: Active, o: Outcome)
    requires OneLive(db) && ActiveFits(cfg, db, a) && (a.pc.Finishing? || a.pc.Releasing?)
    requires FinishStep(a, o).Some?
    ensures EffectFits(cfg, db, a, FinishStep(a, o).value)
  {
    var e := FinishStep(a, o).value;
    if a.pc.Finishing? {
      SaveFits(cfg, db, a, e.act, e.events);
    } else {
      FitsAcross(cfg, db, e.op.w, e.act);
    }
  }

  lemma AbortFits(cfg: Config, db: Db, a: Active, o: Outcome)
    requires ActiveFits(cfg, db, a) && (a.pc.AbortSave? || a.pc.AbortSettle?)
    requires AbortStep(a, o).Some?
    ensures EffectFits(cfg, db, a, AbortStep(a, o).value)
  {
    var e := AbortStep(a, o).value;
    SaveFits(cfg, db, a, e.act, e.events);
  }

  lemma FirstFits(cfg: Config, db: Db, a: Active, o: Outcome)
    requires Good(db) && ActiveFits(cfg, db, a) && a.pc.FirstSave?
    requires StartStep(cfg.plans[a.row.plan], db, a, o).Some?
    ensures EffectFits(cfg, db, a, StartStep(cfg.plans[a.row.plan], db, a, o).value)
  {
    var e := StartStep(cfg.plans[a.row.plan], db, a, o).value;
    forall j: nat ensures !Recorded(After(db, e.op), a.id, j) {
      assert !Recorded(db, a.id, j);
    }
  }

  lemma ResumeFits(cfg: Config, db: Db, a: Active, o: Outcome)
    requires Good(db) && WithinPlan(cfg, db) && ActiveFits(cfg, db, a) && a.pc.Resuming?
    requires StartStep(cfg.plans[a.row.plan], db, a, o).Some?
    ensures EffectFits(cfg, db, a, StartStep(cfg.plans[a.row.plan], db, a, o).value)
  {
    var e := StartStep(cfg.plans[a.row.plan], db, a, o).value;
    if e.act.pc.Reconciling? {
      forall j: nat ensures Recorded(db, a.id, j) <==> j < e.act.pc.i {
      }
    }
    QuietFits(cfg, db, a, e.act, e.events);
  }

  lemma ReconcileFits(cfg: Config, db: Db, a: Active, o: Outcome)
    requires ActiveFits(cfg, db, a) && a.pc.Reconciling?
    requires ReconcileStep(db, a, o).Some?
    ensures EffectFits(cfg, db, a, ReconcileStep(db, a, o).value)
  {
    var e := ReconcileStep(db, a, o).value;
    if e.op.NoWrite? {
      QuietFits(cfg, db, a, e.act, e.events);
    } else {
      FitsAcross(cfg, db, e.op.w, a);
    }
  }

  lemma SetClientFits(cfg: Config, db: Db, a: Active, c: Client, pc: ClientPc)
    requires ActiveFits(cfg, db, a) && a.pc.InStage?
    ensures ActiveFits(cfg, db, SetClient(a, c, pc))
  {
  }

  lemma ClientStepFits(cfg: Config, db: Db, a: Active, newId: IntentId, c: Client, o: ClientOutcome)
    requires ActiveFits(cfg, db, a) && a.pc.InStage? && c in a.pc.clients
    requires newId !in db.intents
    requires a.pc.clients[c].Recording? || a.pc.clients[c].Sent? ==> HasIntent(db, a.pc.clients[c].intent, a.id, c)
    requires ClientEffect(cfg, db, a, newId, c, o).Some?
    ensures EffectFits(cfg, db, a, ClientEffect(cfg, db, a, newId, c, o).value)
  {
    var e := ClientEffect(cfg, db, a, newId, c, o).value;
    SetClientFits(cfg, db, a, c, e.act.pc.clients[c]);
    assert e.act == SetClient(a, c, e.act.pc.clients[c]);
    if !e.op.NoWrite? {
      FitsAcross(cfg, db, e.op.w, e.act);
    }
  }

  lemma LoopFits(cfg: Config, db: Db, a: Active, o: Outcome)
    requires Good(db) && ActiveFits(cfg, db, a) && InLoop(a.pc)
    requires MainStep(cfg.plans[a.row.plan], db, a, o).Some?
    ensures EffectFits(cfg, db, a, MainStep(cfg.plans[a.row.plan], db, a, o).value)
  {
    match a.pc
    case LoopTop(_) => CheckFits(cfg, db, a, o);
    case AbortCheck(_) => CheckFits(cfg, db, a, o);
    case Waiting(_) => WaitFits(cfg, db, a, o);
    case WaitAbort(_) => WaitFits(cfg, db, a, o);
    case Expiring(_) => WaitFits(cfg, db, a, o);
    case Entering(_) => EnterFits(cfg, db, a, o);
    case PonrSave(_) => EnterFits(cfg, db, a, o);
    case Opening(_) => StageFits(cfg, db, a, o);
    case InStage(_, _) => StageFits(cfg, db, a, o);
  }

  /** Every step of the sequence goroutine fits. */
  lemma MainFits(cfg: Config, db: Db, a: Active, o: Outcome)
    requires Good(db) && WithinPlan(cfg, db) && ActiveFits(cfg, db, a)
    requires MainStep(cfg.plans[a.row.plan], db, a, o).Some?
    ensures EffectFits(cfg, db, a, MainStep(cfg.plans[a.row.plan], db, a, o).value)
  {
    if InLoop(a.pc) {
      LoopFits(cfg, db, a, o);
    } else {
      RestFits(cfg, db, a, o);
    }
  }

  lemma RestFits(cfg: Config, db: Db, a: Active, o: Outcome)
    requires Good(db) && WithinPlan(cfg, db) && ActiveFits(cfg, db, a) && !InLoop(a.pc)
    requires MainStep(cfg.plans[a.row.plan], db, a, o).Some?
    ensures EffectFits(cfg, db, a, MainStep(cfg.plans[a.row.plan], db, a, o).value)
  {
    match a.pc
    case PostCheck => PostFits(cfg, db, a, o);
    case PostIssue => PostFits(cfg, db, a, o);
    case PostSave(_) => PostFits(cfg, db, a, o);
    case GateSave => GateSaveFits(cfg, db, a, o);
    case AtGate => GateFits(cfg, db, a, o);
    case InWake(_) => WakeFits(cfg, db, a, o);
    case InTurn(_, _) => TurnFits(cfg, db, a, o);
    case Verifying(_, _) => TurnFits(cfg, db, a, o);
    case Finishing => FinishFits(cfg, db, a, o);
    case Releasing => FinishFits(cfg, db, a, o);
    case Clearing =>
    case AbortSave => AbortFits(cfg, db, a, o);
    case AbortSettle => AbortFits(cfg, db, a, o);
    case FirstSave => FirstFits(cfg, db, a, o);
    case Resuming => ResumeFits(cfg, db, a, o);
    case Reconciling(_) => ReconcileFits(cfg, db, a, o);
  }

  lemma RunFits(cfg: Config, s: State, l: Label)
    requires Inv(cfg, s) && HasPlan(cfg, s) && OfRun(l)
    requires RunEffect(cfg, s, l).Some?
    ensures EffectFits(cfg, s.disk.Current(), s.proc.act, RunEffect(cfg, s, l).value)
  {
    var a, db := s.proc.act, s.disk.Current();
    match l
    case Main(o) => MainFits(cfg, db, a, o);
    case ClientStep(c, co) =>
      assert Advances(s.disk.Durable(), db);
      assert ClientFits(db, s.disk.Durable(), a.id, c, a.pc.clients[c]);
      ClientStepFits(cfg, db, a, s.nextIntent, c, co);
    case RequestAbort =>
    case RequestProceed =>
  }
}

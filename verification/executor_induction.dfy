/** Every step keeps the executor invariant. */
module ExecutorInduction {
  import opened Tables
  import opened Disks
  import opened Machine
  import opened ExecutorInvariant

  // ---------------------------------------------------------------------
  // Steps of the running sequence.

  function DurableAfter(d: Disk, op: WriteOp): Db {
    if op.Flushed? then Apply(d.Current(), op.w) else d.Durable()
  }

  lemma WriteMovesOn(d: Disk, op: WriteOp)
    requires Sound(d) && (op.NoWrite? || Legal(d.Current(), op.w))
    ensures Sound(Write1(d, op))
    ensures Write1(d, op).Current() == After(d.Current(), op)
    ensures Write1(d, op).Durable() == DurableAfter(d, op)
    ensures Advances(d.Current(), After(d.Current(), op))
    ensures Advances(d.Durable(), DurableAfter(d, op))
    ensures Advances(DurableAfter(d, op), After(d.Current(), op))
  {
    assert Advances(d.Current(), d.Current());
    assert Advances(d.Durable(), d.Current());
    assert Advances(d.Durable(), d.Durable());
    if !op.NoWrite? {
      CommitSound(d, op.w);
      AdvancesTransitive(d.Durable(), d.Current(), Apply(d.Current(), op.w));
      assert Advances(Write1(d, op).Current(), Write1(d, op).Current());
    }
  }

  lemma CommandsStay(cfg: Config, a: Db, b: Db, trace: seq<Event>)
    requires Advances(a, b) && CommandsKept(cfg, a, trace)
    ensures CommandsKept(cfg, b, trace)
  {
    forall e | e in trace && e.Command? ensures CommandKept(cfg, b, e.id, e.stage, e.client, e.intent) {
      assert CommandKept(cfg, a, e.id, e.stage, e.client, e.intent);
      assert HasIntent(b, e.intent, a.intents[e.intent].seqId, a.intents[e.intent].client);
      assert RowLe(a.seqs[e.id], b.seqs[e.id]);
    }
  }

  lemma PonrStaysDurable(cur: Db, durable: Db, durable': Db, a: Active, op: WriteOp)
    requires PonrDurable(cur, durable) && OwnWrite(cur, a, op)
    requires Advances(durable, durable') && (op.Flushed? ==> durable' == After(cur, op))
    ensures PonrDurable(After(cur, op), durable')
  {
    var cur' := After(cur, op);
    forall id | id in cur'.seqs && cur'.seqs[id].ponr ensures id in durable'.seqs && durable'.seqs[id].ponr {
      if !op.Flushed? {
        assert id in cur.seqs && cur.seqs[id].ponr;
        assert RowLe(durable.seqs[id], durable'.seqs[id]);
      }
    }
  }

  lemma StaysWithinPlan(cfg: Config, cur: Db, a: Active, e: Effect)
    requires WithinPlan(cfg, cur) && EffectFits(cfg, cur, a, e) && Advances(cur, After(cur, e.op))
    ensures WithinPlan(cfg, After(cur, e.op))
  {
    var cur' := After(cur, e.op);
    forall id, j: nat | Recorded(cur', id, j)
      ensures id in cur'.seqs && cur'.seqs[id].plan in cfg.plans && j < |cfg.plans[cur'.seqs[id].plan].stages|
    {
      if Recorded(cur, id, j) {
        assert RowLe(cur.seqs[id], cur'.seqs[id]);
      } else {
        assert e.op.w == SaveStageRecord(id, j, true);
        assert RowLe(cur.seqs[id], cur'.seqs[id]);
      }
    }
  }

  predicate IntentIdFits(db: Db, nextIntent: IntentId, op: WriteOp) {
    !op.NoWrite? && op.w.SaveIntent? ==>
      if op.Flushed? then op.w.intentId == nextIntent else op.w.intentId in db.intents
  }

  lemma MainIntentIds(p: Plan, db: Db, a: Active, o: Outcome, n: IntentId)
    requires MainStep(p, db, a, o).Some?
    ensures IntentIdFits(db, n, MainStep(p, db, a, o).value.op)
  {
  }

  lemma ClientIntentIds(cfg: Config, db: Db, durable: Db, a: Active, newId: IntentId, c: Client, o: ClientOutcome)
    requires a.pc.InStage? && c in a.pc.clients && Advances(durable, db)
    requires ClientFits(db, durable, a.id, c, a.pc.clients[c])
    requires ClientEffect(cfg, db, a, newId, c, o).Some?
    ensures IntentIdFits(db, newId, ClientEffect(cfg, db, a, newId, c, o).value.op)
  {
  }

  /** Intents are only ever inserted under the machine's next id. */
  lemma IntentIds(cfg: Config, s: State, l: Label)
    requires Inv(cfg, s) && HasPlan(cfg, s) && OfRun(l) && RunEffect(cfg, s, l).Some?
    ensures IntentIdFits(s.disk.Current(), s.nextIntent, RunEffect(cfg, s, l).value.op)
  {
    var a, db := s.proc.act, s.disk.Current();
    if l.ClientStep? {
      assert Advances(s.disk.Durable(), db);
      ClientIntentIds(cfg, db, s.disk.Durable(), a, s.nextIntent, l.c, l.co);
    } else if l.Main? {
      MainIntentIds(cfg.plans[a.row.plan], db, a, l.o, s.nextIntent);
    }
  }

  lemma IdsStayFresh(s: State, a: Active, op: WriteOp)
    requires IdsFresh(s.disk.Current(), s.nextSeq, s.nextIntent)
    requires a.id < s.nextSeq && OwnWrite(s.disk.Current(), a, op)
    requires IntentIdFits(s.disk.Current(), s.nextIntent, op)
    ensures IdsFresh(After(s.disk.Current(), op), s.nextSeq,
                     if op.Flushed? && op.w.SaveIntent? then s.nextIntent + 1 else s.nextIntent)
  {
  }

  lemma LocksStayExplained(db: Db, a: Active, e: Effect, leaked: set<SeqId>)
    requires LocksExplained(db, Running(a), leaked)
    requires e.op.NoWrite? || Legal(db, e.op.w)
    requires OwnWrite(db, a, e.op) && e.act.id == a.id
    requires a.pc.Releasing? ==> e.act.pc.Releasing? || e.op == Lazy(ReleaseSequenceLocks(a.id))
    requires !e.op.NoWrite? && e.op.w.SaveSequence? && e.op.w.row.phase.Terminal() ==> e.act.pc.Releasing?
    ensures LocksExplained(After(db, e.op), Running(e.act), leaked)
  {
    var db' := After(db, e.op);
    forall c | c in db'.locks
      ensures Live(db', db'.locks[c]) || db'.locks[c] in leaked || (e.act.pc.Releasing? && a.id == db'.locks[c])
    {
      if c in db.locks {
        assert Live(db, db.locks[c]) || db.locks[c] in leaked || (a.pc.Releasing? && a.id == db.locks[c]);
      }
    }
  }

  lemma ReleasingMoves(p: Plan, db: Db, a: Active, o: Outcome)
    requires MainStep(p, db, a, o).Some? && a.pc.Releasing?
    ensures MainStep(p, db, a, o).value.op == Lazy(ReleaseSequenceLocks(a.id))
  {
  }

  lemma RunKeepsLocks(cfg: Config, s: State, l: Label)
    requires Inv(cfg, s) && HasPlan(cfg, s) && OfRun(l) && RunEffect(cfg, s, l).Some?
    requires EffectFits(cfg, s.disk.Current(), s.proc.act, RunEffect(cfg, s, l).value)
    ensures var e := RunEffect(cfg, s, l).value;
      LocksExplained(After(s.disk.Current(), e.op), Running(e.act), s.leaked)
  {
    var e, a := RunEffect(cfg, s, l).value, s.proc.act;
    if a.pc.Releasing? && l.Main? {
      ReleasingMoves(cfg.plans[a.row.plan], s.disk.Current(), a, l.o);
    }
    LocksStayExplained(s.disk.Current(), a, e, s.leaked);
  }

  // ---------------------------------------------------------------------
  // The clients of the stage in hand.

  lemma ClientFitsOn(cur: Db, cur': Db, durable: Db, durable': Db, id: SeqId, c: Client, pc: ClientPc)
    requires ClientFits(cur, durable, id, c, pc) && Advances(durable, durable')
    requires c in cur.locks ==> c in cur'.locks && cur'.locks[c] == cur.locks[c]
    ensures ClientFits(cur', durable', id, c, pc)
  {
  }

  /** A client step touches no other client and no other client's lock. */
  lemma OthersStay(cfg: Config, db: Db, a: Active, newId: IntentId, c: Client, o: ClientOutcome)
    requires a.pc.InStage? && c in a.pc.clients
    requires ClientEffect(cfg, db, a, newId, c, o).Some?
    ensures var e := ClientEffect(cfg, db, a, newId, c, o).value;
      && e.act == a.(pc := e.act.pc) && e.act.pc.InStage? && c in e.act.pc.clients
      && e.act.pc == a.pc.(clients := a.pc.clients[c := e.act.pc.clients[c]])
      && (forall c' | c' in db.locks :: c' in After(db, e.op).locks && After(db, e.op).locks[c'] == db.locks[c'])
  {
  }

  lemma ClientMoves(cfg: Config, db: Db, durable: Db, a: Active, newId: IntentId, c: Client, o: ClientOutcome)
    requires a.pc.InStage? && c in a.pc.clients && newId !in db.intents
    requires ClientFits(db, durable, a.id, c, a.pc.clients[c])
    requires ClientEffect(cfg, db, a, newId, c, o).Some?
    ensures var e := ClientEffect(cfg, db, a, newId, c, o).value;
      && e.act.pc.InStage? && c in e.act.pc.clients
      && ClientFits(After(db, e.op), if e.op.Flushed? then After(db, e.op) else durable, a.id, c, e.act.pc.clients[c])
  {
  }

  lemma ClientKeepsClients(cfg: Config, s: State, c: Client, o: ClientOutcome)
    requires Inv(cfg, s) && HasPlan(cfg, s)
    requires RunEffect(cfg, s, ClientStep(c, o)).Some?
    requires var e := RunEffect(cfg, s, ClientStep(c, o)).value;
      Advances(s.disk.Durable(), DurableAfter(s.disk, e.op))
    ensures var e := RunEffect(cfg, s, ClientStep(c, o)).value;
      ClientsFit(cfg, After(s.disk.Current(), e.op), DurableAfter(s.disk, e.op), e.act)
  {
    var e, a, d := RunEffect(cfg, s, ClientStep(c, o)).value, s.proc.act, s.disk;
    assert ClientFits(d.Current(), d.Durable(), a.id, c, a.pc.clients[c]);
    ClientMoves(cfg, d.Current(), d.Durable(), a, s.nextIntent, c, o);
    OthersStay(cfg, d.Current(), a, s.nextIntent, c, o);
    forall c' | c' in e.act.pc.clients
      ensures ClientFits(After(d.Current(), e.op), DurableAfter(d, e.op), a.id, c', e.act.pc.clients[c'])
    {
      if c' != c {
        ClientFitsOn(d.Current(), After(d.Current(), e.op), d.Durable(), DurableAfter(d, e.op),
                     a.id, c', a.pc.clients[c']);
      }
    }
  }

  lemma MainOpensStage(p: Plan, db: Db, a: Active, o: Outcome)
    requires MainStep(p, db, a, o).Some?
    ensures var e := MainStep(p, db, a, o).value;
      e.act.pc.InStage? ==> e.act.pc.i < |p.stages| && e.act.pc.clients == StageClients(p.stages[e.act.pc.i])
  {
    if MainStep(p, db, a, o).value.act.pc.InStage? {
      OnlyOpeningOpens(p, db, a, o);
    }
  }

  lemma OnlyOpeningOpens(p: Plan, db: Db, a: Active, o: Outcome)
    requires MainStep(p, db, a, o).Some? && MainStep(p, db, a, o).value.act.pc.InStage?
    ensures a.pc.Opening?
  {
  }

  lemma RunKeepsClients(cfg: Config, s: State, l: Label)
    requires Inv(cfg, s) && HasPlan(cfg, s) && OfRun(l) && RunEffect(cfg, s, l).Some?
    requires var e := RunEffect(cfg, s, l).value;
      EffectFits(cfg, s.disk.Current(), s.proc.act, e) && Advances(s.disk.Durable(), DurableAfter(s.disk, e.op))
    ensures var e := RunEffect(cfg, s, l).value;
      ClientsFit(cfg, After(s.disk.Current(), e.op), DurableAfter(s.disk, e.op), e.act)
  {
    match l
    case ClientStep(c, o) => ClientKeepsClients(cfg, s, c, o);
    case Main(o) => MainKeepsClients(cfg, s, o);
    case RequestAbort => CallKeepsClients(cfg, s, l);
    case RequestProceed => CallKeepsClients(cfg, s, l);
  }

  lemma MainKeepsClients(cfg: Config, s: State, o: Outcome)
    requires HasPlan(cfg, s) && RunEffect(cfg, s, Main(o)).Some?
    requires RunEffect(cfg, s, Main(o)).value.act.row.plan == s.proc.act.row.plan
    ensures var e := RunEffect(cfg, s, Main(o)).value;
      ClientsFit(cfg, After(s.disk.Current(), e.op), DurableAfter(s.disk, e.op), e.act)
  {
    MainOpensStage(cfg.plans[s.proc.act.row.plan], s.disk.Current(), s.proc.act, o);
  }

  lemma CallKeepsClients(cfg: Config, s: State, l: Label)
    requires Inv(cfg, s) && HasPlan(cfg, s) && (l.RequestAbort? || l.RequestProceed?)
    ensures var e := RunEffect(cfg, s, l).value;
      ClientsFit(cfg, After(s.disk.Current(), e.op), DurableAfter(s.disk, e.op), e.act)
  {
  }

  // ---------------------------------------------------------------------
  // Commands.

  lemma MainSendsNothing(p: Plan, db: Db, a: Active, o: Outcome)
    requires MainStep(p, db, a, o).Some?
    ensures forall e | e in MainStep(p, db, a, o).value.events :: !e.Command?
  {
  }

  lemma RunKeepsCommands(cfg: Config, s: State, l: Label)
    requires Inv(cfg, s) && HasPlan(cfg, s) && OfRun(l) && RunEffect(cfg, s, l).Some?
    requires var e := RunEffect(cfg, s, l).value;
      Advances(s.disk.Durable(), DurableAfter(s.disk, e.op))
    ensures var e := RunEffect(cfg, s, l).value;
      CommandsKept(cfg, DurableAfter(s.disk, e.op), s.trace + e.events)
  {
    var e, a := RunEffect(cfg, s, l).value, s.proc.act;
    CommandsStay(cfg, s.disk.Durable(), DurableAfter(s.disk, e.op), s.trace);
    if l.Main? {
      MainSendsNothing(cfg.plans[a.row.plan], s.disk.Current(), a, l.o);
    } else if l.ClientStep? && l.co.Send? {
      NewCommandKept(cfg, s, l.c);
    }
  }

  /** A client is commanded only after its intent, and in a stage past the point
      of no return the crossing itself, have been flushed. */
  lemma NewCommandKept(cfg: Config, s: State, c: Client)
    requires Inv(cfg, s) && s.proc.Running? && s.proc.act.pc.InStage? && c in s.proc.act.pc.clients
    requires s.proc.act.pc.clients[c].Recording?
    ensures CommandKept(cfg, s.disk.Durable(), s.proc.act.id, s.proc.act.pc.i, c, s.proc.act.pc.clients[c].intent)
  {
    var a, durable, cur := s.proc.act, s.disk.Durable(), s.disk.Current();
    assert ClientFits(cur, durable, a.id, c, a.pc.clients[c]);
    assert Good(durable) && Advances(durable, cur);
    assert RowLe(durable.seqs[a.id], cur.seqs[a.id]);
  }

  lemma RunStepKeepsInv(cfg: Config, s: State, l: Label)
    requires Inv(cfg, s) && HasPlan(cfg, s) && OfRun(l) && RunEffect(cfg, s, l).Some?
    ensures Inv(cfg, Perform(s, RunEffect(cfg, s, l).value))
  {
    var e, a, d := RunEffect(cfg, s, l).value, s.proc.act, s.disk;
    RunFits(cfg, s, l);
    WriteMovesOn(d, e.op);
    IntentIds(cfg, s, l);
    IdsStayFresh(s, a, e.op);
    StaysWithinPlan(cfg, d.Current(), a, e);
    PonrStaysDurable(d.Current(), d.Durable(), DurableAfter(d, e.op), a, e.op);
    RunKeepsCommands(cfg, s, l);
    RunKeepsLocks(cfg, s, l);
    RunKeepsClients(cfg, s, l);
  }

  // ---------------------------------------------------------------------
  // Crashes, restarts and triggers.

  lemma OlderVersionFits(cfg: Config, older: Db, cur: Db, nextSeq: SeqId, nextIntent: IntentId)
    requires Good(older) && Advances(older, cur)
    requires IdsFresh(cur, nextSeq, nextIntent) && WithinPlan(cfg, cur)
    ensures IdsFresh(older, nextSeq, nextIntent) && WithinPlan(cfg, older)
  {
    forall n | n in older.intents ensures n < nextIntent {
      assert HasIntent(cur, n, older.intents[n].seqId, older.intents[n].client);
    }
    forall id, j: nat | Recorded(older, id, j)
      ensures id in older.seqs && older.seqs[id].plan in cfg.plans && j < |cfg.plans[older.seqs[id].plan].stages|
    {
      assert StageKey(id, j) in older.stages;
      assert Recorded(cur, id, j);
      assert RowLe(older.seqs[id], cur.seqs[id]);
    }
  }

  lemma CrashKeepsInv(cfg: Config, s: State, d: Disk)
    requires Inv(cfg, s) && Sound(d)
    requires Advances(s.disk.Durable(), d.Durable()) && Advances(d.Current(), s.disk.Current())
    requires PonrDurable(d.Current(), d.Durable())
    ensures Inv(cfg, CrashTo(s, d))
  {
    OlderVersionFits(cfg, d.Current(), s.disk.Current(), s.nextSeq, s.nextIntent);
    CommandsStay(cfg, s.disk.Durable(), d.Durable(), s.trace);
    var s' := CrashTo(s, d);
    forall c | c in d.Current().locks ensures Live(d.Current(), d.Current().locks[c]) || d.Current().locks[c] in s'.leaked {
      if !Live(d.Current(), d.Current().locks[c]) {
        assert d.Current().locks[c] in LeakedBy(d.Current());
      }
    }
  }

  lemma OrphanKeepsInv(cfg: Config, s: State, id: SeqId)
    requires Inv(cfg, s) && s.proc.Down? && Live(s.disk.Current(), id)
    ensures Inv(cfg, s.(proc := Idle, disk := Commit(s.disk, FailOrphanedSequence(id))))
  {
    var db, w := s.disk.Current(), FailOrphanedSequence(id);
    var db' := Apply(db, w);
    WriteMovesOn(s.disk, Lazy(w));
    LegalOrphan(db, id);
    forall k, j: nat | Recorded(db', k, j)
      ensures k in db'.seqs && db'.seqs[k].plan in cfg.plans && j < |cfg.plans[db'.seqs[k].plan].stages|
    {
      assert Recorded(db, k, j);
    }
    forall c | c in db'.locks ensures db'.locks[c] in s.leaked {
      assert c in db.locks && db.locks[c] != id;
      assert !Live(db, db.locks[c]);
    }
  }

  lemma EnvStepKeepsInv(cfg: Config, s: State, l: Label)
    requires Inv(cfg, s) && !OfRun(l) && EnvNext(cfg, s, l).Some?
    ensures Inv(cfg, EnvNext(cfg, s, l).value)
  {
    match l
    case Trigger(plan) =>
      TriggerKeepsInv(cfg, s, plan);
    case Clear =>
      TerminalWhenClearing(cfg, s);
    case ProcessCrash =>
      assert Advances(s.disk.Durable(), s.disk.Durable());
      assert Advances(s.disk.Current(), s.disk.Current());
      CrashKeepsInv(cfg, s, s.disk);
    case Cut(k) =>
      PowerCutSound(s.disk, k);
      CrashKeepsInv(cfg, s, PowerCut(s.disk, k));
    case RestartIdle =>
    case RestartResume(id) =>
      ResumeKeepsInv(cfg, s, id);
    case RestartOrphan(id) =>
      OrphanKeepsInv(cfg, s, id);
  }

  lemma TriggerKeepsInv(cfg: Config, s: State, plan: string)
    requires Inv(cfg, s) && EnvNext(cfg, s, Trigger(plan)).Some?
    ensures Inv(cfg, EnvNext(cfg, s, Trigger(plan)).value)
  {
  }

  lemma ResumeKeepsInv(cfg: Config, s: State, id: SeqId)
    requires Inv(cfg, s) && EnvNext(cfg, s, RestartResume(id)).Some?
    ensures Inv(cfg, EnvNext(cfg, s, RestartResume(id)).value)
  {
  }

  lemma TerminalWhenClearing(cfg: Config, s: State)
    requires Inv(cfg, s) && s.proc.Running? && s.proc.act.pc.Clearing?
    ensures AllTerminal(s.disk.Current())
  {
  }

  /** Every step keeps the invariant. */
  lemma StepKeepsInv(cfg: Config, s: State, l: Label, s': State)
    requires Inv(cfg, s) && StepOf(cfg, s, l, s')
    ensures Inv(cfg, s')
  {
    if OfRun(l) {
      RunStepKeepsInv(cfg, s, l);
    } else {
      EnvStepKeepsInv(cfg, s, l);
    }
  }

  lemma InitInv(cfg: Config)
    ensures Inv(cfg, INIT)
  {
    NewDiskSound();
  }

  lemma StepKeepsInvAt(cfg: Config, ss: seq<State>, ls: seq<Label>, i: nat)
    requires IsRun(cfg, ss, ls) && 0 < i < |ss| && Inv(cfg, ss[i - 1])
    ensures Inv(cfg, ss[i])
  {
    assert StepAt(cfg, ss, ls, i - 1);
    StepKeepsInv(cfg, ss[i - 1], ls[i - 1], ss[i]);
  }

  /** Every state of every run, with any crashes and power cuts, is good. */
  lemma {:induction false} RunInv(cfg: Config, ss: seq<State>, ls: seq<Label>, i: nat)
    requires IsRun(cfg, ss, ls) && i < |ss|
    ensures Inv(cfg, ss[i])
  {
    if i == 0 {
      InitInv(cfg);
    } else {
      RunInv(cfg, ss, ls, i - 1);
      StepKeepsInvAt(cfg, ss, ls, i);
    }
  }
}

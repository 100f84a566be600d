/** What the executor guarantees over whole runs.

    `IsRun` allows any interleaving of the stage's clients, any operator calls,
    any number of process crashes and power cuts and any restarts. What a power
    cut can break is stated with the cuts that break it. */
module ExecutorTheorems {
  import opened Tables
  import opened Machine
  import opened ExecutorInvariant
  import opened ExecutorInduction
  import opened ExecutorRuns

  /** Version `k` is one a restart could find after a power cut in state `s`. */
  predicate Recoverable(s: State, k: nat) {
    s.disk.synced <= k < |s.disk.versions|
  }

  // ---------------------------------------------------------------------
  // Write-ahead intents.

  /** Every shutdown command ever handed to a transport has its intent row, and
      its sequence row, in every database a power cut could leave behind. */
  lemma WriteAheadIntents(cfg: Config, ss: seq<State>, ls: seq<Label>, i: nat, k: nat, m: nat)
    requires IsRun(cfg, ss, ls) && i < |ss| && Recoverable(ss[i], k)
    requires m < |ss[i].trace| && ss[i].trace[m].Command?
    ensures var e, db := ss[i].trace[m], ss[i].disk.versions[k];
      HasIntent(db, e.intent, e.id, e.client) && e.id in db.seqs
  {
    RunInv(cfg, ss, ls, i);
    var d, e := ss[i].disk, ss[i].trace[m];
    assert CommandKept(cfg, d.Durable(), e.id, e.stage, e.client, e.intent);
    assert Advances(d.Durable(), d.versions[k]);
  }

  /** Every recoverable database is referentially whole, has at most one
      unfinished sequence, and its recorded stages form an initial segment of
      the sequence's plan. */
  lemma RecoveredTablesAreWhole(cfg: Config, ss: seq<State>, ls: seq<Label>, i: nat, k: nat)
    requires IsRun(cfg, ss, ls) && i < |ss| && Recoverable(ss[i], k)
    ensures var db := ss[i].disk.versions[k];
      && ReferencesHold(db) && OneLive(db) && RecordsFormPrefix(db) && WithinPlan(cfg, db)
      && (forall id | id in db.seqs :: FlagsAgree(db.seqs[id]))
  {
    RunInv(cfg, ss, ls, i);
    var s := ss[i];
    assert Advances(s.disk.versions[k], s.disk.Current());
    OlderVersionFits(cfg, s.disk.versions[k], s.disk.Current(), s.nextSeq, s.nextIntent);
  }

  // ---------------------------------------------------------------------
  // The point of no return.

  /** Step `i` sends a command to a client of a stage marked point_of_no_return. */
  ghost predicate SendsPastReturn(cfg: Config, ss: seq<State>, i: nat, id: SeqId) {
    && i + 1 < |ss|
    && exists stage: nat, c, n ::
      && Emits(ss[i], ss[i + 1], Command(id, stage, c, n))
      && HasPlan(cfg, ss[i])
      && var stages := cfg.plans[ss[i].proc.act.row.plan].stages;
        stage < |stages| && stages[stage].ponr
  }

  lemma CrossingIsFlushed(cfg: Config, ss: seq<State>, ls: seq<Label>, i: nat, id: SeqId)
    requires IsRun(cfg, ss, ls) && SendsPastReturn(cfg, ss, i, id)
    ensures id in ss[i].disk.Durable().seqs && ss[i].disk.Durable().seqs[id].ponr
  {
    var stage: nat, c, n :|
      && Emits(ss[i], ss[i + 1], Command(id, stage, c, n))
      && stage < |cfg.plans[ss[i].proc.act.row.plan].stages|
      && cfg.plans[ss[i].proc.act.row.plan].stages[stage].ponr;
    RunInv(cfg, ss, ls, i);
    assert StepAt(cfg, ss, ls, i);
    CommandSource(cfg, ss[i], ls[i], ss[i + 1], id, stage, c, n);
    DurablePonr(cfg, ss[i], id);
  }

  /** Once such a command has gone out, every database recoverable at any later
      time says the point of no return was crossed. */
  lemma PonrSurvives(cfg: Config, ss: seq<State>, ls: seq<Label>, i: nat, id: SeqId, j: nat, k: nat)
    requires IsRun(cfg, ss, ls) && SendsPastReturn(cfg, ss, i, id)
    requires i < j < |ss| && Recoverable(ss[j], k)
    ensures var db := ss[j].disk.versions[k]; id in db.seqs && db.seqs[id].ponr
  {
    CrossingIsFlushed(cfg, ss, ls, i, id);
    FlushedSurvives(cfg, ss, ls, i, j);
    RunInv(cfg, ss, ls, j);
    assert RowLe(ss[i].disk.Durable().seqs[id], ss[j].disk.Durable().seqs[id]);
    assert Advances(ss[j].disk.Durable(), ss[j].disk.versions[k]);
  }

  lemma DurablePonr(cfg: Config, s: State, id: SeqId)
    requires Inv(cfg, s) && s.proc.Running? && s.proc.act.id == id && s.proc.act.pc.InStage?
    requires cfg.plans[s.proc.act.row.plan].stages[s.proc.act.pc.i].ponr
    ensures id in s.disk.Durable().seqs && s.disk.Durable().seqs[id].ponr
  {
  }

  /** From then on the abort path is never entered and every abort request is
      refused, leaving the sequence as it was. */
  lemma PonrIsFinal(cfg: Config, ss: seq<State>, ls: seq<Label>, i: nat, id: SeqId, j: nat)
    requires IsRun(cfg, ss, ls) && SendsPastReturn(cfg, ss, i, id) && i < j < |ls|
    ensures !Emits(ss[j], ss[j + 1], AbortEntered(id))
    ensures !Emits(ss[j], ss[j + 1], AbortAnswer(id, true))
    ensures ls[j] == RequestAbort && ss[j].proc.Running? && ss[j].proc.act.id == id ==>
      ss[j + 1] == ss[j].(trace := ss[j].trace + [AbortAnswer(id, false)])
  {
    assert StepAt(cfg, ss, ls, j);
    RunInv(cfg, ss, ls, j);
    PonrSurvives(cfg, ss, ls, i, id, j, |ss[j].disk.versions| - 1);
    if Emits(ss[j], ss[j + 1], AbortEntered(id)) {
      AbortSource(cfg, ss[j], ls[j], ss[j + 1], id);
    }
    if Emits(ss[j], ss[j + 1], AbortAnswer(id, true)) {
      EventSource(cfg, ss[j], ls[j], ss[j + 1], AbortAnswer(id, true));
      MainEventsOnly(cfg, ss[j], ls[j]);
    }
  }

  lemma MainEventsOnly(cfg: Config, s: State, l: Label)
    requires HasPlan(cfg, s) && OfRun(l) && RunEffect(cfg, s, l).Some?
    requires exists id, b :: RunEffect(cfg, s, l).value.events == [AbortAnswer(id, b)]
    ensures l == RequestAbort
  {
    if l.Main? {
      MainEvents(cfg.plans[s.proc.act.row.plan], s.disk.Current(), s.proc.act, l.o);
    }
  }

  // ---------------------------------------------------------------------
  // Commands: order, ownership, no re-runs.

  /** When a command goes out, exactly the stages below its own are recorded, the
      sequence is still shutting down, and it holds the client's lock. */
  lemma CommandSituation(cfg: Config, ss: seq<State>, ls: seq<Label>, i: nat,
                         id: SeqId, stage: nat, c: Client, n: IntentId)
    requires IsRun(cfg, ss, ls) && i < |ls|
    requires Emits(ss[i], ss[i + 1], Command(id, stage, c, n))
    ensures var db := ss[i].disk.Current();
      && RecordedBelow(db, id, stage)
      && Live(db, id) && db.seqs[id].phase.ShuttingDown?
      && Locked(db, c, id)
      && db.seqs[id].plan in cfg.plans
      && stage < |cfg.plans[db.seqs[id].plan].stages|
      && c in cfg.plans[db.seqs[id].plan].stages[stage].clients
      && c in cfg.reachable
  {
    RunInv(cfg, ss, ls, i);
    assert StepAt(cfg, ss, ls, i);
    CommandSource(cfg, ss[i], ls[i], ss[i + 1], id, stage, c, n);
    var s, a := ss[i], ss[i].proc.act;
    assert ClientFits(s.disk.Current(), s.disk.Durable(), a.id, c, a.pc.clients[c]);
  }

  /** A dependency is commanded only once the stage of everything that depends on
      it has been recorded complete or skipped. */
  lemma ShutdownRespectsOrder(cfg: Config, ss: seq<State>, ls: seq<Label>, i: nat,
                              id: SeqId, stage: nat, dep: Client, n: IntentId, dependentStage: nat)
    requires IsRun(cfg, ss, ls) && i < |ls|
    requires Emits(ss[i], ss[i + 1], Command(id, stage, dep, n)) && dependentStage < stage
    ensures Recorded(ss[i].disk.Current(), id, dependentStage)
  {
    CommandSituation(cfg, ss, ls, i, id, stage, dep, n);
  }

  // ---------------------------------------------------------------------
  // Phases, aborts and the post-shutdown action.

  /** The tables have `id` at `r` or further. */
  predicate AtLeast(s: State, id: SeqId, r: SeqRow) {
    id in s.disk.Current().seqs && RowLe(r, s.disk.Current().seqs[id])
  }

  /** Every power cut between states `i` and `j` recovers `id` at `r` or further. */
  ghost predicate CutsKeepRow(ss: seq<State>, ls: seq<Label>, i: nat, j: nat, id: SeqId, r: SeqRow)
    requires j < |ss| == |ls| + 1
  {
    forall m | i <= m < j && ls[m].Cut? :: AtLeast(ss[m + 1], id, r)
  }

  lemma {:induction false} RowStays(cfg: Config, ss: seq<State>, ls: seq<Label>, i: nat, j: nat, id: SeqId, r: SeqRow)
    requires IsRun(cfg, ss, ls) && i <= j < |ss| && AtLeast(ss[i], id, r) && CutsKeepRow(ss, ls, i, j, id, r)
    ensures AtLeast(ss[j], id, r)
    decreases j - i
  {
    if i < j {
      RowStays(cfg, ss, ls, i, j - 1, id, r);
      if !ls[j - 1].Cut? {
        StepMovesAt(cfg, ss, ls, j - 1);
        assert RowLe(ss[j - 1].disk.Current().seqs[id], ss[j].disk.Current().seqs[id]);
      }
    }
  }

  /** The saved phase never moves back, flags are never taken back and a finished
      row is frozen: exactly as long as no power cut recovers an older row. */
  lemma PhasesOnlyAdvance(cfg: Config, ss: seq<State>, ls: seq<Label>, i: nat, j: nat, id: SeqId)
    requires IsRun(cfg, ss, ls) && i <= j < |ss|
    requires id in ss[i].disk.Current().seqs
    ensures var r := ss[i].disk.Current().seqs[id];
      (forall m | i <= m <= j :: AtLeast(ss[m], id, r)) <==> CutsKeepRow(ss, ls, i, j, id, r)
    ensures var r := ss[i].disk.Current().seqs[id];
      CutsKeepRow(ss, ls, i, j, id, r) ==>
        && id in ss[j].disk.Current().seqs
        && var r' := ss[j].disk.Current().seqs[id];
          r.phase.Rank() <= r'.phase.Rank() && (r.phase.Terminal() ==> r' == r)
  {
    var r := ss[i].disk.Current().seqs[id];
    if CutsKeepRow(ss, ls, i, j, id, r) {
      forall m | i <= m <= j ensures AtLeast(ss[m], id, r) {
        RowStays(cfg, ss, ls, i, m, id, r);
      }
    }
  }

  /** The tables say that `id` is no longer shutting down. */
  predicate PastShutdown(s: State, id: SeqId) {
    id in s.disk.Current().seqs && !s.disk.Current().seqs[id].phase.ShuttingDown?
  }

  /** A shutdown command or the post-shutdown action of `id`. */
  predicate ActionOf(e: Event, id: SeqId) {
    (e.Command? || e.PostIssued?) && e.id == id
  }

  /** Nothing is done for a sequence that is not shutting down. */
  lemma ActsOnlyShuttingDown(cfg: Config, ss: seq<State>, ls: seq<Label>, j: nat, id: SeqId, e: Event)
    requires IsRun(cfg, ss, ls) && j < |ls| && ActionOf(e, id) && Emits(ss[j], ss[j + 1], e)
    ensures Live(ss[j].disk.Current(), id) && ss[j].disk.Current().seqs[id].phase.ShuttingDown?
  {
    if e.Command? {
      CommandSituation(cfg, ss, ls, j, id, e.stage, e.client, e.intent);
    } else {
      PostSituation(cfg, ss, ls, j, id);
    }
  }

  lemma AbortSavedAt(cfg: Config, ss: seq<State>, ls: seq<Label>, i: nat, id: SeqId)
    requires IsRun(cfg, ss, ls) && i < |ls| && Emits(ss[i], ss[i + 1], AbortEntered(id))
    ensures PastShutdown(ss[i + 1], id)
  {
    assert StepAt(cfg, ss, ls, i);
    AbortSource(cfg, ss[i], ls[i], ss[i + 1], id);
    RunInv(cfg, ss, ls, i);
    AbortSaves(cfg, ss[i], ls[i], ss[i + 1]);
  }

  lemma AbortSaves(cfg: Config, s: State, l: Label, s': State)
    requires Inv(cfg, s) && StepOf(cfg, s, l, s') && s.proc.Running? && s.proc.act.pc.AbortSave?
    requires s'.proc.Running? && s'.proc.act.pc.AbortSettle?
    ensures s.proc.act.id in s'.disk.Current().seqs && s'.disk.Current().seqs[s.proc.act.id].phase.Aborting?
  {
  }

  /** When the post-shutdown action is issued every stage of the plan is recorded,
      the flag is not yet saved and the sequence was not called off. */
  lemma PostSituation(cfg: Config, ss: seq<State>, ls: seq<Label>, i: nat, id: SeqId)
    requires IsRun(cfg, ss, ls) && i < |ls| && Emits(ss[i], ss[i + 1], PostIssued(id))
    ensures var db := ss[i].disk.Current();
      && Live(db, id) && db.seqs[id].phase.ShuttingDown? && !db.seqs[id].aborted && !db.seqs[id].postRun
      && db.seqs[id].plan in cfg.plans && cfg.plans[db.seqs[id].plan].post
      && RecordedBelow(db, id, |cfg.plans[db.seqs[id].plan].stages|)
  {
    RunInv(cfg, ss, ls, i);
    assert StepAt(cfg, ss, ls, i);
    PostSource(cfg, ss[i], ls[i], ss[i + 1], id);
  }

  /** A finished row says `aborted` exactly when the sequence was called off. */
  lemma FinalStateTellsAbort(cfg: Config, ss: seq<State>, ls: seq<Label>, i: nat, k: nat, id: SeqId)
    requires IsRun(cfg, ss, ls) && i < |ss| && Recoverable(ss[i], k)
    requires id in ss[i].disk.versions[k].seqs
    requires var p := ss[i].disk.versions[k].seqs[id].phase; p.Completed? || p.Aborted?
    ensures ss[i].disk.versions[k].seqs[id].phase.Aborted? <==> ss[i].disk.versions[k].seqs[id].aborted
  {
    RecoveredTablesAreWhole(cfg, ss, ls, i, k);
  }
}

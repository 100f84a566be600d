/** What becomes of an abort request once it has been accepted. */
module ExecutorRequests {
  import opened Options
  import opened Tables
  import opened Machine
  import opened Paths
  import opened ExecutorInvariant
  import opened ExecutorInduction
  import opened ExecutorRuns
  import opened ExecutorTheorems
  import opened ExecutorCounts

  predicate Pending(s: State, id: SeqId) {
    s.proc.Running? && s.proc.act.id == id && s.proc.act.abortReq
  }

  /** The stage in hand: its entry condition may still be found true, or already
      has been, without shouldAbort being asked again. */
  function Hand(pc: Pc): Option<nat> {
    match pc
    case Waiting(i) => Some(i)
    case Entering(i) => Some(i)
    case PonrSave(i) => Some(i)
    case Opening(i) => Some(i)
    case InStage(i, _) => Some(i)
    case _ => None
  }

  /** A client's turn to be woken has begun. */
  predicate TurnBegun(pc: Pc) {
    pc.InTurn? || pc.Verifying?
  }

  /** Past the last look that could stop the sequence: the last client's turn has
      begun. */
  predicate TooLate(pc: Pc) {
    (pc.InWake? && pc.left == 0) || (TurnBegun(pc) && pc.left == 0) || pc.Finishing? || pc.Releasing? || pc.Clearing?
  }

  predicate PastLoop(pc: Pc) {
    pc.PostCheck? || pc.PostIssue? || pc.PostSave? || pc.GateSave? || pc.AtGate? || pc.InWake? || TurnBegun(pc) || TooLate(pc)
  }

  /** The stage loop ends, or has ended, without shouldAbort being asked again. */
  predicate LoopEndsUnasked(p: Plan, db: Db, a: Active) {
    var n := |p.stages|;
    match a.pc
    case FirstSave => n == 0
    case Resuming => !a.row.phase.ShuttingDown? || ResumeAt(db, a.id, n, 0) == n
    case Reconciling(i) => i == n
    case LoopTop(i) => i == n
    case Expiring(i) => i + 1 == n
    case _ => PastLoop(a.pc) || (Hand(a.pc).Some? && Hand(a.pc).value + 1 == n)
  }

  /** The request is found at the gate, or in the wake loop before a client. */
  predicate Abandons(s: State, l: Label) {
    s.proc.Running? && l == Main(AbortNow) && (s.proc.act.pc.AtGate? || s.proc.act.pc.InWake?)
  }

  /** How one step with a request pending looks backwards. */
  ghost predicate Backs(p: Plan, db: Db, a: Active, db': Db, a': Active) {
    && a'.id == a.id && a'.abortReq && a'.row.plan == a.row.plan
    && (a.row.ponr ==> a'.row.ponr)
    && (a.row.aborted ==> a'.row.aborted)
    && (!a'.row.ponr && Hand(a'.pc).Some? ==> Hand(a.pc) == Hand(a'.pc))
    && (!a'.row.aborted && TooLate(a'.pc) ==> TooLate(a.pc) || p.wakes == 0)
    && (!a'.row.ponr && !a'.row.aborted && LoopEndsUnasked(p, db', a') ==> LoopEndsUnasked(p, db, a))
    && (TurnBegun(a'.pc) ==> SameTurn(a.pc, a'.pc))
  }

  /** The same client's turn, no attempt gained. */
  predicate SameTurn(pc: Pc, pc': Pc) {
    TurnBegun(pc) && TurnBegun(pc') && pc.left == pc'.left && pc'.tries <= pc.tries
  }

  predicate Starting(pc: Pc) {
    pc.FirstSave? || pc.Resuming? || pc.Reconciling?
  }

  predicate Posting(pc: Pc) {
    pc.PostCheck? || pc.PostIssue? || pc.PostSave? || pc.GateSave?
  }

  predicate Polling(pc: Pc) {
    pc.Waiting? || pc.WaitAbort? || pc.Expiring?
  }

  lemma PollBacks(p: Plan, db: Db, a: Active, o: Outcome)
    requires a.abortReq && Polling(a.pc) && WaitStep(p, a, o).Some?
    ensures var e := WaitStep(p, a, o).value; Backs(p, db, a, After(db, e.op), e.act)
  {
  }

  lemma CheckBacks(p: Plan, db: Db, a: Active, o: Outcome)
    requires a.abortReq && (a.pc.LoopTop? || a.pc.AbortCheck?) && a.pc.i <= |p.stages| && CheckStep(p, a, o).Some?
    ensures var e := CheckStep(p, a, o).value; Backs(p, db, a, After(db, e.op), e.act)
  {
  }

  lemma StageBacks(p: Plan, db: Db, a: Active, o: Outcome)
    requires a.abortReq && InLoop(a.pc) && !Polling(a.pc) && !a.pc.LoopTop? && !a.pc.AbortCheck?
    requires MainStep(p, db, a, o).Some?
    ensures var e := MainStep(p, db, a, o).value; Backs(p, db, a, After(db, e.op), e.act)
  {
  }

  lemma LoopBacks(p: Plan, db: Db, a: Active, o: Outcome)
    requires a.abortReq && InLoop(a.pc) && a.pc.i <= |p.stages| && MainStep(p, db, a, o).Some?
    ensures var e := MainStep(p, db, a, o).value; Backs(p, db, a, After(db, e.op), e.act)
  {
    if Polling(a.pc) {
      PollBacks(p, db, a, o);
    } else if a.pc.LoopTop? || a.pc.AbortCheck? {
      CheckBacks(p, db, a, o);
    } else {
      StageBacks(p, db, a, o);
    }
  }

  lemma PostBacks(p: Plan, db: Db, a: Active, o: Outcome)
    requires a.abortReq && Posting(a.pc) && MainStep(p, db, a, o).Some?
    ensures var e := MainStep(p, db, a, o).value; Backs(p, db, a, After(db, e.op), e.act)
  {
  }

  lemma StartBacks(p: Plan, db: Db, a: Active, o: Outcome)
    requires a.abortReq && Starting(a.pc) && MainStep(p, db, a, o).Some?
    requires PhaseFits(a.pc, a.row) && (a.pc.FirstSave? ==> a.row.stage == 0)
    ensures var e := MainStep(p, db, a, o).value; Backs(p, db, a, After(db, e.op), e.act)
  {
  }

  lemma AbortBacks(p: Plan, db: Db, a: Active, o: Outcome)
    requires a.abortReq && (a.pc.AbortSave? || a.pc.AbortSettle?) && MainStep(p, db, a, o).Some?
    requires PhaseFits(a.pc, a.row)
    ensures var e := MainStep(p, db, a, o).value; Backs(p, db, a, After(db, e.op), e.act)
  {
  }

  lemma WakeBacks(p: Plan, db: Db, a: Active, o: Outcome)
    requires a.abortReq && !InLoop(a.pc) && !Posting(a.pc) && !Starting(a.pc) && !a.pc.AbortSave? && !a.pc.AbortSettle?
    requires MainStep(p, db, a, o).Some?
    ensures var e := MainStep(p, db, a, o).value; Backs(p, db, a, After(db, e.op), e.act)
  {
  }

  lemma MainBacks(cfg: Config, db: Db, a: Active, o: Outcome)
    requires a.abortReq && ActiveFits(cfg, db, a) && MainStep(cfg.plans[a.row.plan], db, a, o).Some?
    ensures var e := MainStep(cfg.plans[a.row.plan], db, a, o).value;
      Backs(cfg.plans[a.row.plan], db, a, After(db, e.op), e.act)
  {
    if InLoop(a.pc) {
      LoopBacks(cfg.plans[a.row.plan], db, a, o);
    } else if Posting(a.pc) {
      PostBacks(cfg.plans[a.row.plan], db, a, o);
    } else if a.pc.AbortSave? || a.pc.AbortSettle? {
      AbortBacks(cfg.plans[a.row.plan], db, a, o);
    } else if Starting(a.pc) {
      StartBacks(cfg.plans[a.row.plan], db, a, o);
    } else {
      WakeBacks(cfg.plans[a.row.plan], db, a, o);
    }
  }

  lemma ClientBacks(cfg: Config, p: Plan, db: Db, a: Active, newId: IntentId, c: Client, o: ClientOutcome)
    requires a.abortReq && a.pc.InStage? && c in a.pc.clients && ClientEffect(cfg, db, a, newId, c, o).Some?
    ensures var e := ClientEffect(cfg, db, a, newId, c, o).value; Backs(p, db, a, After(db, e.op), e.act)
  {
    assert ClientEffect(cfg, db, a, newId, c, o).value.act.row == a.row;
  }

  lemma RunBacks(cfg: Config, s: State, l: Label)
    requires HasPlan(cfg, s) && ActiveFits(cfg, s.disk.Current(), s.proc.act) && s.proc.act.abortReq
    requires OfRun(l) && RunEffect(cfg, s, l).Some?
    ensures var e := RunEffect(cfg, s, l).value;
      Backs(cfg.plans[s.proc.act.row.plan], s.disk.Current(), s.proc.act, After(s.disk.Current(), e.op), e.act)
  {
    match l
    case Main(o) => MainBacks(cfg, s.disk.Current(), s.proc.act, o);
    case ClientStep(c, o) =>
      ClientBacks(cfg, cfg.plans[s.proc.act.row.plan], s.disk.Current(), s.proc.act, s.nextIntent, c, o);
    case RequestAbort =>
    case RequestProceed =>
  }

  // ---------------------------------------------------------------------
  // From the request to the end of the process's work on the sequence.

  /** `id` is done with, as far as this process is concerned. */
  predicate Left(s: State, id: SeqId) {
    !s.proc.Down? && id < s.nextSeq && (s.proc.Running? ==> s.proc.act.id != id)
  }

  /** Where a request accepted in state `s` can have got to in state `t`. */
  ghost predicate Since(cfg: Config, s: State, t: State, id: SeqId) {
    && Pending(t, id) && HasPlan(cfg, s) && t.proc.act.row.plan == s.proc.act.row.plan
    && var p := cfg.plans[s.proc.act.row.plan];
      Backs(p, s.disk.Current(), s.proc.act, t.disk.Current(), t.proc.act)
  }

  lemma RequestStep(cfg: Config, s: State, t: State, l: Label, t': State, id: SeqId)
    requires Inv(cfg, t) && StepOf(cfg, t, l, t') && !IsCrash(l)
    requires Since(cfg, s, t, id) || Left(t, id)
    ensures Since(cfg, s, t', id) || Left(t', id)
  {
    if OfRun(l) {
      if Since(cfg, s, t, id) {
        RunBacks(cfg, t, l);
      } else {
        RunKeepsPlan(cfg, t, l);
      }
    }
  }

  /** Step `i` accepts an abort request for `id`. */
  ghost predicate Accepts(ss: seq<State>, i: nat, id: SeqId) {
    i + 1 < |ss| && Emits(ss[i], ss[i + 1], AbortAnswer(id, true))
  }

  lemma RequestAccepted(cfg: Config, ss: seq<State>, ls: seq<Label>, i: nat, id: SeqId)
    requires IsRun(cfg, ss, ls) && Accepts(ss, i, id)
    ensures ss[i].proc.Running? && ss[i].proc.act.id == id && !ss[i].proc.act.row.ponr
    ensures Since(cfg, ss[i], ss[i + 1], id)
  {
    assert StepAt(cfg, ss, ls, i);
    EventSource(cfg, ss[i], ls[i], ss[i + 1], AbortAnswer(id, true));
    MainEventsOnly(cfg, ss[i], ls[i]);
  }

  lemma {:induction false} RequestSince(cfg: Config, ss: seq<State>, ls: seq<Label>, i: nat, j: nat, id: SeqId)
    requires IsRun(cfg, ss, ls) && Accepts(ss, i, id) && i < j < |ss| && StaysUp(ls, i + 1, j)
    ensures Since(cfg, ss[i], ss[j], id) || Left(ss[j], id)
    decreases j - i
  {
    if j == i + 1 {
      RequestAccepted(cfg, ss, ls, i, id);
    } else {
      RequestSince(cfg, ss, ls, i, j - 1, id);
      assert StepAt(cfg, ss, ls, j - 1);
      RunInv(cfg, ss, ls, j - 1);
      RequestStep(cfg, ss[i], ss[j - 1], ls[j - 1], ss[j], id);
    }
  }

  /** After an accepted request, short of a crash, only the stage already in hand
      can still be commanded, unless the point of no return is crossed first. */
  lemma NoNewStageAfterRequest(cfg: Config, ss: seq<State>, ls: seq<Label>, i: nat, j: nat,
                               id: SeqId, stage: nat, c: Client, n: IntentId)
    requires IsRun(cfg, ss, ls) && Accepts(ss, i, id) && i < j < |ls| && StaysUp(ls, i + 1, j)
    requires Emits(ss[j], ss[j + 1], Command(id, stage, c, n))
    ensures ss[i].proc.Running? && ss[j].proc.Running?
    ensures ss[j].proc.act.row.ponr || Hand(ss[i].proc.act.pc) == Some(stage)
  {
    RequestAccepted(cfg, ss, ls, i, id);
    assert StepAt(cfg, ss, ls, j);
    CommandSource(cfg, ss[j], ls[j], ss[j + 1], id, stage, c, n);
    RequestSince(cfg, ss, ls, i, j, id);
  }

  // ---------------------------------------------------------------------
  // Whether the sequence ends `aborted`.

  /** Nothing will look for the request any more, and nothing has. */
  predicate Missed(s: State) {
    s.proc.Running? && TooLate(s.proc.act.pc) && !s.proc.act.row.aborted
  }

  /** The gate is found open with no abort entered. */
  predicate OpensGate(s: State, l: Label) {
    s.proc.Running? && l == Main(GateOpen) && !s.proc.act.row.aborted
  }

  lemma LateMoves(p: Plan, db: Db, a: Active, o: Outcome)
    requires TooLate(a.pc) && MainStep(p, db, a, o).Some?
    ensures var a' := MainStep(p, db, a, o).value.act; TooLate(a'.pc) && a'.row.aborted == a.row.aborted
  {
  }

  lemma StaysMissed(cfg: Config, s: State, l: Label, s': State, id: SeqId)
    requires StepOf(cfg, s, l, s') && Pending(s, id) && Pending(s', id) && Missed(s)
    ensures Missed(s')
  {
    if l.Main? {
      LateMoves(cfg.plans[s.proc.act.row.plan], s.disk.Current(), s.proc.act, l.o);
    }
  }

  /** With a request pending, the only way past the last look is an open gate with
      nobody to wake. */
  lemma LateBy(p: Plan, db: Db, a: Active, o: Outcome)
    requires MainStep(p, db, a, o).Some? && a.abortReq && !TooLate(a.pc)
    ensures var a' := MainStep(p, db, a, o).value.act;
      TooLate(a'.pc) && !a'.row.aborted <==> o.GateOpen? && p.wakes == 0 && !a.row.aborted
  {
    if InLoop(a.pc) {
      LoopIsNotLate(p, db, a, o);
    }
  }

  lemma LoopIsNotLate(p: Plan, db: Db, a: Active, o: Outcome)
    requires InLoop(a.pc) && MainStep(p, db, a, o).Some?
    ensures !TooLate(MainStep(p, db, a, o).value.act.pc) && !o.GateOpen?
  {
  }

  lemma StepMisses(cfg: Config, s: State, l: Label, s': State, id: SeqId)
    requires StepOf(cfg, s, l, s') && !IsCrash(l) && Pending(s, id) && Pending(s', id) && !Missed(s)
    ensures HasPlan(cfg, s)
    ensures Missed(s') <==> OpensGate(s, l) && cfg.plans[s.proc.act.row.plan].wakes == 0
  {
    if l.Main? {
      if TooLate(s.proc.act.pc) {
        LateMoves(cfg.plans[s.proc.act.row.plan], s.disk.Current(), s.proc.act, l.o);
      } else {
        LateBy(cfg.plans[s.proc.act.row.plan], s.disk.Current(), s.proc.act, l.o);
      }
    }
  }

  /** Between states `i` and `j` the gate is found open with no abort entered. */
  ghost predicate GateOpened(ss: seq<State>, ls: seq<Label>, i: nat, j: nat)
    requires j < |ss| == |ls| + 1
  {
    exists m | i < m < j :: OpensGate(ss[m], ls[m])
  }

  lemma MissedStep(cfg: Config, ss: seq<State>, ls: seq<Label>, i: nat, m: nat, id: SeqId)
    requires IsRun(cfg, ss, ls) && Accepts(ss, i, id) && i < m < |ls| && StaysUp(ls, i + 1, m + 1)
    requires Since(cfg, ss[i], ss[m + 1], id)
    ensures Since(cfg, ss[i], ss[m], id)
    ensures Missed(ss[m + 1]) <==>
      Missed(ss[m]) || (OpensGate(ss[m], ls[m]) && cfg.plans[ss[i].proc.act.row.plan].wakes == 0)
  {
    SinceBefore(cfg, ss, ls, i, m, id);
    assert StepAt(cfg, ss, ls, m);
    if Missed(ss[m]) {
      StaysMissed(cfg, ss[m], ls[m], ss[m + 1], id);
    } else {
      StepMisses(cfg, ss[m], ls[m], ss[m + 1], id);
    }
  }

  lemma {:induction false} MissedExactly(cfg: Config, ss: seq<State>, ls: seq<Label>, i: nat, j: nat, id: SeqId)
    requires IsRun(cfg, ss, ls) && Accepts(ss, i, id) && i < j < |ss| && StaysUp(ls, i + 1, j)
    requires Since(cfg, ss[i], ss[j], id)
    ensures Missed(ss[j]) <==>
      Missed(ss[i]) || (GateOpened(ss, ls, i, j) && cfg.plans[ss[i].proc.act.row.plan].wakes == 0)
    decreases j - i
  {
    if j == i + 1 {
      AcceptingMarksNothing(cfg, ss, ls, i, id);
    } else {
      MissedStep(cfg, ss, ls, i, j - 1, id);
      MissedExactly(cfg, ss, ls, i, j - 1, id);
    }
  }

  /** Short of a crash, the sequence in which a request was accepted ends without
      being `aborted` exactly when the request came after the last client's turn to
      be woken had begun, or there is no client to wake and the gate was found
      open. */
  lemma RequestEndsAborted(cfg: Config, ss: seq<State>, ls: seq<Label>, i: nat, j: nat, id: SeqId)
    requires IsRun(cfg, ss, ls) && Accepts(ss, i, id) && i < j < |ss| && StaysUp(ls, i + 1, j)
    requires ss[j].proc.Running? && ss[j].proc.act.id == id && Over(ss[j].proc.act.pc)
    ensures HasPlan(cfg, ss[i])
    ensures !ss[j].proc.act.row.phase.Aborted? <==>
      Missed(ss[i]) || (GateOpened(ss, ls, i, j) && cfg.plans[ss[i].proc.act.row.plan].wakes == 0)
  {
    RequestAccepted(cfg, ss, ls, i, id);
    RequestSince(cfg, ss, ls, i, j, id);
    RunInv(cfg, ss, ls, j);
    assert FlagsAgree(ss[j].proc.act.row);
    MissedExactly(cfg, ss, ls, i, j, id);
  }

  // ---------------------------------------------------------------------
  // Every way it can end.

  /** A sequence is marked aborted by entering the abort path or by abandoning
      the wake. */
  lemma MarkedBy(p: Plan, db: Db, a: Active, o: Outcome)
    requires MainStep(p, db, a, o).Some? && !a.row.aborted && MainStep(p, db, a, o).value.act.row.aborted
    ensures MainStep(p, db, a, o).value.events == [AbortEntered(a.id)] || (o == AbortNow && (a.pc.AtGate? || a.pc.InWake?))
  {
    if InLoop(a.pc) {
      LoopMarksNothing(p, db, a, o);
    }
  }

  lemma LoopMarksNothing(p: Plan, db: Db, a: Active, o: Outcome)
    requires InLoop(a.pc) && MainStep(p, db, a, o).Some?
    ensures MainStep(p, db, a, o).value.act.row.aborted == a.row.aborted
  {
  }

  lemma StepMarks(cfg: Config, s: State, l: Label, s': State, id: SeqId)
    requires StepOf(cfg, s, l, s') && Pending(s, id) && Pending(s', id) && !IsCrash(l)
    requires !s.proc.act.row.aborted && s'.proc.act.row.aborted
    ensures Emits(s, s', AbortEntered(id)) || Abandons(s, l)
  {
    if l.Main? {
      MarkedBy(cfg.plans[s.proc.act.row.plan], s.disk.Current(), s.proc.act, l.o);
    }
  }

  /** The step after `i` at which the sequence was marked aborted. */
  lemma {:induction false} MarkedAt(cfg: Config, ss: seq<State>, ls: seq<Label>, i: nat, j: nat, id: SeqId) returns (m: nat)
    requires IsRun(cfg, ss, ls) && Accepts(ss, i, id) && i < j < |ss| && StaysUp(ls, i + 1, j)
    requires ss[i].proc.Running? && !ss[i].proc.act.row.aborted
    requires Since(cfg, ss[i], ss[j], id) && ss[j].proc.act.row.aborted
    ensures i < m < j && Since(cfg, ss[i], ss[m], id) && !ss[m].proc.act.row.aborted
    ensures Emits(ss[m], ss[m + 1], AbortEntered(id)) || Abandons(ss[m], ls[m])
    decreases j - i
  {
    AcceptingMarksNothing(cfg, ss, ls, i, id);
    m := j - 1;
    SinceBefore(cfg, ss, ls, i, m, id);
    if ss[m].proc.act.row.aborted {
      m := MarkedAt(cfg, ss, ls, i, m, id);
    } else {
      assert StepAt(cfg, ss, ls, m);
      StepMarks(cfg, ss[m], ls[m], ss[m + 1], id);
    }
  }

  lemma SinceBefore(cfg: Config, ss: seq<State>, ls: seq<Label>, i: nat, m: nat, id: SeqId)
    requires IsRun(cfg, ss, ls) && Accepts(ss, i, id) && i < m < |ls| && StaysUp(ls, i + 1, m + 1)
    requires Since(cfg, ss[i], ss[m + 1], id)
    ensures Since(cfg, ss[i], ss[m], id)
  {
    RequestSince(cfg, ss, ls, i, m, id);
    assert StepAt(cfg, ss, ls, m);
    NotLeftBefore(cfg, ss[m], ls[m], ss[m + 1], id);
  }

  lemma AcceptingMarksNothing(cfg: Config, ss: seq<State>, ls: seq<Label>, i: nat, id: SeqId)
    requires IsRun(cfg, ss, ls) && Accepts(ss, i, id) && ss[i].proc.Running?
    ensures ss[i + 1].proc.Running? && ss[i + 1].proc.act.row == ss[i].proc.act.row
    ensures ss[i + 1].proc.act.pc == ss[i].proc.act.pc
  {
    assert StepAt(cfg, ss, ls, i);
    EventSource(cfg, ss[i], ls[i], ss[i + 1], AbortAnswer(id, true));
    MainEventsOnly(cfg, ss[i], ls[i]);
  }

  lemma NotLeftBefore(cfg: Config, s: State, l: Label, s': State, id: SeqId)
    requires StepOf(cfg, s, l, s') && Pending(s', id) && !IsCrash(l)
    ensures !Left(s, id)
  {
    if OfRun(l) {
      RunKeepsPlan(cfg, s, l);
    }
  }

  /** Every fate of an accepted request, short of a crash: it came too late to be
      looked for, or the abort path was entered, or the wake was abandoned; and
      that last only if the point of no return had been crossed meanwhile or no
      stage was left to be asked about. */
  lemma RequestFate(cfg: Config, ss: seq<State>, ls: seq<Label>, i: nat, j: nat, id: SeqId)
    requires IsRun(cfg, ss, ls) && Accepts(ss, i, id) && i < j < |ss| && StaysUp(ls, i + 1, j)
    requires ss[j].proc.Running? && ss[j].proc.act.id == id && Over(ss[j].proc.act.pc)
    requires ss[i].proc.Running? && !ss[i].proc.act.row.aborted && HasPlan(cfg, ss[i])
    ensures var a := ss[i].proc.act; var p := cfg.plans[a.row.plan];
      || TooLate(a.pc) || (GateOpened(ss, ls, i, j) && p.wakes == 0)
      || (exists m | i < m < j :: Emits(ss[m], ss[m + 1], AbortEntered(id)))
      || (exists m | i < m < j :: Abandons(ss[m], ls[m]) &&
            (ss[m].proc.act.row.ponr || LoopEndsUnasked(p, ss[i].disk.Current(), a)))
  {
    RequestEndsAborted(cfg, ss, ls, i, j, id);
    RequestSince(cfg, ss, ls, i, j, id);
    RunInv(cfg, ss, ls, j);
    var a := ss[i].proc.act;
    if ss[j].proc.act.row.phase.Aborted? {
      assert FlagsAgree(ss[j].proc.act.row);
      var m := MarkedAt(cfg, ss, ls, i, j, id);
      if Abandons(ss[m], ls[m]) {
        assert PastLoop(ss[m].proc.act.pc);
      }
    }
  }

  // ---------------------------------------------------------------------
  // Wake commands after a request.

  /** Nothing ever clears a request, so once one is accepted, the process that
      accepted it sends wake commands only to the client whose turn had begun. */
  lemma OnlyTheTurnBegunIsWoken(cfg: Config, ss: seq<State>, ls: seq<Label>, i: nat, j: nat, id: SeqId)
    requires IsRun(cfg, ss, ls) && Accepts(ss, i, id) && i < j < |ls| && StaysUp(ls, i + 1, j)
    requires Emits(ss[j], ss[j + 1], WakeSent(id))
    ensures ss[i].proc.Running? && ss[j].proc.Running? && SameTurn(ss[i].proc.act.pc, ss[j].proc.act.pc)
  {
    RequestAccepted(cfg, ss, ls, i, id);
    assert StepAt(cfg, ss, ls, j);
    WakeSource(cfg, ss[j], ls[j], ss[j + 1], id);
    RequestSince(cfg, ss, ls, i, j, id);
  }

  /** The boot deadline passes before a pending request is looked for. */
  predicate ExpiresUnseen(s: State, l: Label, id: SeqId) {
    Pending(s, id) && s.proc.act.pc.Verifying? && l == Main(Expired)
  }

  predicate Sending(s: State, id: SeqId) {
    s.proc.Running? && s.proc.act.id == id && s.proc.act.pc.InTurn?
  }

  lemma TurnMoves(p: Plan, db: Db, a: Active, o: Outcome)
    requires MainStep(p, db, a, o).Some? && TurnBegun(MainStep(p, db, a, o).value.act.pc)
    ensures var pc' := MainStep(p, db, a, o).value.act.pc;
      || (a.pc.InWake? && o.NoAbort? && !a.abortReq)
      || (SameTurn(a.pc, pc') && (pc'.InTurn? ==> a.pc.Verifying? && o.Expired? && pc'.tries > 0))
  {
    if InLoop(a.pc) {
      LoopIsNotTurn(p, db, a, o);
    }
  }

  lemma LoopIsNotTurn(p: Plan, db: Db, a: Active, o: Outcome)
    requires InLoop(a.pc) && MainStep(p, db, a, o).Some?
    ensures !TurnBegun(MainStep(p, db, a, o).value.act.pc)
  {
  }

  lemma SendsAgainBy(cfg: Config, s: State, l: Label, s': State, id: SeqId)
    requires StepOf(cfg, s, l, s') && !IsCrash(l) && Pending(s, id) && Sending(s', id) && !Sending(s, id)
    ensures ExpiresUnseen(s, l, id)
  {
    if l.Main? {
      TurnMoves(cfg.plans[s.proc.act.row.plan], s.disk.Current(), s.proc.act, l.o);
    }
  }

  /** The step after `j` that makes the sequence send again. */
  lemma {:induction false} SendsAgainAt(cfg: Config, ss: seq<State>, ls: seq<Label>, i: nat, j: nat, k: nat, id: SeqId)
    returns (m: nat)
    requires IsRun(cfg, ss, ls) && Accepts(ss, i, id) && i < j < k < |ss| && StaysUp(ls, i + 1, k)
    requires Since(cfg, ss[i], ss[k], id) && Sending(ss[k], id) && !Sending(ss[j], id)
    ensures j <= m < k && ExpiresUnseen(ss[m], ls[m], id)
    decreases k
  {
    m := k - 1;
    SinceBefore(cfg, ss, ls, i, m, id);
    if Sending(ss[m], id) {
      m := SendsAgainAt(cfg, ss, ls, i, j, m, id);
    } else {
      assert StepAt(cfg, ss, ls, m);
      SendsAgainBy(cfg, ss[m], ls[m], ss[m + 1], id);
    }
  }

  /** At most one wake command follows an accepted request, unless the boot
      deadline of an attempt passes before that attempt looks for the request. */
  lemma OneWakeAfterRequest(cfg: Config, ss: seq<State>, ls: seq<Label>, i: nat, j: nat, k: nat, id: SeqId)
    requires IsRun(cfg, ss, ls) && Accepts(ss, i, id) && i < j < k < |ls| && StaysUp(ls, i + 1, k)
    requires Emits(ss[j], ss[j + 1], WakeSent(id)) && Emits(ss[k], ss[k + 1], WakeSent(id))
    ensures exists m | j < m < k :: ExpiresUnseen(ss[m], ls[m], id)
  {
    assert StepAt(cfg, ss, ls, j) && StepAt(cfg, ss, ls, k);
    WakeSource(cfg, ss[j], ls[j], ss[j + 1], id);
    WakeSource(cfg, ss[k], ls[k], ss[k + 1], id);
    RequestSince(cfg, ss, ls, i, k, id);
    assert j + 1 < k;
    var m := SendsAgainAt(cfg, ss, ls, i, j + 1, k, id);
  }

  // ---------------------------------------------------------------------
  // Which wake commands are still to come.

  /** The client in turn may still be sent a wake command. */
  predicate CanStillWake(pc: Pc) {
    TurnBegun(pc) && pc.tries > 0
  }

  /** A request is pending and no turn can send any more, or the sequence is past
      its stages with nobody to wake. */
  predicate WakesNobody(cfg: Config, s: State) {
    && HasPlan(cfg, s)
    && var a := s.proc.act;
      || (a.abortReq && !CanStillWake(a.pc))
      || (cfg.plans[a.row.plan].wakes == 0 &&
          (a.pc.AbortSettle? || a.pc.AtGate? || a.pc == InWake(0) || Over(a.pc) || a.pc.Finishing?))
  }

  lemma PendingWakesNobody(p: Plan, db: Db, a: Active, o: Outcome)
    requires MainStep(p, db, a, o).Some? && a.abortReq && !CanStillWake(a.pc)
    ensures !o.SendWake?
    ensures var a' := MainStep(p, db, a, o).value.act; a'.abortReq && !CanStillWake(a'.pc)
  {
    if CanStillWake(MainStep(p, db, a, o).value.act.pc) {
      TurnMoves(p, db, a, o);
    }
    if InLoop(a.pc) {
      LoopSendsNothing(p, db, a, o);
    }
  }

  lemma LoopSendsNothing(p: Plan, db: Db, a: Active, o: Outcome)
    requires InLoop(a.pc) && MainStep(p, db, a, o).Some?
    ensures !o.SendWake? && MainStep(p, db, a, o).value.act.abortReq == a.abortReq
  {
  }

  lemma StepWakesNobody(cfg: Config, s: State, l: Label, s': State)
    requires StepOf(cfg, s, l, s') && OfRun(l) && WakesNobody(cfg, s)
    ensures WakesNobody(cfg, s') && l != Main(SendWake)
  {
    var a := s.proc.act;
    RunKeepsPlan(cfg, s, l);
    if l.Main? && a.abortReq && !CanStillWake(a.pc) {
      PendingWakesNobody(cfg.plans[a.row.plan], s.disk.Current(), a, l.o);
    }
  }

  lemma {:induction false} PathWakesNobody(cfg: Config, s: State, path: seq<Label>, t: State)
    requires Path(cfg, s, path, t) && WakesNobody(cfg, s)
    ensures WakesNobody(cfg, t) && Main(SendWake) !in path
  {
    if path != [] {
      var shorter := path[..|path| - 1];
      var v := LastStep(cfg, s, path, t);
      PathWakesNobody(cfg, s, shorter, v);
      StepWakesNobody(cfg, v, path[|path| - 1], t);
      assert path == shorter + [path[|path| - 1]];
    }
  }

  lemma PathOn(cfg: Config, s: State, path: seq<Label>, t: State, l: Label) returns (u: State)
    requires Path(cfg, s, path, t) && OfRun(l) && Next(cfg, t, l).Some?
    ensures Path(cfg, s, path + [l], u) && u == Next(cfg, t, l).value
  {
    u := Next(cfg, t, l).value;
    assert (path + [l])[..|path|] == path;
  }

  /** Where the shortest way to a wake command leads next. */
  function TowardsWake(p: Plan, pc: Pc): Pc {
    match pc
    case AbortSettle => AtGate
    case AtGate => InWake(p.wakes)
    case InWake(left) => if left > 0 then InTurn(left - 1, 1 + p.retries) else pc
    case Verifying(left, tries) => InTurn(left, tries)
    case InTurn(left, tries) => if tries > 0 then Verifying(left, tries - 1) else pc
    case _ => pc
  }

  predicate NextInWake(pc: Pc, l: Label) {
    || (pc.AbortSettle? && l == Main(Plain))
    || (pc.AtGate? && l == Main(GateOpen))
    || (pc.InWake? && pc.left > 0 && l == Main(NoAbort))
    || (pc.Verifying? && pc.tries > 0 && l == Main(Expired))
    || (pc.InTurn? && pc.tries > 0 && l == Main(SendWake))
  }

  lemma WakeMoves(cfg: Config, s: State, l: Label)
    requires HasPlan(cfg, s) && NextInWake(s.proc.act.pc, l) && (s.proc.act.abortReq ==> TurnBegun(s.proc.act.pc))
    ensures Next(cfg, s, l).Some? && HasPlan(cfg, Next(cfg, s, l).value)
    ensures var a, a' := s.proc.act, Next(cfg, s, l).value.proc.act;
      && a'.abortReq == a.abortReq && a'.row.plan == a.row.plan
      && a'.pc == TowardsWake(cfg.plans[a.row.plan], a.pc)
  {
  }

  lemma WakesOn(cfg: Config, s: State, path: seq<Label>, t: State, l: Label) returns (longer: seq<Label>, u: State)
    requires Path(cfg, s, path, t) && HasPlan(cfg, t) && NextInWake(t.proc.act.pc, l)
    requires t.proc.act.abortReq ==> TurnBegun(t.proc.act.pc)
    ensures Path(cfg, s, longer, u) && longer == path + [l] && HasPlan(cfg, u)
    ensures u.proc.act.abortReq == t.proc.act.abortReq && u.proc.act.row.plan == t.proc.act.row.plan
    ensures u.proc.act.pc == TowardsWake(cfg.plans[t.proc.act.row.plan], t.proc.act.pc)
  {
    WakeMoves(cfg, t, l);
    u := PathOn(cfg, s, path, t, l);
    longer := path + [l];
  }

  lemma StartsHere(cfg: Config, s: State) returns (path: seq<Label>)
    ensures Path(cfg, s, path, s)
  {
    path := [];
  }

  ghost predicate WakeAhead(cfg: Config, s: State) {
    exists path, t :: Path(cfg, s, path, t) && Main(SendWake) in path
  }

  /** After an accepted request a wake command can still go out exactly when a
      client's turn has begun and has attempts left. */
  lemma WokenAfterRequestExactly(cfg: Config, s: State)
    requires HasPlan(cfg, s) && s.proc.act.abortReq
    ensures WakeAhead(cfg, s) <==> CanStillWake(s.proc.act.pc)
  {
    if CanStillWake(s.proc.act.pc) {
      var path := StartsHere(cfg, s);
      var t := s;
      if t.proc.act.pc.Verifying? {
        path, t := WakesOn(cfg, s, path, t, Main(Expired));
      }
      path, t := WakesOn(cfg, s, path, t, Main(SendWake));
    } else {
      forall path, t | Path(cfg, s, path, t) ensures Main(SendWake) !in path {
        PathWakesNobody(cfg, s, path, t);
      }
    }
  }

  lemma AbortLeadsToWake(cfg: Config, s: State)
    requires HasPlan(cfg, s) && s.proc.act.pc.AbortSettle? && !s.proc.act.abortReq
    requires cfg.plans[s.proc.act.row.plan].wakes > 0
    ensures WakeAhead(cfg, s)
  {
    var path := StartsHere(cfg, s);
    var t := s;
    path, t := WakesOn(cfg, s, path, t, Main(Plain));
    path, t := WakesOn(cfg, s, path, t, Main(GateOpen));
    path, t := WakesOn(cfg, s, path, t, Main(NoAbort));
    path, t := WakesOn(cfg, s, path, t, Main(SendWake));
  }

  /** The abort path hands over to a wake that can send a wake command exactly when
      no operator's request is pending and there is a client in the wake order: an
      abort the operator asked for never does, one only the plan's condition caused
      can. */
  lemma AbortWakesExactly(cfg: Config, s: State)
    requires HasPlan(cfg, s) && s.proc.act.pc.AbortSettle?
    ensures WakeAhead(cfg, s) <==> !s.proc.act.abortReq && cfg.plans[s.proc.act.row.plan].wakes > 0
  {
    if !s.proc.act.abortReq && cfg.plans[s.proc.act.row.plan].wakes > 0 {
      AbortLeadsToWake(cfg, s);
    } else {
      forall path, t | Path(cfg, s, path, t) ensures Main(SendWake) !in path {
        PathWakesNobody(cfg, s, path, t);
      }
    }
  }
}

/** How often a client can be commanded and the post-shutdown action issued. */
module ExecutorCounts {
  import opened Tables
  import opened Machine
  import opened ExecutorInvariant
  import opened ExecutorInduction
  import opened ExecutorRuns

  function Count(t: seq<Event>, p: Event -> bool): nat {
    if t == [] then 0
    else Count(t[..|t| - 1], p) + if p(t[|t| - 1]) then 1 else 0
  }

  function CommandTo(id: SeqId, c: Client): Event -> bool {
    (e: Event) => e.Command? && e.id == id && e.client == c
  }

  function ResumeOf(id: SeqId): Event -> bool {
    (e: Event) => e.Resumed? && e.id == id
  }

  function AnyResume(): Event -> bool {
    (e: Event) => e.Resumed?
  }

  function AnyCrash(): Event -> bool {
    (e: Event) => e.Crashed?
  }

  function PostOf(id: SeqId): Event -> bool {
    (e: Event) => e.PostIssued? && e.id == id
  }

  /** A crash that loses the flag of `id`'s issued post-shutdown action. */
  function ReopenOf(id: SeqId): Event -> bool {
    (e: Event) => e.Crashed? && id in e.reopened
  }

  lemma CountGrows(t: seq<Event>, es: seq<Event>, p: Event -> bool)
    requires |es| <= 1
    ensures Count(t + es, p) == Count(t, p) + if |es| == 1 && p(es[0]) then 1 else 0
  {
    if |es| == 0 {
      assert t + es == t;
    } else {
      assert (t + es)[..|t|] == t;
    }
  }

  lemma {:induction false} CountMonotone(t: seq<Event>, p: Event -> bool, q: Event -> bool)
    requires forall e :: p(e) ==> q(e)
    ensures Count(t, p) <= Count(t, q)
  {
    if t != [] {
      CountMonotone(t[..|t| - 1], p, q);
    }
  }

  /** The events of a step. */
  function NewEvents(cfg: Config, s: State, l: Label): seq<Event>
    requires Next(cfg, s, l).Some?
  {
    if OfRun(l) then RunEffect(cfg, s, l).value.events
    else if IsCrash(l) then [Crashed(Reopened(s, Next(cfg, s, l).value.disk.Current()))]
    else if l.RestartResume? then [Resumed(l.id)]
    else []
  }

  lemma StepEvents(cfg: Config, s: State, l: Label, s': State)
    requires StepOf(cfg, s, l, s')
    ensures s'.trace == s.trace + NewEvents(cfg, s, l) && |NewEvents(cfg, s, l)| <= 1
    ensures forall e | e in NewEvents(cfg, s, l) && e.Command? ::
      && l == ClientStep(e.client, Send) && s.proc.Running? && s.proc.act.pc.InStage?
      && e.id == s.proc.act.id && e.client in s.proc.act.pc.clients && s.proc.act.pc.clients[e.client].Recording?
    ensures forall e | e in NewEvents(cfg, s, l) && e.PostIssued? ::
      s.proc.Running? && s.proc.act.pc.PostIssue? && e.id == s.proc.act.id && s'.proc == Running(s.proc.act.(pc := PostSave(true)))
  {
    if l.Main? {
      MainEvents(cfg.plans[s.proc.act.row.plan], s.disk.Current(), s.proc.act, l.o);
    }
  }

  // ---------------------------------------------------------------------
  // Shutdown commands.

  /** validateDependencies: within a plan no client appears in two stages. */
  ghost predicate OneStagePerClient(cfg: Config) {
    forall plan, j: nat, k: nat, c |
      && plan in cfg.plans && j < k < |cfg.plans[plan].stages|
      && c in cfg.plans[plan].stages[j].clients :: c !in cfg.plans[plan].stages[k].clients
  }

  ghost predicate InEarlierStage(p: Plan, i: nat, c: Client) {
    exists j: nat :: j < i && j < |p.stages| && c in p.stages[j].clients
  }

  /** This process will not command `c` again in the current sequence. */
  ghost predicate Spent(p: Plan, a: Active, c: Client) {
    if a.pc.FirstSave? || a.pc.Resuming? then false
    else if InLoop(a.pc) || a.pc.Reconciling? then
      || InEarlierStage(p, a.pc.i, c)
      || (a.pc.InStage? && c in a.pc.clients && (a.pc.clients[c].Sent? || a.pc.clients[c].Settling? || a.pc.clients[c].Done?))
    else true
  }

  ghost predicate CommandsBounded(cfg: Config, s: State) {
    && (forall id: SeqId, c :: Count(s.trace, CommandTo(id, c)) <= Count(s.trace, ResumeOf(id)) + 1)
    && (forall id: SeqId, c | id >= s.nextSeq :: Count(s.trace, CommandTo(id, c)) == 0)
    && (s.proc.Running? && s.proc.act.row.plan in cfg.plans ==>
        forall c | !Spent(cfg.plans[s.proc.act.row.plan], s.proc.act, c) ::
          Count(s.trace, CommandTo(s.proc.act.id, c)) <= Count(s.trace, ResumeOf(s.proc.act.id)))
  }

  /** The stage index never moves back inside one process, and a stage is left
      only for the next one. */
  predicate Forward(pc: Pc, pc': Pc) {
    && !pc'.FirstSave? && !pc'.Resuming?
    && (InLoop(pc') || pc'.Reconciling? ==>
        || pc.FirstSave? || pc.Resuming?
        || ((InLoop(pc) || pc.Reconciling?) && pc.i <= pc'.i && (pc.InStage? ==> pc' == LoopTop(pc.i + 1))))
  }

  lemma MainMovesForward(p: Plan, db: Db, a: Active, o: Outcome)
    requires MainStep(p, db, a, o).Some?
    ensures Forward(a.pc, MainStep(p, db, a, o).value.act.pc)
  {
    if InLoop(a.pc) {
      LoopMovesForward(p, db, a, o);
    } else if a.pc.FirstSave? || a.pc.Resuming? || a.pc.Reconciling? {
      StartMovesForward(p, db, a, o);
    } else {
      RestMovesForward(p, db, a, o);
    }
  }

  lemma StartMovesForward(p: Plan, db: Db, a: Active, o: Outcome)
    requires (a.pc.FirstSave? || a.pc.Resuming? || a.pc.Reconciling?) && MainStep(p, db, a, o).Some?
    ensures Forward(a.pc, MainStep(p, db, a, o).value.act.pc)
  {
  }

  lemma LoopMovesForward(p: Plan, db: Db, a: Active, o: Outcome)
    requires InLoop(a.pc) && MainStep(p, db, a, o).Some?
    ensures Forward(a.pc, MainStep(p, db, a, o).value.act.pc)
  {
  }

  lemma RestMovesForward(p: Plan, db: Db, a: Active, o: Outcome)
    requires !InLoop(a.pc) && !a.pc.FirstSave? && !a.pc.Resuming? && !a.pc.Reconciling? && MainStep(p, db, a, o).Some?
    ensures Forward(a.pc, MainStep(p, db, a, o).value.act.pc)
  {
  }

  lemma MainStaysSpent(p: Plan, a: Active, a': Active, c: Client)
    requires Spent(p, a, c) && Forward(a.pc, a'.pc)
    requires a.pc.InStage? ==> a.pc.i < |p.stages| && forall k | k in a.pc.clients :: k in p.stages[a.pc.i].clients
    ensures Spent(p, a', c)
  {
    if InLoop(a'.pc) || a'.pc.Reconciling? {
      if InEarlierStage(p, a.pc.i, c) {
        var j: nat :| j < a.pc.i && j < |p.stages| && c in p.stages[j].clients;
        assert j < a'.pc.i;
      } else {
        assert a.pc.i < a'.pc.i && c in p.stages[a.pc.i].clients;
      }
    }
  }

  lemma ClientStaysSpent(cfg: Config, db: Db, p: Plan, a: Active, newId: IntentId, c: Client, o: ClientOutcome, k: Client)
    requires a.pc.InStage? && c in a.pc.clients && ClientEffect(cfg, db, a, newId, c, o).Some?
    requires Spent(p, a, k)
    ensures Spent(p, ClientEffect(cfg, db, a, newId, c, o).value.act, k)
  {
  }

  /** A run step keeps the plan, and spends a client when it commands it. */
  lemma RunStaysSpent(cfg: Config, s: State, l: Label, c: Client)
    requires Inv(cfg, s) && HasPlan(cfg, s) && OfRun(l) && RunEffect(cfg, s, l).Some?
    requires Spent(cfg.plans[s.proc.act.row.plan], s.proc.act, c)
    ensures Spent(cfg.plans[s.proc.act.row.plan], RunEffect(cfg, s, l).value.act, c)
  {
    var a := s.proc.act;
    var p := cfg.plans[a.row.plan];
    if l.Main? {
      MainMovesForward(p, s.disk.Current(), a, l.o);
      MainStaysSpent(p, a, RunEffect(cfg, s, l).value.act, c);
    } else if l.ClientStep? {
      ClientStaysSpent(cfg, s.disk.Current(), p, a, s.nextIntent, l.c, l.co, c);
    }
  }

  lemma SendSpends(cfg: Config, s: State, c: Client)
    requires Inv(cfg, s) && HasPlan(cfg, s) && OneStagePerClient(cfg)
    requires RunEffect(cfg, s, ClientStep(c, Send)).Some?
    ensures !Spent(cfg.plans[s.proc.act.row.plan], s.proc.act, c)
    ensures Spent(cfg.plans[s.proc.act.row.plan], RunEffect(cfg, s, ClientStep(c, Send)).value.act, c)
  {
    var a := s.proc.act;
    var p := cfg.plans[a.row.plan];
    assert a.pc.clients[c].Recording? && c in p.stages[a.pc.i].clients;
  }

  lemma RunKeepsPlan(cfg: Config, s: State, l: Label)
    requires HasPlan(cfg, s) && OfRun(l) && RunEffect(cfg, s, l).Some?
    ensures RunEffect(cfg, s, l).value.act.row.plan == s.proc.act.row.plan
    ensures RunEffect(cfg, s, l).value.act.id == s.proc.act.id
  {
    if l.Main? {
      MainKeepsPlan(cfg.plans[s.proc.act.row.plan], s.disk.Current(), s.proc.act, l.o);
    }
  }

  lemma MainKeepsPlan(p: Plan, db: Db, a: Active, o: Outcome)
    requires MainStep(p, db, a, o).Some?
    ensures MainStep(p, db, a, o).value.act.row.plan == a.row.plan
    ensures MainStep(p, db, a, o).value.act.id == a.id
  {
    if InLoop(a.pc) {
      LoopKeepsPlan(p, db, a, o);
    } else if a.pc.PostCheck? || a.pc.PostIssue? || a.pc.PostSave? {
      PostKeepsPlan(p, db, a, o);
    } else if a.pc.GateSave? || a.pc.AtGate? || a.pc.InWake? || a.pc.InTurn? || a.pc.Verifying? {
      WakeKeepsPlan(p, db, a, o);
    } else {
      RestKeepsPlan(p, db, a, o);
    }
  }

  lemma LoopKeepsPlan(p: Plan, db: Db, a: Active, o: Outcome)
    requires InLoop(a.pc) && MainStep(p, db, a, o).Some?
    ensures MainStep(p, db, a, o).value.act.row.plan == a.row.plan
    ensures MainStep(p, db, a, o).value.act.id == a.id
  {
  }

  lemma PostKeepsPlan(p: Plan, db: Db, a: Active, o: Outcome)
    requires (a.pc.PostCheck? || a.pc.PostIssue? || a.pc.PostSave?) && MainStep(p, db, a, o).Some?
    ensures MainStep(p, db, a, o).value.act.row.plan == a.row.plan
    ensures MainStep(p, db, a, o).value.act.id == a.id
  {
  }

  lemma WakeKeepsPlan(p: Plan, db: Db, a: Active, o: Outcome)
    requires a.pc.GateSave? || a.pc.AtGate? || a.pc.InWake? || a.pc.InTurn? || a.pc.Verifying?
    requires MainStep(p, db, a, o).Some?
    ensures MainStep(p, db, a, o).value.act.row.plan == a.row.plan
    ensures MainStep(p, db, a, o).value.act.id == a.id
  {
  }

  lemma RestKeepsPlan(p: Plan, db: Db, a: Active, o: Outcome)
    requires !InLoop(a.pc) && !a.pc.PostCheck? && !a.pc.PostIssue? && !a.pc.PostSave?
    requires !a.pc.GateSave? && !a.pc.AtGate? && !a.pc.InWake? && !a.pc.InTurn? && !a.pc.Verifying?
    requires MainStep(p, db, a, o).Some?
    ensures MainStep(p, db, a, o).value.act.row.plan == a.row.plan
    ensures MainStep(p, db, a, o).value.act.id == a.id
  {
  }

  lemma RunKeepsCommandBound(cfg: Config, s: State, l: Label, s': State)
    requires Inv(cfg, s) && CommandsBounded(cfg, s) && OneStagePerClient(cfg)
    requires StepOf(cfg, s, l, s') && OfRun(l)
    ensures CommandsBounded(cfg, s')
  {
    var es, a := NewEvents(cfg, s, l), s.proc.act;
    StepEvents(cfg, s, l, s');
    RunKeepsPlan(cfg, s, l);
    forall id: SeqId, c
      ensures Count(s'.trace, CommandTo(id, c)) <= Count(s'.trace, ResumeOf(id)) + 1
      ensures id >= s'.nextSeq ==> Count(s'.trace, CommandTo(id, c)) == 0
      ensures id == a.id && !Spent(cfg.plans[a.row.plan], s'.proc.act, c) ==>
        Count(s'.trace, CommandTo(id, c)) <= Count(s'.trace, ResumeOf(id))
    {
      CountGrows(s.trace, es, CommandTo(id, c));
      CountGrows(s.trace, es, ResumeOf(id));
      if es != [] && es[0].Command? && es[0].id == id && es[0].client == c {
        SendSpends(cfg, s, c);
      } else if Spent(cfg.plans[a.row.plan], a, c) {
        RunStaysSpent(cfg, s, l, c);
      }
    }
  }

  /** Outside the running sequence nothing is commanded or issued, and a sequence
      starts fresh or resumed. */
  lemma EnvStarts(cfg: Config, s: State, l: Label, s': State)
    requires StepOf(cfg, s, l, s') && !OfRun(l)
    ensures s.nextSeq <= s'.nextSeq && s'.trace == s.trace + NewEvents(cfg, s, l)
    ensures var es := NewEvents(cfg, s, l); es == [] || (|es| == 1 && (es[0].Crashed? || es[0].Resumed?))
    ensures s'.proc.Running? ==>
      || (s'.proc.act.id == s.nextSeq && NewEvents(cfg, s, l) == [])
      || NewEvents(cfg, s, l) == [Resumed(s'.proc.act.id)]
  {
  }

  lemma CommandsStartBounded(cfg: Config, s: State, s': State, es: seq<Event>)
    requires CommandsBounded(cfg, s) && s'.trace == s.trace + es && s.nextSeq <= s'.nextSeq
    requires es == [] || (|es| == 1 && (es[0].Crashed? || es[0].Resumed?))
    requires s'.proc.Running? ==> (s'.proc.act.id == s.nextSeq && es == []) || es == [Resumed(s'.proc.act.id)]
    ensures CommandsBounded(cfg, s')
  {
    forall id: SeqId, c
      ensures Count(s'.trace, CommandTo(id, c)) == Count(s.trace, CommandTo(id, c))
      ensures Count(s'.trace, ResumeOf(id)) == Count(s.trace, ResumeOf(id)) + if es == [Resumed(id)] then 1 else 0
    {
      CountsAcross(s.trace, es, id, c);
    }
  }

  lemma EnvKeepsCommandBound(cfg: Config, s: State, l: Label, s': State)
    requires CommandsBounded(cfg, s) && StepOf(cfg, s, l, s') && !OfRun(l)
    ensures CommandsBounded(cfg, s')
  {
    EnvStarts(cfg, s, l, s');
    CommandsStartBounded(cfg, s, s', NewEvents(cfg, s, l));
  }

  lemma CountsAcross(t: seq<Event>, es: seq<Event>, id: SeqId, c: Client)
    requires es == [] || (|es| == 1 && (es[0].Crashed? || es[0].Resumed?))
    ensures Count(t + es, CommandTo(id, c)) == Count(t, CommandTo(id, c))
    ensures Count(t + es, ResumeOf(id)) == Count(t, ResumeOf(id)) + if es == [Resumed(id)] then 1 else 0
  {
    CountGrows(t, es, CommandTo(id, c));
    CountGrows(t, es, ResumeOf(id));
  }

  lemma CommandBoundAt(cfg: Config, ss: seq<State>, ls: seq<Label>, i: nat)
    requires IsRun(cfg, ss, ls) && OneStagePerClient(cfg) && i < |ls| && CommandsBounded(cfg, ss[i])
    ensures CommandsBounded(cfg, ss[i + 1])
  {
    assert StepAt(cfg, ss, ls, i);
    RunInv(cfg, ss, ls, i);
    if OfRun(ls[i]) {
      RunKeepsCommandBound(cfg, ss[i], ls[i], ss[i + 1]);
    } else {
      EnvKeepsCommandBound(cfg, ss[i], ls[i], ss[i + 1]);
    }
  }

  lemma {:induction false} CommandsStayBounded(cfg: Config, ss: seq<State>, ls: seq<Label>, i: nat)
    requires IsRun(cfg, ss, ls) && OneStagePerClient(cfg) && i < |ss|
    ensures CommandsBounded(cfg, ss[i])
  {
    if i > 0 {
      CommandsStayBounded(cfg, ss, ls, i - 1);
      CommandBoundAt(cfg, ss, ls, i - 1);
    }
  }

  predicate ResumesPaid(s: State) {
    Count(s.trace, AnyResume()) + (if s.proc.Down? then 1 else 0) <= Count(s.trace, AnyCrash())
  }

  lemma StepPaysResumes(cfg: Config, s: State, l: Label, s': State)
    requires StepOf(cfg, s, l, s') && ResumesPaid(s)
    ensures ResumesPaid(s')
  {
    var es := NewEvents(cfg, s, l);
    StepEvents(cfg, s, l, s');
    CountGrows(s.trace, es, AnyResume());
    CountGrows(s.trace, es, AnyCrash());
    if OfRun(l) {
      NoCrashEvents(cfg, s, l);
    }
  }

  lemma NoCrashEvents(cfg: Config, s: State, l: Label)
    requires HasPlan(cfg, s) && OfRun(l) && RunEffect(cfg, s, l).Some?
    ensures forall e | e in RunEffect(cfg, s, l).value.events :: !e.Crashed? && !e.Resumed?
  {
    if l.Main? {
      MainEvents(cfg.plans[s.proc.act.row.plan], s.disk.Current(), s.proc.act, l.o);
    }
  }

  /** Each resume is paid for by a crash. */
  lemma {:induction false} ResumesNeedCrashes(cfg: Config, ss: seq<State>, ls: seq<Label>, i: nat)
    requires IsRun(cfg, ss, ls) && i < |ss|
    ensures ResumesPaid(ss[i])
  {
    if i > 0 {
      ResumesNeedCrashes(cfg, ss, ls, i - 1);
      assert StepAt(cfg, ss, ls, i - 1);
      StepPaysResumes(cfg, ss[i - 1], ls[i - 1], ss[i]);
    }
  }

  /** With each client in one stage, a sequence commands a client at most once
      plus once per time it was resumed, hence at most once plus once per crash.
      This holds across power cuts too. */
  lemma CommandsAtMostOncePerLife(cfg: Config, ss: seq<State>, ls: seq<Label>, i: nat, id: SeqId, c: Client)
    requires IsRun(cfg, ss, ls) && OneStagePerClient(cfg) && i < |ss|
    ensures Count(ss[i].trace, CommandTo(id, c)) <= 1 + Count(ss[i].trace, ResumeOf(id))
    ensures Count(ss[i].trace, CommandTo(id, c)) <= 1 + Count(ss[i].trace, AnyCrash())
  {
    CommandsStayBounded(cfg, ss, ls, i);
    ResumesNeedCrashes(cfg, ss, ls, i);
    CountMonotone(ss[i].trace, ResumeOf(id), AnyResume());
  }

  // ---------------------------------------------------------------------
  // The post-shutdown action.

  lemma {:induction false} CountedMeansSeen(t: seq<Event>, id: SeqId)
    requires Count(t, PostOf(id)) > 0
    ensures PostIssued(id) in t
  {
    if t[|t| - 1] != PostIssued(id) {
      CountedMeansSeen(t[..|t| - 1], id);
    }
  }

  /** As far as the tables and the process go, `id`'s action may yet be issued. */
  predicate Issuable(s: State, id: SeqId) {
    || id >= s.nextSeq
    || (s.proc.Running? && s.proc.act.id == id && s.proc.act.pc.FirstSave?)
    || (Unsaved(s.disk.Current(), id) && !InPostWindow(s.proc, id))
  }

  predicate PostBounded(s: State, id: SeqId) {
    Count(s.trace, PostOf(id)) <= Count(s.trace, ReopenOf(id)) + if Issuable(s, id) then 0 else 1
  }

  /** The action is issued only when it may be, and issuing it settles the matter. */
  lemma IssueSettles(cfg: Config, s: State, l: Label, s': State, id: SeqId)
    requires Inv(cfg, s) && StepOf(cfg, s, l, s') && PostIssued(id) in NewEvents(cfg, s, l)
    ensures Issuable(s, id) && !Issuable(s', id)
  {
    StepEvents(cfg, s, l, s');
  }

  /** Only a crash can make a settled action possible again. */
  lemma SettledStays(cfg: Config, s: State, l: Label, s': State, id: SeqId)
    requires Inv(cfg, s) && StepOf(cfg, s, l, s') && !IsCrash(l) && !Issuable(s, id)
    ensures !Issuable(s', id)
  {
    if OfRun(l) {
      RunStaysSettled(cfg, s, l, id);
    } else {
      StepMoves(cfg, s, l, s');
      if id in s.disk.Current().seqs {
        assert RowLe(s.disk.Current().seqs[id], s'.disk.Current().seqs[id]);
      }
    }
  }

  /** Under any effect of the running sequence but that of leaving the window. */
  lemma EffectStaysSettled(cfg: Config, s: State, e: Effect, id: SeqId)
    requires s.proc.Running? && EffectFits(cfg, s.disk.Current(), s.proc.act, e) && !Issuable(s, id)
    requires RowsAdvance(s.disk.Current(), After(s.disk.Current(), e.op))
    requires ActiveFits(cfg, s.disk.Current(), s.proc.act) && !e.act.pc.FirstSave? && !InPostWindow(s.proc, id)
    ensures !Unsaved(After(s.disk.Current(), e.op), id) && !(e.act.id == id && e.act.pc.FirstSave?)
  {
    var db, db' := s.disk.Current(), After(s.disk.Current(), e.op);
    if id in db.seqs {
      assert RowLe(db.seqs[id], db'.seqs[id]);
    }
  }

  lemma LeavesFirstSave(cfg: Config, s: State, l: Label)
    requires HasPlan(cfg, s) && OfRun(l) && RunEffect(cfg, s, l).Some?
    ensures RunEffect(cfg, s, l).value.act.pc.FirstSave? ==> s.proc.act.pc.FirstSave? && RunEffect(cfg, s, l).value.op.NoWrite?
    ensures RunEffect(cfg, s, l).value.act.id == s.proc.act.id
  {
    RunKeepsPlan(cfg, s, l);
    if l.Main? {
      MainMovesForward(cfg.plans[s.proc.act.row.plan], s.disk.Current(), s.proc.act, l.o);
    }
  }

  lemma RunStaysSettled(cfg: Config, s: State, l: Label, id: SeqId)
    requires Inv(cfg, s) && HasPlan(cfg, s) && OfRun(l) && RunEffect(cfg, s, l).Some? && !Issuable(s, id)
    ensures !Issuable(Perform(s, RunEffect(cfg, s, l).value), id)
  {
    var e := RunEffect(cfg, s, l).value;
    RunFits(cfg, s, l);
    WriteMovesOn(s.disk, e.op);
    LeavesFirstSave(cfg, s, l);
    if InPostWindow(s.proc, id) {
      WindowCloses(cfg, s, l);
    } else if !e.act.pc.FirstSave? {
      EffectStaysSettled(cfg, s, e, id);
    }
  }

  /** The window is left by saving the flag. */
  lemma WindowCloses(cfg: Config, s: State, l: Label)
    requires Inv(cfg, s) && HasPlan(cfg, s) && OfRun(l) && RunEffect(cfg, s, l).Some?
    requires s.proc.act.pc == PostSave(true)
    ensures var e := RunEffect(cfg, s, l).value;
      (e.act.pc == PostSave(true) && e.act.id == s.proc.act.id) || !Unsaved(After(s.disk.Current(), e.op), s.proc.act.id)
  {
  }

  lemma CrashSettles(cfg: Config, s: State, l: Label, s': State, id: SeqId)
    requires Inv(cfg, s) && StepOf(cfg, s, l, s') && IsCrash(l) && PostIssued(id) in s.trace
    requires !Issuable(s, id) && Issuable(s', id)
    ensures id in Reopened(s, s'.disk.Current())
  {
  }

  lemma StepKeepsPostBound(cfg: Config, s: State, l: Label, s': State, id: SeqId)
    requires Inv(cfg, s) && StepOf(cfg, s, l, s') && PostBounded(s, id)
    ensures PostBounded(s', id)
  {
    var es := NewEvents(cfg, s, l);
    StepEvents(cfg, s, l, s');
    CountGrows(s.trace, es, PostOf(id));
    CountGrows(s.trace, es, ReopenOf(id));
    if PostIssued(id) in es {
      IssueSettles(cfg, s, l, s', id);
    } else if !Issuable(s, id) && Issuable(s', id) && Count(s.trace, PostOf(id)) > 0 {
      CountedMeansSeen(s.trace, id);
      if IsCrash(l) {
        CrashSettles(cfg, s, l, s', id);
      } else {
        SettledStays(cfg, s, l, s', id);
      }
    }
  }

  /** Over every run, power cuts included, the action is issued at most once plus
      once per crash that loses the flag of an action already issued. */
  lemma {:induction false} PostAtMostOncePlusReopenings(cfg: Config, ss: seq<State>, ls: seq<Label>, i: nat, id: SeqId)
    requires IsRun(cfg, ss, ls) && i < |ss|
    ensures PostBounded(ss[i], id)
    ensures Count(ss[i].trace, PostOf(id)) <= 1 + Count(ss[i].trace, ReopenOf(id))
  {
    if i > 0 {
      PostAtMostOncePlusReopenings(cfg, ss, ls, i - 1, id);
      assert StepAt(cfg, ss, ls, i - 1);
      RunInv(cfg, ss, ls, i - 1);
      StepKeepsPostBound(cfg, ss[i - 1], ls[i - 1], ss[i], id);
    }
  }

  /** This process will not issue the action again. */
  predicate PostSpent(pc: Pc) {
    !InLoop(pc) && !pc.FirstSave? && !pc.Resuming? && !pc.Reconciling? && !pc.PostCheck? && !pc.PostIssue?
  }

  predicate PostOncePerLife(s: State, id: SeqId) {
    && Count(s.trace, PostOf(id)) <= 1 + Count(s.trace, ResumeOf(id))
    && (id >= s.nextSeq ==> Count(s.trace, PostOf(id)) == 0)
    && (s.proc.Running? && s.proc.act.id == id && !PostSpent(s.proc.act.pc) ==>
        Count(s.trace, PostOf(id)) <= Count(s.trace, ResumeOf(id)))
  }

  lemma RunStaysPostSpent(cfg: Config, s: State, l: Label)
    requires HasPlan(cfg, s) && OfRun(l) && RunEffect(cfg, s, l).Some? && PostSpent(s.proc.act.pc)
    ensures PostSpent(RunEffect(cfg, s, l).value.act.pc)
  {
  }

  /** A step of the running sequence that issues at most once, and then is spent. */
  lemma LifeGoesOn(s: State, s': State, es: seq<Event>, id: SeqId)
    requires PostOncePerLife(s, id) && s.proc.Running? && s'.proc.Running?
    requires s'.proc.act.id == s.proc.act.id < s.nextSeq == s'.nextSeq
    requires s'.trace == s.trace + es && |es| <= 1
    requires forall e | e in es && e.PostIssued? :: e.id == s.proc.act.id && s.proc.act.pc.PostIssue? && PostSpent(s'.proc.act.pc)
    requires PostSpent(s.proc.act.pc) ==> PostSpent(s'.proc.act.pc)
    ensures PostOncePerLife(s', id)
  {
    CountGrows(s.trace, es, PostOf(id));
    CountGrows(s.trace, es, ResumeOf(id));
  }

  lemma RunKeepsPostOncePerLife(cfg: Config, s: State, l: Label, s': State, id: SeqId)
    requires Inv(cfg, s) && StepOf(cfg, s, l, s') && OfRun(l) && PostOncePerLife(s, id)
    ensures PostOncePerLife(s', id)
  {
    StepEvents(cfg, s, l, s');
    RunKeepsPlan(cfg, s, l);
    if PostSpent(s.proc.act.pc) {
      RunStaysPostSpent(cfg, s, l);
    }
    LifeGoesOn(s, s', NewEvents(cfg, s, l), id);
  }

  lemma LifeStarts(s: State, s': State, es: seq<Event>, id: SeqId)
    requires PostOncePerLife(s, id) && s'.trace == s.trace + es && s.nextSeq <= s'.nextSeq && |es| <= 1
    requires forall e | e in es :: !e.PostIssued?
    requires s'.proc.Running? ==> (s'.proc.act.id == s.nextSeq && es == []) || es == [Resumed(s'.proc.act.id)]
    ensures PostOncePerLife(s', id)
  {
    CountGrows(s.trace, es, PostOf(id));
    CountGrows(s.trace, es, ResumeOf(id));
  }

  lemma EnvKeepsPostOncePerLife(cfg: Config, s: State, l: Label, s': State, id: SeqId)
    requires StepOf(cfg, s, l, s') && !OfRun(l) && PostOncePerLife(s, id)
    ensures PostOncePerLife(s', id)
  {
    EnvStarts(cfg, s, l, s');
    LifeStarts(s, s', NewEvents(cfg, s, l), id);
  }

  /** And at most once plus once per time the sequence was resumed, hence per
      crash. */
  lemma {:induction false} PostAtMostOncePerLife(cfg: Config, ss: seq<State>, ls: seq<Label>, i: nat, id: SeqId)
    requires IsRun(cfg, ss, ls) && i < |ss|
    ensures PostOncePerLife(ss[i], id)
    ensures Count(ss[i].trace, PostOf(id)) <= 1 + Count(ss[i].trace, ResumeOf(id))
  {
    if i > 0 {
      PostAtMostOncePerLife(cfg, ss, ls, i - 1, id);
      assert StepAt(cfg, ss, ls, i - 1);
      RunInv(cfg, ss, ls, i - 1);
      if OfRun(ls[i - 1]) {
        RunKeepsPostOncePerLife(cfg, ss[i - 1], ls[i - 1], ss[i], id);
      } else {
        EnvKeepsPostOncePerLife(cfg, ss[i - 1], ls[i - 1], ss[i], id);
      }
    }
  }
}

/** The sequence executor as a step machine.

    One state holds the disk, the daemon process and the trace of everything
    visible from outside. Each step is one locked accessor, one hand-over to a
    transport, or one commit together with the fields set for it just before, so
    a crash or an operator's call can fall between any two of them. Operator
    calls, probes, timeouts and conditions arrive as labels. */
module Machine {
  import opened Options
  import opened Tables
  import opened Disks

  // ---------------------------------------------------------------------
  // Configuration. `clients` is what ResolveClientRefs returned for the stage.

  datatype Stage = Stage(clients: seq<Client>, ponr: bool, hold: bool)

  /** `wakes` is how many clients computeWakeOrder lists, `retries` how often a
      wake command is repeated. */
  datatype Plan = Plan(stages: seq<Stage>, canAbort: bool, post: bool, wakes: nat, retries: nat)

  /** `reachable` are the clients with a config entry and a known transport. */
  datatype Config = Config(plans: map<string, Plan>, reachable: set<Client>)

  // ---------------------------------------------------------------------
  // The daemon process.

  /** Progress of one shutdownClient goroutine. */
  datatype ClientPc =
    | Todo
    | Holding
    | Recording(intent: IntentId)
    | Sent(intent: IntentId)
    | Settling
    | Done

  /** Where the sequence goroutine stands. */
  datatype Pc =
    | FirstSave
    | LoopTop(i: nat)
    | AbortCheck(i: nat)
    | Waiting(i: nat)
    | WaitAbort(i: nat)
    | Expiring(i: nat)
    | Entering(i: nat)
    | PonrSave(i: nat)
    | Opening(i: nat)
    | InStage(i: nat, clients: map<Client, ClientPc>)
    | PostCheck
    | PostIssue
    | PostSave(issued: bool)
    | GateSave
    | AtGate
    | InWake(left: nat)
    | InTurn(left: nat, tries: nat)
    | Verifying(left: nat, tries: nat)
    | Finishing
    | Releasing
    | Clearing
    | AbortSave
    | AbortSettle
    | Resuming
    | Reconciling(i: nat)

  /** The live sequence: its in-memory row and the operator's two requests. */
  datatype Active = Active(id: SeqId, row: SeqRow, abortReq: bool, proceedReq: bool, pc: Pc)

  datatype Proc = Down | Idle | Running(act: Active)

  datatype Event =
    | Command(id: SeqId, stage: nat, client: Client, intent: IntentId)
    | StageRecorded(id: SeqId, stage: nat)
    | PostIssued(id: SeqId)
    | PostSaved(id: SeqId)
    | AbortAnswer(id: SeqId, accepted: bool)
    | AbortEntered(id: SeqId)
    | WakeSent(id: SeqId)
    | Resumed(id: SeqId)
    | Crashed(reopened: set<SeqId>)

  /** `leaked` remembers sequences whose locks a crash left behind after their
      terminal state had been saved. The two counters stand for unique ids. */
  datatype State = State(
    disk: Disk,
    proc: Proc,
    trace: seq<Event>,
    nextSeq: SeqId,
    nextIntent: IntentId,
    leaked: set<SeqId>)

  const INIT := State(NEW_DISK, Idle, [], 0, 0, {})

  // ---------------------------------------------------------------------
  // Labels.

  datatype Outcome =
    | Plain
    | NoAbort
    | AbortNow
    | WhenTrue
    | Forced
    | Expired
    | Issue
    | DryRun
    | GateOpen
    | SendWake
    | TurnOver
    | WakeEnd
    | Reconcile(n: IntentId)
    | ReconcileEnd

  datatype ClientOutcome = Absent | TryLock | SaveIntentFirst | Skip | Send | Report | Settle

  datatype Label =
    | Main(o: Outcome)
    | ClientStep(c: Client, co: ClientOutcome)
    | RequestAbort
    | RequestProceed
    | Trigger(plan: string)
    | Clear
    | ProcessCrash
    | Cut(k: nat)
    | RestartIdle
    | RestartResume(id: SeqId)
    | RestartOrphan(id: SeqId)

  datatype WriteOp = NoWrite | Lazy(w: Write) | Flushed(w: Write)

  /** What one step of the running sequence does. */
  datatype Effect = Effect(act: Active, op: WriteOp, events: seq<Event>)

  // ---------------------------------------------------------------------
  // The sequence goroutine.

  function Quiet(a: Active, pc: Pc): Option<Effect> {
    Some(Effect(a.(pc := pc), NoWrite, []))
  }

  function Save(a: Active, row: SeqRow, pc: Pc): Option<Effect> {
    Some(Effect(a.(row := row, pc := pc), Lazy(SaveSequence(a.id, row)), []))
  }

  /** shouldAbort, given what the plan's own abort condition says. */
  predicate MayAbort(p: Plan, a: Active) {
    !a.row.ponr && (a.abortReq || p.canAbort)
  }

  predicate MustAbort(a: Active) {
    !a.row.ponr && a.abortReq
  }

  /** resumeSequence's scan: the first stage without a recorded completion. */
  function ResumeAt(db: Db, id: SeqId, n: nat, i: nat): (r: nat)
    requires i <= n
    ensures i <= r <= n
    ensures forall j | i <= j < r :: Recorded(db, id, j)
    ensures r < n ==> !Recorded(db, id, r)
    decreases n - i
  {
    if i < n && Recorded(db, id, i) then ResumeAt(db, id, n, i + 1) else i
  }

  function StageClients(s: Stage): map<Client, ClientPc> {
    map c | c in s.clients :: Todo
  }

  predicate AllDone(m: map<Client, ClientPc>) {
    forall c | c in m :: m[c].Done?
  }

  /** Top of the stage loop: save the position, then ask shouldAbort. */
  function CheckStep(p: Plan, a: Active, o: Outcome): Option<Effect>
    requires a.pc.LoopTop? || a.pc.AbortCheck?
  {
    var i := a.pc.i;
    if a.pc.LoopTop? then
      if !o.Plain? then None
      else if i < |p.stages| then Save(a, a.row.(stage := i), AbortCheck(i))
      else Quiet(a, PostCheck)
    else if o.AbortNow? && MayAbort(p, a) then Quiet(a, AbortSave)
    else if o.NoAbort? && !MustAbort(a) then Quiet(a, Waiting(i))
    else None
  }

  /** One poll of waitForStage: `when`, then the operator's proceed, then
      shouldAbort, then the clock; and handleStageTimeout once it has run out. */
  function WaitStep(p: Plan, a: Active, o: Outcome): Option<Effect>
    requires a.pc.Waiting? || a.pc.WaitAbort? || a.pc.Expiring?
  {
    var i := a.pc.i;
    if a.pc.Waiting? then
      if o.WhenTrue? then Quiet(a, Entering(i))
      else if o.Forced? && a.proceedReq then Quiet(a.(proceedReq := false), Entering(i))
      else if o.Plain? && !a.proceedReq then Quiet(a, WaitAbort(i))
      else None
    else if a.pc.WaitAbort? then
      if o.AbortNow? && MayAbort(p, a) then Quiet(a, AbortSave)
      else if o.NoAbort? && !MustAbort(a) then Quiet(a, Waiting(i))
      else if o.Expired? && !MustAbort(a) then Quiet(a, Expiring(i))
      else None
    else if !o.Plain? || i >= |p.stages| then None
    else if p.stages[i].hold then Quiet(a.(row := a.row.(stage := i)), LoopTop(i))
    else Some(Effect(a.(pc := LoopTop(i + 1)), Lazy(SaveStageRecord(a.id, i, true)), [StageRecorded(a.id, i)]))
  }

  /** Crossing the point of no return, flushed before the stage opens. */
  function EnterStep(p: Plan, a: Active, o: Outcome): Option<Effect>
    requires a.pc.Entering? || a.pc.PonrSave?
  {
    var i := a.pc.i;
    if !o.Plain? || i >= |p.stages| then None
    else if a.pc.PonrSave? then
      Some(Effect(a.(pc := Opening(i)), Flushed(SaveSequence(a.id, a.row)), []))
    else if p.stages[i].ponr && !a.row.ponr then Quiet(a.(row := a.row.(ponr := true)), PonrSave(i))
    else Quiet(a, Opening(i))
  }

  /** executeStage: the record is opened, the clients run, the record is closed. */
  function StageStep(p: Plan, a: Active, o: Outcome): Option<Effect>
    requires a.pc.Opening? || a.pc.InStage?
  {
    var i := a.pc.i;
    if !o.Plain? || i >= |p.stages| then None
    else if a.pc.Opening? then
      Some(Effect(a.(pc := InStage(i, StageClients(p.stages[i]))), Lazy(SaveStageRecord(a.id, i, false)), []))
    else if AllDone(a.pc.clients) then
      Some(Effect(a.(pc := LoopTop(i + 1)), Lazy(SaveStageRecord(a.id, i, true)), [StageRecorded(a.id, i)]))
    else None
  }

  /** The post-shutdown action, at most once per saved flag. */
  function PostStep(p: Plan, a: Active, o: Outcome): Option<Effect>
    requires a.pc.PostCheck? || a.pc.PostIssue? || a.pc.PostSave?
  {
    if a.pc.PostCheck? then
      if !o.Plain? then None
      else if p.post && !a.row.postRun then Quiet(a.(row := a.row.(postRun := true)), PostIssue)
      else Quiet(a, GateSave)
    else if a.pc.PostIssue? then
      if o.Issue? then Some(Effect(a.(pc := PostSave(true)), NoWrite, [PostIssued(a.id)]))
      else if o.DryRun? then Quiet(a, PostSave(false))
      else None
    else if !o.Plain? then None
    else Some(Effect(a.(pc := GateSave), Lazy(SaveSequence(a.id, a.row)), [PostSaved(a.id)]))
  }

  /** runWake: the gate, where an abort request is looked for each time the gate
      is found shut, then the wake loop, where it is before each client. */
  function WakeStep(p: Plan, a: Active, o: Outcome): Option<Effect>
    requires a.pc.GateSave? || a.pc.AtGate? || a.pc.InWake?
  {
    if a.pc.GateSave? then
      if !o.Plain? then None else Save(a, a.row.(phase := WakeGate), AtGate)
    else if o.AbortNow? && a.abortReq && (a.pc.InWake? ==> a.pc.left > 0) then
      Quiet(a.(row := a.row.(aborted := true)), Finishing)
    else if a.pc.AtGate? && o.GateOpen? then Save(a, a.row.(phase := Waking), InWake(p.wakes))
    else if a.pc.InWake? && o.NoAbort? && a.pc.left > 0 && !a.abortReq then Quiet(a, InTurn(a.pc.left - 1, 1 + p.retries))
    else if a.pc.InWake? && o.WakeEnd? && a.pc.left == 0 then Quiet(a, Finishing)
    else None
  }

  /** One client's turn, with `left` to come after it. Once begun it goes on
      whatever the operator asks: the client is skipped, or after the guard period
      the wake command goes out, and again each time the boot deadline passes. A
      request found while the client is verified ends the turn like its coming up. */
  function TurnStep(a: Active, o: Outcome): Option<Effect>
    requires a.pc.InTurn? || a.pc.Verifying?
  {
    if o.TurnOver? then Quiet(a, InWake(a.pc.left))
    else if a.pc.tries == 0 then None
    else if a.pc.InTurn? && o.SendWake? then
      Some(Effect(a.(pc := Verifying(a.pc.left, a.pc.tries - 1)), NoWrite, [WakeSent(a.id)]))
    else if a.pc.Verifying? && o.Expired? then Quiet(a, InTurn(a.pc.left, a.pc.tries))
    else None
  }

  /** completeSequence: the terminal state, then the locks. */
  function FinishStep(a: Active, o: Outcome): Option<Effect>
    requires a.pc.Finishing? || a.pc.Releasing?
  {
    if !o.Plain? then None
    else if a.pc.Finishing? then
      Save(a, a.row.(phase := if a.row.aborted then Aborted else Completed), Releasing)
    else Some(Effect(a.(pc := Clearing), Lazy(ReleaseSequenceLocks(a.id)), []))
  }

  /** handleAbort and resumeAbort. */
  function AbortStep(a: Active, o: Outcome): Option<Effect>
    requires a.pc.AbortSave? || a.pc.AbortSettle?
  {
    if !o.Plain? then None
    else if a.pc.AbortSave? then
      var row := a.row.(phase := Aborting, aborted := true);
      Some(Effect(a.(row := row, pc := AbortSettle), Lazy(SaveSequence(a.id, row)), [AbortEntered(a.id)]))
    else Save(a, a.row.(phase := WakeGate), AtGate)
  }

  /** executeSequence's first save, and resumeSequence's choice of where to rejoin. */
  function StartStep(p: Plan, db: Db, a: Active, o: Outcome): Option<Effect>
    requires a.pc.FirstSave? || a.pc.Resuming?
  {
    if !o.Plain? then None
    else if a.pc.FirstSave? then Save(a, a.row, LoopTop(a.row.stage))
    else if a.row.phase.Aborting? || a.row.phase.Aborted? then Quiet(a, AbortSettle)
    else if a.row.phase.WakeGate? || a.row.phase.Waking? then Quiet(a, AtGate)
    else
      var i := ResumeAt(db, a.id, |p.stages|, 0);
      Quiet(a.(row := a.row.(stage := i)), Reconciling(i))
  }

  /** reconcileIntents: each pending intent may be closed, then the loop starts. */
  function ReconcileStep(db: Db, a: Active, o: Outcome): Option<Effect>
    requires a.pc.Reconciling?
  {
    if o.ReconcileEnd? then Quiet(a, LoopTop(a.pc.i))
    else if o.Reconcile? && o.n in db.intents && db.intents[o.n].seqId == a.id &&
            db.intents[o.n].status.Dispatching? then
      Some(Effect(a, Lazy(SaveIntent(o.n, db.intents[o.n].(status := Reconciled))), []))
    else None
  }

  predicate InLoop(pc: Pc) {
    || pc.LoopTop? || pc.AbortCheck? || pc.Waiting? || pc.WaitAbort? || pc.Expiring?
    || pc.Entering? || pc.PonrSave? || pc.Opening? || pc.InStage?
  }

  function MainStep(p: Plan, db: Db, a: Active, o: Outcome): Option<Effect> {
    match a.pc
    case LoopTop(_) => CheckStep(p, a, o)
    case AbortCheck(_) => CheckStep(p, a, o)
    case Waiting(_) => WaitStep(p, a, o)
    case WaitAbort(_) => WaitStep(p, a, o)
    case Expiring(_) => WaitStep(p, a, o)
    case Entering(_) => EnterStep(p, a, o)
    case PonrSave(_) => EnterStep(p, a, o)
    case Opening(_) => StageStep(p, a, o)
    case InStage(_, _) => StageStep(p, a, o)
    case PostCheck => PostStep(p, a, o)
    case PostIssue => PostStep(p, a, o)
    case PostSave(_) => PostStep(p, a, o)
    case GateSave => WakeStep(p, a, o)
    case AtGate => WakeStep(p, a, o)
    case InWake(_) => WakeStep(p, a, o)
    case InTurn(_, _) => TurnStep(a, o)
    case Verifying(_, _) => TurnStep(a, o)
    case Finishing => FinishStep(a, o)
    case Releasing => FinishStep(a, o)
    case Clearing => None
    case AbortSave => AbortStep(a, o)
    case AbortSettle => AbortStep(a, o)
    case FirstSave => StartStep(p, db, a, o)
    case Resuming => StartStep(p, db, a, o)
    case Reconciling(_) => ReconcileStep(db, a, o)
  }

  // ---------------------------------------------------------------------
  // One client goroutine of a stage.

  function SetClient(a: Active, c: Client, pc: ClientPc): Active
    requires a.pc.InStage?
  {
    a.(pc := a.pc.(clients := a.pc.clients[c := pc]))
  }

  function ClientEffect(cfg: Config, db: Db, a: Active, newId: IntentId, c: Client, o: ClientOutcome): Option<Effect>
    requires a.pc.InStage? && c in a.pc.clients
  {
    match a.pc.clients[c]
    case Todo =>
      if o.Absent? && c !in cfg.reachable then Some(Effect(SetClient(a, c, Done), NoWrite, []))
      else if o.TryLock? && c in cfg.reachable then
        if CanLock(db, c, a.id) then
          Some(Effect(SetClient(a, c, Holding), Lazy(AcquireClientLock(c, a.id)), []))
        else Some(Effect(SetClient(a, c, Done), NoWrite, []))
      else None
    case Holding =>
      if !o.SaveIntentFirst? then None
      else Some(Effect(SetClient(a, c, Recording(newId)),
                       Flushed(SaveIntent(newId, Intent(a.id, c, Dispatching))), []))
    case Recording(n) =>
      if o.Skip? then
        Some(Effect(SetClient(a, c, Done), Lazy(SaveIntent(n, Intent(a.id, c, Dispatched))), []))
      else if o.Send? then
        Some(Effect(SetClient(a, c, Sent(n)), NoWrite, [Command(a.id, a.pc.i, c, n)]))
      else None
    case Sent(n) =>
      if !o.Report? then None
      else Some(Effect(SetClient(a, c, Settling), Lazy(SaveIntent(n, Intent(a.id, c, Dispatched))), []))
    case Settling =>
      if !o.Settle? then None else Some(Effect(SetClient(a, c, Done), NoWrite, []))
    case Done => None
  }

  // ---------------------------------------------------------------------
  // The whole machine.

  function Write1(d: Disk, op: WriteOp): Disk {
    match op
    case NoWrite => d
    case Lazy(w) => Commit(d, w)
    case Flushed(w) => CommitDurably(d, w)
  }

  /** Only a new intent is flushed under a fresh intent id. */
  function Perform(s: State, e: Effect): State {
    s.(disk := Write1(s.disk, e.op), proc := Running(e.act), trace := s.trace + e.events,
       nextIntent := if e.op.Flushed? && e.op.w.SaveIntent? then s.nextIntent + 1 else s.nextIntent)
  }

  /** The saved row still lets the post-shutdown action be issued. */
  predicate Unsaved(db: Db, id: SeqId) {
    id in db.seqs && db.seqs[id].phase.ShuttingDown? && !db.seqs[id].postRun
  }

  /** The running sequence has issued the action and not yet saved the flag. */
  predicate InPostWindow(p: Proc, id: SeqId) {
    p.Running? && p.act.pc == PostSave(true) && p.act.id == id
  }

  /** Sequences whose issued action a crash makes possible again: the flag was
      saved, or about to be, and the database found afterwards does not have it. */
  function Reopened(s: State, db: Db): set<SeqId> {
    set e | e in s.trace && e.PostIssued? && Unsaved(db, e.id) &&
            (InPostWindow(s.proc, e.id) || !Unsaved(s.disk.Current(), e.id)) :: e.id
  }

  function LeakedBy(db: Db): set<SeqId> {
    set c | c in db.locks && !Live(db, db.locks[c]) :: db.locks[c]
  }

  function CrashTo(s: State, d: Disk): State {
    s.(disk := d, proc := Down, trace := s.trace + [Crashed(Reopened(s, d.Current()))],
       leaked := s.leaked + LeakedBy(d.Current()))
  }

  function FreshRow(plan: string): SeqRow {
    SeqRow(plan, ShuttingDown, 0, false, false, false)
  }

  predicate HasPlan(cfg: Config, s: State) {
    s.proc.Running? && s.proc.act.row.plan in cfg.plans
  }

  /** Steps of the running sequence and calls on it. */
  predicate OfRun(l: Label) {
    l.Main? || l.ClientStep? || l.RequestAbort? || l.RequestProceed?
  }

  function RunEffect(cfg: Config, s: State, l: Label): Option<Effect>
    requires HasPlan(cfg, s) && OfRun(l)
  {
    var a := s.proc.act;
    match l
    case Main(o) => MainStep(cfg.plans[a.row.plan], s.disk.Current(), a, o)
    case ClientStep(c, co) =>
      if a.pc.InStage? && c in a.pc.clients
      then ClientEffect(cfg, s.disk.Current(), a, s.nextIntent, c, co) else None
    case RequestAbort =>
      if a.row.ponr then Some(Effect(a, NoWrite, [AbortAnswer(a.id, false)]))
      else Some(Effect(a.(abortReq := true), NoWrite, [AbortAnswer(a.id, true)]))
    case RequestProceed => Some(Effect(a.(proceedReq := true), NoWrite, []))
  }

  /** Triggers, crashes and restarts. */
  function EnvNext(cfg: Config, s: State, l: Label): Option<State>
    requires !OfRun(l)
  {
    var db := s.disk.Current();
    match l
    case Trigger(plan) =>
      if s.proc.Idle? && plan in cfg.plans then
        Some(s.(proc := Running(Active(s.nextSeq, FreshRow(plan), false, false, FirstSave)),
                nextSeq := s.nextSeq + 1))
      else None
    case Clear =>
      if s.proc.Running? && s.proc.act.pc.Clearing? then Some(s.(proc := Idle)) else None
    case ProcessCrash =>
      if s.proc.Down? then None else Some(CrashTo(s, s.disk))
    case Cut(k) =>
      if s.disk.synced <= k < |s.disk.versions| then Some(CrashTo(s, PowerCut(s.disk, k))) else None
    case RestartIdle =>
      if s.proc.Down? && (forall id | id in db.seqs :: db.seqs[id].phase.Terminal())
      then Some(s.(proc := Idle)) else None
    case RestartResume(id) =>
      if s.proc.Down? && Live(db, id) && db.seqs[id].plan in cfg.plans then
        Some(s.(proc := Running(Active(id, db.seqs[id], false, false, Resuming)),
                trace := s.trace + [Resumed(id)]))
      else None
    case RestartOrphan(id) =>
      if s.proc.Down? && Live(db, id)
      then Some(s.(proc := Idle, disk := Commit(s.disk, FailOrphanedSequence(id)))) else None
  }

  /** The state after label `l`, or None when `l` cannot happen in `s`. */
  function Next(cfg: Config, s: State, l: Label): Option<State> {
    if !OfRun(l) then EnvNext(cfg, s, l)
    else if !HasPlan(cfg, s) then None
    else match RunEffect(cfg, s, l)
      case None => None
      case Some(e) => Some(Perform(s, e))
  }

  // ---------------------------------------------------------------------
  // Runs.

  ghost predicate StepOf(cfg: Config, s: State, l: Label, s': State) {
    Next(cfg, s, l) == Some(s')
  }

  ghost predicate StepAt(cfg: Config, ss: seq<State>, ls: seq<Label>, i: int) {
    0 <= i < |ls| && i + 1 < |ss| && StepOf(cfg, ss[i], ls[i], ss[i + 1])
  }

  /** A run from the empty database. */
  ghost predicate IsRun(cfg: Config, ss: seq<State>, ls: seq<Label>) {
    && |ss| == |ls| + 1
    && ss[0] == INIT
    && forall i | 0 <= i < |ls| :: StepAt(cfg, ss, ls, i)
  }

  /** The machine's power does not fail between states `i` and `j`: processes may
      crash, committed writes all survive. */
  ghost predicate PowerHolds(ls: seq<Label>, i: nat, j: nat)
    requires j <= |ls|
  {
    forall m | i <= m < j :: !ls[m].Cut?
  }

  predicate IsCrash(l: Label) {
    l.ProcessCrash? || l.Cut?
  }

  /** The daemon does not die between states `i` and `j`. */
  ghost predicate StaysUp(ls: seq<Label>, i: nat, j: nat)
    requires j <= |ls|
  {
    forall m | i <= m < j :: !IsCrash(ls[m])
  }
}

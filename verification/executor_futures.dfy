/** What a restart can still do, and what undoes an abort, a stage record and the
    post-shutdown flag: exact conditions on the database a crash leaves behind. */
module ExecutorFutures {
  import opened Tables
  import opened Disks
  import opened Machine
  import opened Paths
  import opened ExecutorInvariant
  import opened ExecutorInduction
  import opened ExecutorRuns
  import opened ExecutorTheorems
  import opened ExecutorLocks
  import opened ExecutorCounts

  // ---------------------------------------------------------------------
  // One resumed sequence, driven as far as one likes.

  predicate Stands(s: State, id: SeqId, pc: Pc) {
    s.proc.Running? && s.proc.act.id == id && !s.proc.act.abortReq && s.proc.act.pc == pc
  }

  /** The same sequence, still free to lock what it could lock. */
  ghost predicate Keeps(s: State, t: State) {
    && s.proc.Running? && t.proc.Running?
    && t.proc.act.id == s.proc.act.id
    && t.proc.act.row.plan == s.proc.act.row.plan
    && t.proc.act.row.postRun == s.proc.act.row.postRun
    && forall c | CanLock(s.disk.Current(), c, s.proc.act.id) :: CanLock(t.disk.Current(), c, s.proc.act.id)
  }

  ghost predicate Drives(cfg: Config, s: State, t: State) {
    Leads(cfg, s, t) && HasPlan(cfg, t) && Keeps(s, t)
  }

  lemma StandsStill(cfg: Config, s: State)
    requires HasPlan(cfg, s)
    ensures Drives(cfg, s, s)
  {
    LeadsNowhere(cfg, s);
  }

  lemma Then(cfg: Config, s: State, t: State, u: State)
    requires Drives(cfg, s, t) && Drives(cfg, t, u)
    ensures Drives(cfg, s, u)
  {
    LeadsThrough(cfg, s, t, u);
  }

  function StagesOf(cfg: Config, s: State): seq<Stage> {
    if HasPlan(cfg, s) then cfg.plans[s.proc.act.row.plan].stages else []
  }

  lemma Step(cfg: Config, s: State, t: State, l: Label) returns (u: State)
    requires Drives(cfg, s, t) && OfRun(l) && RunEffect(cfg, t, l).Some?
    requires Keeps(t, Perform(t, RunEffect(cfg, t, l).value))
    ensures Drives(cfg, s, u) && u == Perform(t, RunEffect(cfg, t, l).value)
  {
    u := Perform(t, RunEffect(cfg, t, l).value);
    LeadsOn(cfg, s, t, l, u);
  }

  lemma ResumePoint(cfg: Config, s: State, id: SeqId)
    requires Inv(cfg, s) && Stands(s, id, Resuming)
    ensures HasPlan(cfg, s)
    ensures RecordedBelow(s.disk.Current(), id, ResumeAt(s.disk.Current(), id, |StagesOf(cfg, s)|, 0))
  {
    var db := s.disk.Current();
    var at := ResumeAt(db, id, |StagesOf(cfg, s)|, 0);
    assert Good(db) && !Recorded(db, id, at);
  }

  lemma ResumeMoves(cfg: Config, s: State, id: SeqId)
    requires HasPlan(cfg, s) && Stands(s, id, Resuming) && s.proc.act.row.phase.ShuttingDown?
    ensures RunEffect(cfg, s, Main(Plain)).Some?
    ensures var t := Perform(s, RunEffect(cfg, s, Main(Plain)).value);
      && Keeps(s, t) && t.disk == s.disk
      && Stands(t, id, Reconciling(ResumeAt(s.disk.Current(), id, |StagesOf(cfg, s)|, 0)))
  {
  }

  /** resumeSequence in a sequence still shutting down. */
  lemma JoinsLoop(cfg: Config, s: State, id: SeqId) returns (t: State, at: nat)
    requires Inv(cfg, s) && Stands(s, id, Resuming) && s.proc.act.row.phase.ShuttingDown?
    ensures Drives(cfg, s, t) && Stands(t, id, LoopTop(at)) && t.disk == s.disk
    ensures at <= |StagesOf(cfg, s)| && RecordedBelow(s.disk.Current(), id, at)
  {
    ResumePoint(cfg, s, id);
    at := ResumeAt(s.disk.Current(), id, |StagesOf(cfg, s)|, 0);
    t := Reconciles(cfg, s, id, at);
  }

  lemma Reconciles(cfg: Config, s: State, id: SeqId, at: nat) returns (t: State)
    requires HasPlan(cfg, s) && Stands(s, id, Resuming) && s.proc.act.row.phase.ShuttingDown?
    requires at == ResumeAt(s.disk.Current(), id, |StagesOf(cfg, s)|, 0)
    ensures Drives(cfg, s, t) && Stands(t, id, LoopTop(at)) && t.disk == s.disk
  {
    StandsStill(cfg, s);
    ResumeMoves(cfg, s, id);
    t := Step(cfg, s, s, Main(Plain));
    t := Step(cfg, s, t, Main(ReconcileEnd));
  }

  lemma EntersStage(cfg: Config, s: State, id: SeqId, i: nat) returns (t: State)
    requires HasPlan(cfg, s) && Stands(s, id, LoopTop(i)) && i < |StagesOf(cfg, s)|
    ensures Drives(cfg, s, t) && Stands(t, id, Entering(i))
  {
    StandsStill(cfg, s);
    t := Step(cfg, s, s, Main(Plain));
    t := Step(cfg, s, t, Main(NoAbort));
    t := Step(cfg, s, t, Main(WhenTrue));
  }

  /** Crossing, if this stage crosses, and opening the record. */
  lemma EnterMoves(cfg: Config, s: State, id: SeqId, i: nat)
    requires HasPlan(cfg, s) && i < |StagesOf(cfg, s)|
    requires Stands(s, id, Entering(i)) || Stands(s, id, PonrSave(i)) || Stands(s, id, Opening(i))
    ensures RunEffect(cfg, s, Main(Plain)).Some?
    ensures var t := Perform(s, RunEffect(cfg, s, Main(Plain)).value);
      && Keeps(s, t)
      && (s.proc.act.pc.Entering? ==> Stands(t, id, PonrSave(i)) || Stands(t, id, Opening(i)))
      && (s.proc.act.pc.PonrSave? ==> Stands(t, id, Opening(i)))
      && (s.proc.act.pc.Opening? ==> Stands(t, id, InStage(i, StageClients(StagesOf(cfg, s)[i]))))
  {
  }

  lemma OpensStage(cfg: Config, s: State, id: SeqId, i: nat) returns (t: State)
    requires HasPlan(cfg, s) && Stands(s, id, Entering(i)) && i < |StagesOf(cfg, s)|
    ensures Drives(cfg, s, t) && Stands(t, id, InStage(i, StageClients(StagesOf(cfg, s)[i])))
  {
    StandsStill(cfg, s);
    EnterMoves(cfg, s, id, i);
    t := Step(cfg, s, s, Main(Plain));
    if t.proc.act.pc.PonrSave? {
      EnterMoves(cfg, t, id, i);
      t := Step(cfg, s, t, Main(Plain));
    }
    EnterMoves(cfg, t, id, i);
    t := Step(cfg, s, t, Main(Plain));
  }

  lemma StartsStage(cfg: Config, s: State, id: SeqId, i: nat) returns (t: State)
    requires HasPlan(cfg, s) && Stands(s, id, LoopTop(i)) && i < |StagesOf(cfg, s)|
    ensures Drives(cfg, s, t) && Stands(t, id, InStage(i, StageClients(StagesOf(cfg, s)[i])))
  {
    t := EntersStage(cfg, s, id, i);
    var u := OpensStage(cfg, t, id, i);
    Then(cfg, s, t, u);
    t := u;
  }

  // ---------------------------------------------------------------------
  // The clients of a stage.

  /** Where one step of client `c` takes it. */
  function NextFor(pc: ClientPc, n: IntentId): ClientPc {
    match pc
    case Todo => Holding
    case Holding => Recording(n)
    case Recording(k) => Sent(k)
    case Sent(_) => Settling
    case _ => Done
  }

  function OutcomeFor(pc: ClientPc): ClientOutcome {
    match pc
    case Todo => TryLock
    case Holding => SaveIntentFirst
    case Recording(_) => Send
    case Sent(_) => Report
    case _ => Settle
  }

  lemma ClientMoves(cfg: Config, s: State, id: SeqId, i: nat, m: map<Client, ClientPc>, c: Client)
    requires HasPlan(cfg, s) && Stands(s, id, InStage(i, m)) && c in m && !m[c].Done?
    requires m[c].Todo? ==> c in cfg.reachable && CanLock(s.disk.Current(), c, id)
    ensures var l := ClientStep(c, OutcomeFor(m[c]));
      && RunEffect(cfg, s, l).Some?
      && var t := Perform(s, RunEffect(cfg, s, l).value);
        && Keeps(s, t)
        && Stands(t, id, InStage(i, m[c := NextFor(m[c], s.nextIntent)]))
  {
  }

  lemma ClientAdvances(cfg: Config, s: State, t: State, id: SeqId, i: nat, m: map<Client, ClientPc>, c: Client, x: ClientPc)
    returns (u: State, y: ClientPc)
    requires Drives(cfg, s, t) && c in m && !x.Done? && Stands(t, id, InStage(i, m[c := x]))
    requires x.Todo? ==> c in cfg.reachable && CanLock(t.disk.Current(), c, id)
    ensures Drives(cfg, s, u) && y == NextFor(x, t.nextIntent) && Stands(u, id, InStage(i, m[c := y]))
  {
    y := NextFor(x, t.nextIntent);
    ClientMoves(cfg, t, id, i, m[c := x], c);
    u := Step(cfg, s, t, ClientStep(c, OutcomeFor(x)));
    assert m[c := x][c := y] == m[c := y];
  }

  /** Locks `c` and records its intent; sending is the next step. */
  lemma RecordsIntent(cfg: Config, s: State, id: SeqId, i: nat, m: map<Client, ClientPc>, c: Client) returns (t: State, n: IntentId)
    requires HasPlan(cfg, s) && Stands(s, id, InStage(i, m)) && c in m && m[c].Todo?
    requires c in cfg.reachable && CanLock(s.disk.Current(), c, id)
    ensures Drives(cfg, s, t) && Stands(t, id, InStage(i, m[c := Recording(n)]))
  {
    StandsStill(cfg, s);
    assert m[c := Todo] == m;
    var u, x := ClientAdvances(cfg, s, s, id, i, m, c, Todo);
    n := u.nextIntent;
    t, x := ClientAdvances(cfg, s, u, id, i, m, c, x);
  }

  lemma SendsAndSettles(cfg: Config, s: State, id: SeqId, i: nat, m: map<Client, ClientPc>, c: Client, n: IntentId) returns (t: State)
    requires HasPlan(cfg, s) && c in m && Stands(s, id, InStage(i, m[c := Recording(n)]))
    ensures Drives(cfg, s, t) && Stands(t, id, InStage(i, m[c := Done]))
  {
    StandsStill(cfg, s);
    var u, x := ClientAdvances(cfg, s, s, id, i, m, c, Recording(n));
    t := Settles(cfg, s, u, id, i, m, c, n);
  }

  lemma Settles(cfg: Config, s: State, t: State, id: SeqId, i: nat, m: map<Client, ClientPc>, c: Client, n: IntentId) returns (u: State)
    requires Drives(cfg, s, t) && c in m && Stands(t, id, InStage(i, m[c := Sent(n)]))
    ensures Drives(cfg, s, u) && Stands(u, id, InStage(i, m[c := Done]))
  {
    var v, x := ClientAdvances(cfg, s, t, id, i, m, c, Sent(n));
    u, x := ClientAdvances(cfg, s, v, id, i, m, c, Settling);
  }

  lemma HandlesClient(cfg: Config, s: State, id: SeqId, i: nat, m: map<Client, ClientPc>, c: Client) returns (t: State)
    requires HasPlan(cfg, s) && Stands(s, id, InStage(i, m)) && c in m && m[c].Todo?
    ensures Drives(cfg, s, t) && Stands(t, id, InStage(i, m[c := Done]))
  {
    if c in cfg.reachable && CanLock(s.disk.Current(), c, id) {
      var n;
      t, n := RecordsIntent(cfg, s, id, i, m, c);
      var u := SendsAndSettles(cfg, t, id, i, m, c, n);
      Then(cfg, s, t, u);
      t := u;
    } else {
      StandsStill(cfg, s);
      t := Step(cfg, s, s, ClientStep(c, if c in cfg.reachable then TryLock else Absent));
    }
  }

  function Left(m: map<Client, ClientPc>): set<Client> {
    set c | c in m && m[c].Todo?
  }

  ghost predicate NotStarted(m: map<Client, ClientPc>) {
    forall c | c in m :: m[c].Todo? || m[c].Done?
  }

  lemma {:induction false} HandlesAll(cfg: Config, s: State, id: SeqId, i: nat, m: map<Client, ClientPc>)
    returns (t: State, m': map<Client, ClientPc>)
    requires HasPlan(cfg, s) && Stands(s, id, InStage(i, m)) && NotStarted(m)
    ensures Drives(cfg, s, t) && Stands(t, id, InStage(i, m')) && AllDone(m')
    decreases |Left(m)|
  {
    if Left(m) == {} {
      StandsStill(cfg, s);
      t, m' := s, m;
      forall c | c in m ensures m[c].Done? {
        assert c !in Left(m);
      }
    } else {
      var c :| c in Left(m);
      var u := HandlesClient(cfg, s, id, i, m, c);
      assert Left(m[c := Done]) == Left(m) - {c};
      t, m' := HandlesAll(cfg, u, id, i, m[c := Done]);
      Then(cfg, s, u, t);
    }
  }

  // ---------------------------------------------------------------------
  // Stages, one after another.

  lemma CloseMoves(cfg: Config, s: State, id: SeqId, i: nat, m: map<Client, ClientPc>)
    requires HasPlan(cfg, s) && Stands(s, id, InStage(i, m)) && AllDone(m) && i < |StagesOf(cfg, s)|
    ensures RunEffect(cfg, s, Main(Plain)).Some?
    ensures var t := Perform(s, RunEffect(cfg, s, Main(Plain)).value);
      Keeps(s, t) && Stands(t, id, LoopTop(i + 1))
  {
  }

  lemma PassesStage(cfg: Config, s: State, id: SeqId, i: nat) returns (t: State)
    requires HasPlan(cfg, s) && Stands(s, id, LoopTop(i)) && i < |StagesOf(cfg, s)|
    ensures Drives(cfg, s, t) && Stands(t, id, LoopTop(i + 1))
  {
    t := StartsStage(cfg, s, id, i);
    var u, m := HandlesAll(cfg, t, id, i, t.proc.act.pc.clients);
    Then(cfg, s, t, u);
    CloseMoves(cfg, u, id, i, m);
    t := Step(cfg, s, u, Main(Plain));
  }

  lemma {:induction false} PassesStages(cfg: Config, s: State, id: SeqId, i: nat, k: nat) returns (t: State)
    requires HasPlan(cfg, s) && Stands(s, id, LoopTop(i)) && i <= k <= |StagesOf(cfg, s)|
    ensures Drives(cfg, s, t) && Stands(t, id, LoopTop(k))
    decreases k - i
  {
    if i == k {
      StandsStill(cfg, s);
      t := s;
    } else {
      var u := PassesStage(cfg, s, id, i);
      t := PassesStages(cfg, u, id, i + 1, k);
      Then(cfg, s, u, t);
    }
  }

  /** From the loop to the command of any client of a stage still to come. */
  lemma ReachesCommand(cfg: Config, s: State, id: SeqId, i: nat, k: nat, c: Client) returns (t: State, n: IntentId)
    requires HasPlan(cfg, s) && Stands(s, id, LoopTop(i)) && i <= k < |StagesOf(cfg, s)|
    requires c in StagesOf(cfg, s)[k].clients && c in cfg.reachable && CanLock(s.disk.Current(), c, id)
    ensures Drives(cfg, s, t) && t.proc.act.pc.InStage? && t.proc.act.pc.i == k && t.proc.act.id == id
    ensures c in t.proc.act.pc.clients && t.proc.act.pc.clients[c] == Recording(n)
  {
    var u := PassesStages(cfg, s, id, i, k);
    var v := StartsStage(cfg, u, id, k);
    Then(cfg, s, u, v);
    t, n := RecordsIntent(cfg, v, id, k, v.proc.act.pc.clients, c);
    Then(cfg, s, v, t);
  }

  /** From the loop to the post-shutdown action. */
  lemma ReachesPost(cfg: Config, s: State, id: SeqId, i: nat) returns (t: State)
    requires HasPlan(cfg, s) && Stands(s, id, LoopTop(i)) && i <= |StagesOf(cfg, s)|
    requires cfg.plans[s.proc.act.row.plan].post && !s.proc.act.row.postRun
    ensures Leads(cfg, s, t) && HasPlan(cfg, t) && Stands(t, id, PostIssue)
  {
    var u := PassesStages(cfg, s, id, i, |StagesOf(cfg, s)|);
    u := Step(cfg, s, u, Main(Plain));
    t := Perform(u, RunEffect(cfg, u, Main(Plain)).value);
    LeadsOn(cfg, s, u, Main(Plain), t);
  }

  // ---------------------------------------------------------------------
  // What a restart can still do, read off the database it finds.

  /** A restart can command `c` of stage `k`: the sequence is still shutting down,
      that stage is unrecorded, the client known and not locked by another. */
  predicate CanCommand(cfg: Config, db: Db, id: SeqId, k: nat, c: Client) {
    && id in db.seqs && db.seqs[id].phase.ShuttingDown? && db.seqs[id].plan in cfg.plans
    && k < |cfg.plans[db.seqs[id].plan].stages|
    && c in cfg.plans[db.seqs[id].plan].stages[k].clients && c in cfg.reachable
    && !Recorded(db, id, k) && CanLock(db, c, id)
  }

  /** A restart can issue the post-shutdown action: the sequence is still shutting
      down and the flag unsaved. */
  predicate CanPost(cfg: Config, db: Db, id: SeqId) {
    Unsaved(db, id) && db.seqs[id].plan in cfg.plans && cfg.plans[db.seqs[id].plan].post
  }

  /** A restart can still carry out `e`. */
  predicate CanAct(cfg: Config, db: Db, e: Event)
    requires e.Command? || e.PostIssued?
  {
    match e
    case Command(id, k, c, _) => CanCommand(cfg, db, id, k, c)
    case PostIssued(id) => CanPost(cfg, db, id)
  }

  /** `ss'` continues `ss` without the power failing again. */
  ghost predicate Future(cfg: Config, ss: seq<State>, ls: seq<Label>, ss': seq<State>, ls': seq<Label>) {
    IsRun(cfg, ss', ls') && ss <= ss' && ls < ls' && PowerHolds(ls', |ls|, |ls'|)
  }

  ghost predicate EndsWith(ss: seq<State>, e: Event) {
    |ss| > 1 && Emits(ss[|ss| - 2], ss[|ss| - 1], e)
  }

  /** The restart that resumes `id`. */
  lemma Resumes(cfg: Config, ss: seq<State>, ls: seq<Label>, id: SeqId) returns (s: State)
    requires IsRun(cfg, ss, ls) && ss[|ls|].proc.Down?
    requires var db := ss[|ls|].disk.Current(); Live(db, id) && db.seqs[id].plan in cfg.plans
    ensures IsRun(cfg, ss + [s], ls + [RestartResume(id)]) && Inv(cfg, s) && s.disk == ss[|ls|].disk
    ensures s.proc == Running(Active(id, s.disk.Current().seqs[id], false, false, Resuming))
  {
    s := Next(cfg, ss[|ls|], RestartResume(id)).value;
    StepExtendsRun(cfg, ss, ls, RestartResume(id), s);
    RunInv(cfg, ss, ls, |ls|);
    StepKeepsInv(cfg, ss[|ls|], RestartResume(id), s);
  }

  lemma NoCrashAdded(ls: seq<Label>, rest: seq<Label>)
    requires forall l | l in rest :: !IsCrash(l)
    ensures StaysUp(ls + rest, |ls|, |ls + rest|) && PowerHolds(ls + rest, |ls|, |ls + rest|)
  {
    forall m | |ls| <= m < |ls + rest| ensures !IsCrash((ls + rest)[m]) {
      assert rest[m - |ls|] in rest;
    }
  }

  lemma PathAfterRestart(cfg: Config, ss: seq<State>, ls: seq<Label>, id: SeqId, s: State, t: State)
    returns (ss': seq<State>, rest: seq<Label>)
    requires IsRun(cfg, ss + [s], ls + [RestartResume(id)]) && Leads(cfg, s, t)
    ensures IsRun(cfg, ss', ls + rest) && ss <= ss' && ss'[|ss'| - 1] == t
    ensures forall l | l in rest :: !IsCrash(l)
  {
    var path :| Path(cfg, s, path, t);
    var ls1;
    ss', ls1 := PathContinuesRun(cfg, ss + [s], ls + [RestartResume(id)], path, t);
    rest := [RestartResume(id)] + path;
    Regrouped(ls, RestartResume(id), path);
    RestNeverCrashes(RestartResume(id), path);
    assert ss <= ss + [s];
  }

  lemma Regrouped(ls: seq<Label>, l: Label, path: seq<Label>)
    ensures ls + [l] + path == ls + ([l] + path)
  {
  }

  lemma RestNeverCrashes(l: Label, path: seq<Label>)
    requires !IsCrash(l) && forall k | k in path :: OfRun(k)
    ensures forall k | k in [l] + path :: !IsCrash(k)
  {
  }

  /** A path of the resumed process and one more step make a future. */
  lemma Continues(cfg: Config, ss: seq<State>, ls: seq<Label>, id: SeqId, s: State, t: State, l: Label, u: State)
    returns (ss': seq<State>, ls': seq<Label>)
    requires IsRun(cfg, ss + [s], ls + [RestartResume(id)]) && Leads(cfg, s, t) && OfRun(l) && StepOf(cfg, t, l, u)
    ensures Future(cfg, ss, ls, ss', ls')
    ensures |ss'| > 1 && ss'[|ss'| - 2] == t && ss'[|ss'| - 1] == u
  {
    var ss1, rest := PathAfterRestart(cfg, ss, ls, id, s, t);
    StepExtendsRun(cfg, ss1, ls + rest, l, u);
    NoCrashAdded(ls, rest + [l]);
    assert ls + rest + [l] == ls + (rest + [l]);
    ss', ls' := ss1 + [u], ls + (rest + [l]);
  }

  lemma SendsCommand(cfg: Config, s: State, id: SeqId, k: nat, c: Client, n: IntentId) returns (t: State)
    requires HasPlan(cfg, s) && s.proc.act.id == id && s.proc.act.pc.InStage? && s.proc.act.pc.i == k
    requires c in s.proc.act.pc.clients && s.proc.act.pc.clients[c] == Recording(n)
    ensures StepOf(cfg, s, ClientStep(c, Send), t) && Emits(s, t, Command(id, k, c, n))
  {
    t := Perform(s, RunEffect(cfg, s, ClientStep(c, Send)).value);
  }

  lemma IssuesAction(cfg: Config, s: State, id: SeqId) returns (t: State)
    requires HasPlan(cfg, s) && Stands(s, id, PostIssue)
    ensures StepOf(cfg, s, Main(Issue), t) && Emits(s, t, PostIssued(id))
  {
    t := Perform(s, RunEffect(cfg, s, Main(Issue)).value);
  }

  lemma CommandAhead(cfg: Config, ss: seq<State>, ls: seq<Label>, id: SeqId, k: nat, c: Client)
    returns (ss': seq<State>, ls': seq<Label>, n: IntentId)
    requires IsRun(cfg, ss, ls) && ss[|ls|].proc.Down? && CanCommand(cfg, ss[|ls|].disk.Current(), id, k, c)
    ensures Future(cfg, ss, ls, ss', ls') && EndsWith(ss', Command(id, k, c, n))
  {
    var s := Resumes(cfg, ss, ls, id);
    var t, at := JoinsLoop(cfg, s, id);
    var u;
    u, n := ReachesCommand(cfg, t, id, at, k, c);
    Then(cfg, s, t, u);
    var v := SendsCommand(cfg, u, id, k, c, n);
    ss', ls' := Continues(cfg, ss, ls, id, s, u, ClientStep(c, Send), v);
  }

  lemma PostAhead(cfg: Config, ss: seq<State>, ls: seq<Label>, id: SeqId) returns (ss': seq<State>, ls': seq<Label>)
    requires IsRun(cfg, ss, ls) && ss[|ls|].proc.Down? && CanPost(cfg, ss[|ls|].disk.Current(), id)
    ensures Future(cfg, ss, ls, ss', ls') && EndsWith(ss', PostIssued(id))
  {
    var s := Resumes(cfg, ss, ls, id);
    var t, at := JoinsLoop(cfg, s, id);
    var u := ReachesPost(cfg, t, id, at);
    LeadsThrough(cfg, s, t, u);
    var v := IssuesAction(cfg, u, id);
    ss', ls' := Continues(cfg, ss, ls, id, s, u, Main(Issue), v);
  }

  // ---------------------------------------------------------------------
  // The other half: what was done must have been possible.

  /** `id` was given out, is not in the tables and not running: it is lost. */
  predicate Gone(s: State, id: SeqId) {
    id < s.nextSeq && id !in s.disk.Current().seqs && (s.proc.Running? ==> s.proc.act.id != id)
  }

  lemma StepStaysGone(cfg: Config, s: State, l: Label, s': State, id: SeqId)
    requires Inv(cfg, s) && StepOf(cfg, s, l, s') && Gone(s, id)
    ensures Gone(s', id)
  {
    if OfRun(l) {
      RunFits(cfg, s, l);
      assert OwnWrite(s.disk.Current(), s.proc.act, RunEffect(cfg, s, l).value.op);
    } else if l.Cut? {
      CutStaysGone(s, l.k, id);
    }
  }

  lemma CutStaysGone(s: State, k: nat, id: SeqId)
    requires Sound(s.disk) && Recoverable(s, k) && id !in s.disk.Current().seqs
    ensures id !in PowerCut(s.disk, k).Current().seqs
  {
    assert Advances(s.disk.versions[k], s.disk.Current());
  }

  lemma StepStaysGoneAt(cfg: Config, ss: seq<State>, ls: seq<Label>, i: nat, id: SeqId)
    requires IsRun(cfg, ss, ls) && i < |ls| && Gone(ss[i], id)
    ensures Gone(ss[i + 1], id)
  {
    assert StepAt(cfg, ss, ls, i);
    RunInv(cfg, ss, ls, i);
    StepStaysGone(cfg, ss[i], ls[i], ss[i + 1], id);
  }

  lemma {:induction false} GoneStays(cfg: Config, ss: seq<State>, ls: seq<Label>, i: nat, j: nat, id: SeqId)
    requires IsRun(cfg, ss, ls) && i <= j < |ss| && Gone(ss[i], id)
    ensures Gone(ss[j], id)
    decreases j - i
  {
    if i < j {
      GoneStays(cfg, ss, ls, i, j - 1, id);
      StepStaysGoneAt(cfg, ss, ls, j - 1, id);
    }
  }

  /** A restart that acts for `id` found `id` shutting down, under the same plan. */
  lemma WasShuttingDown(cfg: Config, ss: seq<State>, ls: seq<Label>, m: nat, j: nat, id: SeqId, e: Event)
    requires IsRun(cfg, ss, ls) && m <= j < |ls| && ss[m].proc.Down? && PowerHolds(ls, m, j)
    requires ActionOf(e, id) && id < ss[m].nextSeq && Emits(ss[j], ss[j + 1], e)
    ensures id in ss[m].disk.Current().seqs && Advances(ss[m].disk.Current(), ss[j].disk.Current())
    ensures RowLe(ss[m].disk.Current().seqs[id], ss[j].disk.Current().seqs[id])
    ensures ss[m].disk.Current().seqs[id].phase.ShuttingDown?
  {
    ActsOnlyShuttingDown(cfg, ss, ls, j, id, e);
    CommittedSurvives(cfg, ss, ls, m, j);
    if id !in ss[m].disk.Current().seqs {
      GoneStays(cfg, ss, ls, m, j, id);
    }
    assert RowLe(ss[m].disk.Current().seqs[id], ss[j].disk.Current().seqs[id]);
  }

  /** A client a restart commands was not locked by another sequence before. */
  lemma WasLockable(cfg: Config, ss: seq<State>, ls: seq<Label>, m: nat, j: nat, id: SeqId, c: Client)
    requires IsRun(cfg, ss, ls) && m <= j < |ss| && ss[m].proc.Down? && PowerHolds(ls, m, j)
    requires Live(ss[m].disk.Current(), id) && Locked(ss[j].disk.Current(), c, id) && Live(ss[j].disk.Current(), id)
    ensures CanLock(ss[m].disk.Current(), c, id)
  {
    var db := ss[m].disk.Current();
    RunInv(cfg, ss, ls, m);
    if c in db.locks && db.locks[c] != id {
      assert Good(db);
      assert Stuck(ss[m], c, db.locks[c]);
      StuckStays(cfg, ss, ls, m, j, c, db.locks[c]);
    }
  }

  lemma ActedMeansCould(cfg: Config, ss: seq<State>, ls: seq<Label>, m: nat, j: nat, id: SeqId, e: Event)
    requires IsRun(cfg, ss, ls) && m <= j < |ls| && ss[m].proc.Down? && PowerHolds(ls, m, j)
    requires ActionOf(e, id) && id < ss[m].nextSeq && Emits(ss[j], ss[j + 1], e)
    ensures CanAct(cfg, ss[m].disk.Current(), e)
  {
    WasShuttingDown(cfg, ss, ls, m, j, id, e);
    if e.Command? {
      CommandSituation(cfg, ss, ls, j, id, e.stage, e.client, e.intent);
      WasLockable(cfg, ss, ls, m, j, id, e.client);
      assert !Recorded(ss[j].disk.Current(), id, e.stage);
    } else {
      PostSituation(cfg, ss, ls, j, id);
    }
  }

  /** After a crash, until the power fails again, exactly the commands are possible
      that the recovered tables leave open. */
  lemma RestartCommandsExactly(cfg: Config, ss: seq<State>, ls: seq<Label>, id: SeqId, k: nat, c: Client)
    requires IsRun(cfg, ss, ls) && ss[|ls|].proc.Down? && id < ss[|ls|].nextSeq
    ensures CanCommand(cfg, ss[|ls|].disk.Current(), id, k, c) <==>
      exists ss', ls', n :: Future(cfg, ss, ls, ss', ls') && EndsWith(ss', Command(id, k, c, n))
  {
    if CanCommand(cfg, ss[|ls|].disk.Current(), id, k, c) {
      var ss', ls', n := CommandAhead(cfg, ss, ls, id, k, c);
    }
    forall ss', ls', n | Future(cfg, ss, ls, ss', ls') && EndsWith(ss', Command(id, k, c, n))
      ensures CanCommand(cfg, ss[|ls|].disk.Current(), id, k, c)
    {
      ActedMeansCould(cfg, ss', ls', |ls|, |ls'| - 1, id, Command(id, k, c, n));
    }
  }

  /** And the post-shutdown action exactly when they say it is still due. */
  lemma RestartPostsExactly(cfg: Config, ss: seq<State>, ls: seq<Label>, id: SeqId)
    requires IsRun(cfg, ss, ls) && ss[|ls|].proc.Down? && id < ss[|ls|].nextSeq
    ensures CanPost(cfg, ss[|ls|].disk.Current(), id) <==>
      exists ss', ls' :: Future(cfg, ss, ls, ss', ls') && EndsWith(ss', PostIssued(id))
  {
    if CanPost(cfg, ss[|ls|].disk.Current(), id) {
      var ss', ls' := PostAhead(cfg, ss, ls, id);
    }
    forall ss', ls' | Future(cfg, ss, ls, ss', ls') && EndsWith(ss', PostIssued(id))
      ensures CanPost(cfg, ss[|ls|].disk.Current(), id)
    {
      ActedMeansCould(cfg, ss', ls', |ls|, |ls'| - 1, id, PostIssued(id));
    }
  }

  // ---------------------------------------------------------------------
  // Aborts, stage records and the post-shutdown flag over whole runs.

  /** The last power cut between states `i` and `j`, if there is one. */
  lemma {:induction false} LastCut(ls: seq<Label>, i: nat, j: nat) returns (m: nat)
    requires i <= j <= |ls|
    ensures PowerHolds(ls, i, j) || (i <= m < j && ls[m].Cut? && PowerHolds(ls, m + 1, j))
    decreases j - i
  {
    m := i;
    if i < j {
      if ls[j - 1].Cut? {
        m := j - 1;
      } else {
        m := LastCut(ls, i, j - 1);
      }
    }
  }

  lemma {:induction false} LastCrash(ls: seq<Label>, i: nat, j: nat) returns (m: nat)
    requires i <= j <= |ls|
    ensures StaysUp(ls, i, j) || (i <= m < j && IsCrash(ls[m]) && StaysUp(ls, m + 1, j))
    decreases j - i
  {
    m := i;
    if i < j {
      if IsCrash(ls[j - 1]) {
        m := j - 1;
      } else {
        m := LastCrash(ls, i, j - 1);
      }
    }
  }

  lemma CrashGoesDown(cfg: Config, ss: seq<State>, ls: seq<Label>, m: nat)
    requires IsRun(cfg, ss, ls) && m < |ls| && IsCrash(ls[m])
    ensures ss[m + 1].proc.Down? && ss[m + 1].nextSeq == ss[m].nextSeq
  {
    assert StepAt(cfg, ss, ls, m);
  }

  lemma StepIdsGrow(cfg: Config, s: State, l: Label, s': State)
    requires StepOf(cfg, s, l, s')
    ensures s.nextSeq <= s'.nextSeq
  {
  }

  lemma {:induction false} IdsGrow(cfg: Config, ss: seq<State>, ls: seq<Label>, i: nat, j: nat)
    requires IsRun(cfg, ss, ls) && i <= j < |ss|
    ensures ss[i].nextSeq <= ss[j].nextSeq
    decreases j - i
  {
    if i < j {
      IdsGrow(cfg, ss, ls, i, j - 1);
      assert StepAt(cfg, ss, ls, j - 1);
      StepIdsGrow(cfg, ss[j - 1], ls[j - 1], ss[j]);
    }
  }

  /** The cut at step `m` recovers a database from which `e` can be carried out. */
  ghost predicate CutReopens(cfg: Config, ss: seq<State>, ls: seq<Label>, m: nat, e: Event)
    requires m < |ls| < |ss| && (e.Command? || e.PostIssued?)
  {
    ls[m].Cut? && CanAct(cfg, ss[m + 1].disk.Current(), e)
  }

  lemma CutBehind(cfg: Config, ss: seq<State>, ls: seq<Label>, i: nat, m: nat, j: nat, id: SeqId, e: Event)
    requires IsRun(cfg, ss, ls) && i <= m < j < |ls| && ls[m].Cut? && PowerHolds(ls, m + 1, j)
    requires ActionOf(e, id) && id in ss[i].disk.Current().seqs && Emits(ss[j], ss[j + 1], e)
    ensures CutReopens(cfg, ss, ls, m, e)
  {
    CrashGoesDown(cfg, ss, ls, m);
    RunInv(cfg, ss, ls, i);
    IdsGrow(cfg, ss, ls, i, m + 1);
    ActedMeansCould(cfg, ss, ls, m + 1, j, id, e);
  }

  lemma StaysPastShutdown(cfg: Config, ss: seq<State>, ls: seq<Label>, i: nat, j: nat, id: SeqId)
    requires IsRun(cfg, ss, ls) && i <= j < |ss| && PowerHolds(ls, i, j) && PastShutdown(ss[i], id)
    ensures PastShutdown(ss[j], id)
  {
    CommittedSurvives(cfg, ss, ls, i, j);
    assert RowLe(ss[i].disk.Current().seqs[id], ss[j].disk.Current().seqs[id]);
  }

  /** Once the saved phase has left shutting_down, nothing is done for that
      sequence except after a power cut that recovers it as still due. */
  lemma NothingAfterShutdownPhase(cfg: Config, ss: seq<State>, ls: seq<Label>, i: nat, j: nat, id: SeqId, e: Event)
    requires IsRun(cfg, ss, ls) && i <= j < |ls| && PastShutdown(ss[i], id)
    requires ActionOf(e, id) && Emits(ss[j], ss[j + 1], e)
    ensures exists m | i <= m < j :: CutReopens(cfg, ss, ls, m, e)
  {
    var m := LastCut(ls, i, j);
    if PowerHolds(ls, i, j) {
      StaysPastShutdown(cfg, ss, ls, i, j, id);
      ActsOnlyShuttingDown(cfg, ss, ls, j, id, e);
    } else {
      CutBehind(cfg, ss, ls, i, m, j, id, e);
    }
  }

  /** The abort that went ahead stays final, except for what a later power cut
      makes possible again; by RestartCommandsExactly and RestartPostsExactly,
      whatever a cut makes possible again can really follow. */
  lemma AbortIsHonoured(cfg: Config, ss: seq<State>, ls: seq<Label>, i: nat, j: nat, id: SeqId, e: Event)
    requires IsRun(cfg, ss, ls) && i < j < |ls|
    requires Emits(ss[i], ss[i + 1], AbortEntered(id))
    requires ActionOf(e, id) && Emits(ss[j], ss[j + 1], e)
    ensures exists m | i < m < j :: CutReopens(cfg, ss, ls, m, e)
  {
    AbortSavedAt(cfg, ss, ls, i, id);
    NothingAfterShutdownPhase(cfg, ss, ls, i + 1, j, id, e);
  }

  lemma RecordHasRow(cfg: Config, ss: seq<State>, ls: seq<Label>, i: nat, id: SeqId, k: nat)
    requires IsRun(cfg, ss, ls) && i < |ss| && Recorded(ss[i].disk.Current(), id, k)
    ensures id in ss[i].disk.Current().seqs
  {
    RunInv(cfg, ss, ls, i);
  }

  lemma NotRecordedFurther(cfg: Config, ss: seq<State>, ls: seq<Label>, i: nat, id: SeqId, k: nat, done: nat)
    requires IsRun(cfg, ss, ls) && i < |ss| && !Recorded(ss[i].disk.Current(), id, k) && k <= done
    ensures !Recorded(ss[i].disk.Current(), id, done)
  {
    RunInv(cfg, ss, ls, i);
    assert Good(ss[i].disk.Current());
  }

  /** A recorded stage, or one before it, is commanded again only after a power cut
      that recovers the tables without that record. */
  lemma RecordedStageNeverReruns(cfg: Config, ss: seq<State>, ls: seq<Label>, i: nat, j: nat,
                                 id: SeqId, done: nat, stage: nat, c: Client, n: IntentId)
    requires IsRun(cfg, ss, ls) && i <= j < |ls|
    requires Recorded(ss[i].disk.Current(), id, done) && stage <= done
    requires Emits(ss[j], ss[j + 1], Command(id, stage, c, n))
    ensures exists m | i <= m < j :: CutReopens(cfg, ss, ls, m, Command(id, stage, c, n)) &&
                                     !Recorded(ss[m + 1].disk.Current(), id, done)
  {
    RecordHasRow(cfg, ss, ls, i, id, done);
    var m := LastCut(ls, i, j);
    if PowerHolds(ls, i, j) {
      CommittedSurvives(cfg, ss, ls, i, j);
      CommandSituation(cfg, ss, ls, j, id, stage, c, n);
    } else {
      CutBehind(cfg, ss, ls, i, m, j, id, Command(id, stage, c, n));
      NotRecordedFurther(cfg, ss, ls, m + 1, id, stage, done);
    }
  }

  lemma {:induction false} SettledStaysUp(cfg: Config, ss: seq<State>, ls: seq<Label>, i: nat, j: nat, id: SeqId)
    requires IsRun(cfg, ss, ls) && i <= j < |ss| && StaysUp(ls, i, j) && !Issuable(ss[i], id)
    ensures !Issuable(ss[j], id)
    decreases j - i
  {
    if i < j {
      SettledStaysUp(cfg, ss, ls, i, j - 1, id);
      assert StepAt(cfg, ss, ls, j - 1);
      RunInv(cfg, ss, ls, j - 1);
      SettledStays(cfg, ss[j - 1], ls[j - 1], ss[j], id);
    }
  }

  lemma IssueNeedsIssuable(cfg: Config, ss: seq<State>, ls: seq<Label>, j: nat, id: SeqId)
    requires IsRun(cfg, ss, ls) && j < |ls| && Emits(ss[j], ss[j + 1], PostIssued(id))
    ensures Issuable(ss[j], id) && !Issuable(ss[j + 1], id)
  {
    assert StepAt(cfg, ss, ls, j);
    RunInv(cfg, ss, ls, j);
    EventSource(cfg, ss[j], ls[j], ss[j + 1], PostIssued(id));
    IssueSettles(cfg, ss[j], ls[j], ss[j + 1], id);
  }

  /** The post-shutdown action is issued a second time only after a crash, of the
      process or of the power, that recovers the sequence as still shutting down
      and the flag unsaved; by RestartPostsExactly, after any such crash it can be. */
  lemma PostNotRepeated(cfg: Config, ss: seq<State>, ls: seq<Label>, i: nat, j: nat, id: SeqId)
    requires IsRun(cfg, ss, ls) && i < j < |ls|
    requires Emits(ss[i], ss[i + 1], PostIssued(id)) && Emits(ss[j], ss[j + 1], PostIssued(id))
    ensures exists m | i < m < j :: IsCrash(ls[m]) && CanPost(cfg, ss[m + 1].disk.Current(), id)
  {
    IssueNeedsIssuable(cfg, ss, ls, i, id);
    IssueNeedsIssuable(cfg, ss, ls, j, id);
    var m := LastCrash(ls, i + 1, j);
    if StaysUp(ls, i + 1, j) {
      SettledStaysUp(cfg, ss, ls, i + 1, j, id);
    } else {
      CrashGoesDown(cfg, ss, ls, m);
      IdsGrow(cfg, ss, ls, i + 1, m + 1);
      ActedMeansCould(cfg, ss, ls, m + 1, j, id, PostIssued(id));
    }
  }

  /** After an abort has gone ahead, a power cut lets its sequence act again
      exactly when the tables it recovers have it still shutting down with a client
      left to command or the post-shutdown action still due. */
  lemma AbortUndoneExactly(cfg: Config, ss: seq<State>, ls: seq<Label>, i: nat, id: SeqId)
    requires IsRun(cfg, ss, ls) && i + 1 < |ls| && ls[|ls| - 1].Cut?
    requires Emits(ss[i], ss[i + 1], AbortEntered(id))
    ensures var db := ss[|ls|].disk.Current();
      (exists ss', ls', e :: Future(cfg, ss, ls, ss', ls') && ActionOf(e, id) && EndsWith(ss', e)) <==>
      (CanPost(cfg, db, id) || exists k: nat, c :: CanCommand(cfg, db, id, k, c))
  {
    var db := ss[|ls|].disk.Current();
    AbortSavedAt(cfg, ss, ls, i, id);
    RunInv(cfg, ss, ls, i + 1);
    IdsGrow(cfg, ss, ls, i + 1, |ls|);
    CrashGoesDown(cfg, ss, ls, |ls| - 1);
    if CanPost(cfg, db, id) {
      var ss', ls' := PostAhead(cfg, ss, ls, id);
      assert ActionOf(PostIssued(id), id);
    } else if k: nat, c :| CanCommand(cfg, db, id, k, c) {
      var ss', ls', n := CommandAhead(cfg, ss, ls, id, k, c);
      assert ActionOf(Command(id, k, c, n), id);
    }
    forall ss', ls', e | Future(cfg, ss, ls, ss', ls') && ActionOf(e, id) && EndsWith(ss', e)
      ensures CanAct(cfg, db, e)
    {
      ActedMeansCould(cfg, ss', ls', |ls|, |ls'| - 1, id, e);
    }
  }
}

/** The sequence executor as a program: the loops of sequence_run.go over the
    database and the live sequence, each proved to be a run of the machine. */
module Executors {
  import opened Options
  import opened Tables
  import opened Disks
  import opened Machine
  import opened Answers
  import opened AnswerTheorems
  import opened ActiveSequences

  /** `t` is `s` after effect `e`, seen piece by piece. */
  predicate Shows(s: State, e: Effect, t: State) {
    && t.disk == Write1(s.disk, e.op)
    && t.proc == Running(e.act)
    && t.trace == s.trace + e.events
    && t.nextSeq == s.nextSeq && t.leaked == s.leaked
    && t.nextIntent == if e.op.Flushed? && e.op.w.SaveIntent? then s.nextIntent + 1 else s.nextIntent
  }

  lemma Moves(cfg: Config, s: Drive, l: Label, e: Effect, t: Drive)
    requires HasPlan(cfg, s.state) && (l.Main? || l.ClientStep?) && RunEffect(cfg, s.state, l) == Some(e) && Shows(s.state, e, t.state)
    requires LeadsTo(cfg, cfg.plans[s.state.proc.act.row.plan], s.state.disk.Current(), s.state.proc.act, s.answer, l)
    requires t.script == s.script && t.answer == Kept(s.state.proc.act.pc, e.act.pc, s.answer)
    ensures Acted(cfg, s, l, t)
  {
  }

  // ---------------------------------------------------------------------
  // The program.

  const NO_POLL := Poll(false, false, false, false, false, false, false, false)

  datatype StageOutcome = Proceed | TimedOut | AbortedWait | Cancelled

  class Executor {
    const cfg: Config
    const db: Database
    const active: ActiveSequence
    var nextIntent: IntentId
    /** The answers still to come; the daemon stops when they run out. */
    var script: seq<Poll>
    ghost var pc: Pc
    /** The answer in force. */
    ghost var answer: Option<Poll>
    ghost var trace: seq<Event>
    ghost var nextSeq: SeqId
    ghost var leaked: set<SeqId>

    ghost predicate Valid()
      reads this, db, active
    {
      && db.Valid()
      && active.row.plan in cfg.plans && active.plan == cfg.plans[active.row.plan]
      && forall i | 0 <= i < |active.plan.stages| :: Distinct(active.plan.stages[i].clients)
    }

    ghost function Now(): Drive
      requires Valid()
      reads this, db, active
    {
      Drive(State(db.Image(), Running(active.View(pc)), trace, nextSeq, nextIntent, leaked), script, answer)
    }

    /** The daemon around a sequence it has just set up or restored. */
    constructor (cfg: Config, db: Database, active: ActiveSequence, script: seq<Poll>, nextIntent: IntentId, ghost s: State)
      requires db.Valid() && active.row.plan in cfg.plans && active.plan == cfg.plans[active.row.plan]
      requires forall i | 0 <= i < |active.plan.stages| :: Distinct(active.plan.stages[i].clients)
      requires s.proc.Running? && s.disk == db.Image() && s.proc.act == active.View(s.proc.act.pc) && s.nextIntent == nextIntent
      ensures Valid() && Now() == Drive(s, script, None) && this.cfg == cfg && this.db == db && this.active == active && this.script == script
    {
      this.cfg, this.db, this.active, this.script, this.nextIntent := cfg, db, active, script, nextIntent;
      this.pc, this.trace, this.nextSeq, this.leaked, this.answer := s.proc.act.pc, s.trace, s.nextSeq, s.leaked, None;
    }

    // -------------------------------------------------------------------
    // Looking at the outside world.

    /** The next answer, after the operator calls that came in before it. */
    method NextPoll() returns (p: Poll, stopped: bool)
      requires Valid() && Asks(pc) && answer.None?
      modifies this, active
      ensures Valid() && Driven(cfg, old(Now()), Now()) && pc == old(pc) && active.row == old(active.row)
      ensures stopped <==> old(script) == []
      ensures stopped ==> Now() == old(Now())
      ensures !stopped ==> old(script) == [p] + script && answer == Some(p)
      ensures Wakings(trace) == old(Wakings(trace)) && Deeds(trace) == old(Deeds(trace)) && nextIntent == old(nextIntent)
    {
      ghost var start := Now();
      DrivenNowhere(cfg, start);
      if script == [] {
        return NO_POLL, true;
      }
      p, stopped, script := script[0], false, script[1..];
      TakeCalls(p);
      answer := Some(p);
      DrivenOn(cfg, start, start, Ask, Now());
    }

    method TakeCalls(p: Poll)
      requires Valid()
      modifies this`trace, active
      ensures Valid() && Now() == old(Now()).(state := Called(old(Now()).state, p))
      ensures active.row == old(active.row) && Wakings(trace) == old(Wakings(trace)) && Deeds(trace) == old(Deeds(trace))
    {
      if p.abortCall {
        TakeAbortCall();
      }
      if p.proceedCall {
        active.RequestProceed();
      }
    }

    method TakeAbortCall()
      modifies this`trace, active`abortRequested
      ensures active.abortRequested == (old(active.abortRequested) || !active.row.ponr)
      ensures trace == old(trace) + [AbortAnswer(active.id, !active.row.ponr)]
      ensures Wakings(trace) == old(Wakings(trace)) && Deeds(trace) == old(Deeds(trace))
    {
      var accepted := active.RequestAbort();
      OneMoreEvent(trace, AbortAnswer(active.id, accepted));
      trace := trace + [AbortAnswer(active.id, accepted)];
    }

    /** The sequence is to stop: before the point of no return, on the operator's
        request or when the plan's own abort condition holds. */
    predicate Aborts(p: Poll)
      reads active
    {
      !active.row.ponr && (active.abortRequested || (active.plan.canAbort && p.abortHolds))
    }

    /** shouldAbort. */
    method ShouldAbort(p: Poll) returns (b: bool)
      ensures b == Aborts(p)
    {
      if active.row.ponr {
        return false;
      }
      if active.abortRequested {
        return true;
      }
      if !active.plan.canAbort {
        return false;
      }
      return p.abortHolds;
    }

    // -------------------------------------------------------------------
    // The stage loop, step by step.

    method SaveProgress(i: nat)
      requires Valid() && pc == LoopTop(i) && i < |active.plan.stages|
      modifies this, db, active
      ensures Valid() && Acted(cfg, old(Now()), Main(Plain), Now())
      ensures pc == AbortCheck(i) && script == old(script)
      ensures answer.None?
      ensures nextIntent == old(nextIntent) && trace == old(trace) && db.Image().Current().locks == old(db.Image().Current()).locks
    {
      ghost var before := Now();
      active.SetCurrentStage(i);
      db.Exec(SaveSequence(active.id, active.row));
      answer := Kept(pc, AbortCheck(i), answer);
      pc := AbortCheck(i);
      Moves(cfg, before, Main(Plain), Effect(active.View(pc), Lazy(SaveSequence(active.id, active.row)), []), Now());
    }

    /** A change of place that writes nothing. */
    ghost method Go(l: Label, next: Pc, start: Drive)
      requires Valid() && l.Main? && Driven(cfg, start, Now())
      requires MainStep(active.plan, db.Image().Current(), active.View(pc), l.o) == Some(Effect(active.View(next), NoWrite, []))
      requires LeadsTo(cfg, active.plan, db.Image().Current(), active.View(pc), answer, l)
      modifies this`pc, this`answer
      ensures pc == next && answer == Kept(old(pc), next, old(answer)) && Driven(cfg, start, Now())
    {
      ghost var before := Now();
      answer := Kept(pc, next, answer);
      pc := next;
      Moves(cfg, before, l, Effect(active.View(next), NoWrite, []), Now());
      DrivenOn(cfg, start, before, Act(l), Now());
    }

    /** waitForStage: `when` first, then the operator, then the abort, then the
        clock. `last` is the answer that ended the wait. On a timeout the stage's
        policy is still to be applied. */
    method WaitForStage(i: nat) returns (outcome: StageOutcome, last: Poll)
      requires Valid() && pc == Waiting(i) && answer.None? && i < |active.plan.stages|
      modifies this, active
      ensures Valid() && Driven(cfg, old(Now()), Now())
      ensures WaitEnds(i, outcome, last)
      ensures !outcome.Cancelled? ==>
        exists k: nat ::
          && Taken(old(script), script, k) && last == old(script)[k]
          && forall j | 0 <= j < k :: !old(script)[j].when && !old(script)[j].expired
      ensures nextIntent == old(nextIntent) && Deeds(trace) == old(Deeds(trace))
    {
      ghost var start, k: nat := Now(), 0;
      DrivenNowhere(cfg, start);
      while true
        invariant Valid() && Driven(cfg, start, Now()) && pc == Waiting(i) && answer.None?
        invariant k <= |old(script)| && script == old(script)[k..]
        invariant forall j | 0 <= j < k :: !old(script)[j].when && !old(script)[j].expired
        invariant nextIntent == old(nextIntent) && Deeds(trace) == old(Deeds(trace))
        decreases |script|
      {
        ghost var before := Now();
        var again;
        again, outcome, last := AskOnce(i);
        DrivenThrough(cfg, start, before, Now());
        if !again && outcome.Cancelled? {
          return;
        }
        TakenOn(old(script), k, last, script);
        if !again {
          return;
        }
        k := k + 1;
      }
    }

    /** How a wait that ends with `outcome` on the answer `last` leaves things. */
    ghost predicate WaitEnds(i: nat, outcome: StageOutcome, last: Poll)
      reads this, active
    {
      match outcome
      case Proceed => pc == Entering(i) && answer == Some(last) && (last.when || !active.proceedRequested)
      case AbortedWait => pc == AbortSave && answer.None? && !last.when && !active.proceedRequested && Aborts(last)
      case TimedOut => pc == Expiring(i) && answer.None? && !last.when && !active.proceedRequested && !Aborts(last) && last.expired
      case Cancelled => true
    }

    /** One poll of the wait. */
    method AskOnce(i: nat) returns (again: bool, outcome: StageOutcome, last: Poll)
      requires Valid() && pc == Waiting(i) && answer.None?
      modifies this, active
      ensures Valid() && Driven(cfg, old(Now()), Now())
      ensures if again then pc == Waiting(i) && answer.None? else WaitEnds(i, outcome, last)
      ensures again || !outcome.Cancelled? ==> old(script) == [last] + script
      ensures !again && outcome.Cancelled? ==> script == old(script)
      ensures nextIntent == old(nextIntent) && Deeds(trace) == old(Deeds(trace))
      ensures again ==> !last.when && !last.expired
    {
      ghost var start := Now();
      var p, stopped := NextPoll();
      last := p;
      if stopped {
        return false, Cancelled, last;
      }
      ghost var here := Now();
      if p.when {
        Go(Main(WhenTrue), Entering(i), start);
        return false, Proceed, last;
      }
      if active.proceedRequested {
        TakeProceed(i);
        DrivenOn(cfg, start, here, Act(Main(Forced)), Now());
        return false, Proceed, last;
      }
      Go(Main(Plain), WaitAbort(i), start);
      again, outcome := AskAbort(i, p, start);
    }

    /** shouldAbort and the clock, in one poll of the wait. */
    method AskAbort(i: nat, p: Poll, ghost start: Drive) returns (again: bool, outcome: StageOutcome)
      requires Valid() && pc == WaitAbort(i) && answer == Some(p) && Driven(cfg, start, Now())
      requires !p.when && !active.proceedRequested
      modifies this`pc, this`answer
      ensures Valid() && Driven(cfg, start, Now())
      ensures if again then pc == Waiting(i) && answer.None? else WaitEnds(i, outcome, p) && !outcome.Cancelled?
      ensures again ==> !p.expired
    {
      ghost var asking := Now();
      var abort := ShouldAbort(p);
      if abort {
        StopWaiting(p, start);
        return false, AbortedWait;
      }
      if p.expired {
        Go(Main(Expired), Expiring(i), start);
        return false, TimedOut;
      }
      WaitOn(p, start);
      return true, Proceed;
    }

    ghost method StopWaiting(p: Poll, start: Drive)
      requires Valid() && (pc.WaitAbort? || pc.AbortCheck?) && answer == Some(p) && Driven(cfg, start, Now()) && Aborts(p)
      modifies this`pc, this`answer
      ensures Valid() && Driven(cfg, start, Now()) && pc == AbortSave && answer.None?
    {
      Go(Main(AbortNow), AbortSave, start);
    }

    ghost method WaitOn(p: Poll, start: Drive)
      requires Valid() && answer == Some(p) && Driven(cfg, start, Now()) && !Aborts(p)
      requires pc.AbortCheck? || (pc.WaitAbort? && !p.expired)
      modifies this`pc, this`answer
      ensures Valid() && Driven(cfg, start, Now()) && pc == Waiting(old(pc).i) && answer.None?
    {
      Go(Main(NoAbort), Waiting(pc.i), start);
    }

    /** An operator's proceed releases this stage only. */
    method TakeProceed(i: nat)
      requires Valid() && pc == Waiting(i) && active.proceedRequested && answer.Some? && !answer.value.when
      modifies this, active
      ensures Valid() && Acted(cfg, old(Now()), Main(Forced), Now()) && pc == Entering(i) && script == old(script)
      ensures !active.proceedRequested && answer == old(answer)
      ensures nextIntent == old(nextIntent) && trace == old(trace)
    {
      ghost var before := Now();
      var asked := active.ConsumeProceed();
      answer := Kept(pc, Entering(i), answer);
      pc := Entering(i);
      Moves(cfg, before, Main(Forced), Effect(active.View(pc), NoWrite, []), Now());
    }

    /** handleStageTimeout: hold waits again, anything else records the skip. */
    method HandleStageTimeout(i: nat) returns (hold: bool)
      requires Valid() && pc == Expiring(i) && i < |active.plan.stages|
      modifies this, db, active
      ensures Valid() && Acted(cfg, old(Now()), Main(Plain), Now()) && script == old(script)
      ensures hold == active.plan.stages[i].hold && pc == LoopTop(if hold then i else i + 1)
      ensures Recorded(db.Image().Current(), active.id, i) <==> !hold || old(Recorded(db.Image().Current(), active.id, i))
      ensures answer.None?
      ensures nextIntent == old(nextIntent) && trace == old(trace) + if hold then [] else [StageRecorded(active.id, i)]
      ensures db.Image().Current().locks == old(db.Image().Current()).locks
    {
      ghost var before := Now();
      if active.plan.stages[i].hold {
        active.SetCurrentStage(i);
        answer := Kept(pc, LoopTop(i), answer);
        pc := LoopTop(i);
        Moves(cfg, before, Main(Plain), Effect(active.View(pc), NoWrite, []), Now());
        return true;
      }
      RecordSkip(i);
      return false;
    }

    /** Records the stage as passed without having run. */
    method RecordSkip(i: nat)
      requires Valid() && pc == Expiring(i) && i < |active.plan.stages| && !active.plan.stages[i].hold
      modifies this, db
      ensures Valid() && Acted(cfg, old(Now()), Main(Plain), Now()) && script == old(script) && answer.None?
      ensures pc == LoopTop(i + 1) && Recorded(db.Image().Current(), active.id, i)
      ensures nextIntent == old(nextIntent) && trace == old(trace) + [StageRecorded(active.id, i)]
      ensures db.Image().Current().locks == old(db.Image().Current()).locks
    {
      ghost var before := Now();
      db.Exec(SaveStageRecord(active.id, i, true));
      trace := trace + [StageRecorded(active.id, i)];
      answer := None;
      pc := LoopTop(i + 1);
      Moves(cfg, before, Main(Plain),
            Effect(active.View(pc), Lazy(SaveStageRecord(active.id, i, true)), [StageRecorded(active.id, i)]), Now());
    }

    /** Crossing the point of no return, flushed before anything is dispatched. */
    method EnterStage(i: nat)
      requires Valid() && pc == Entering(i) && i < |active.plan.stages| && answer.Some?
      modifies this, db, active
      ensures Valid() && Driven(cfg, old(Now()), Now()) && pc == Opening(i) && script == old(script)
      ensures answer == old(answer) && trace == old(trace) && nextIntent == old(nextIntent)
      ensures db.Image().Current().locks == old(db.Image().Current()).locks
    {
      ghost var start := Now();
      DrivenNowhere(cfg, start);
      if active.plan.stages[i].ponr {
        var crossed := Cross(i);
        if crossed {
          DrivenOn(cfg, start, start, Act(Main(Plain)), Now());
          SavePonr(i, start);
          return;
        }
      }
      Go(Main(Plain), Opening(i), start);
    }

    /** Crosses the point of no return, if that has not been done. */
    method Cross(i: nat) returns (crossed: bool)
      requires Valid() && pc == Entering(i) && i < |active.plan.stages| && active.plan.stages[i].ponr && answer.Some?
      modifies this`pc, active
      ensures Valid() && crossed == !old(active.row.ponr) && active.row.ponr
      ensures crossed ==> Acted(cfg, old(Now()), Main(Plain), Now()) && pc == PonrSave(i)
      ensures !crossed ==> Now() == old(Now())
    {
      ghost var before := Now();
      crossed := active.CrossPonr();
      if crossed {
        pc := PonrSave(i);
        Moves(cfg, before, Main(Plain), Effect(active.View(pc), NoWrite, []), Now());
      } else {
        assert active.row == before.state.proc.act.row;
      }
    }

    method SavePonr(i: nat, ghost start: Drive)
      requires Valid() && pc == PonrSave(i) && i < |active.plan.stages| && Driven(cfg, start, Now())
      modifies this, db
      ensures Valid() && Driven(cfg, start, Now()) && pc == Opening(i) && script == old(script)
      ensures answer == old(answer) && trace == old(trace) && nextIntent == old(nextIntent) && db.Image().Current().locks == old(db.Image().Current()).locks
    {
      ghost var before := Now();
      db.Durably(SaveSequence(active.id, active.row));
      answer := Kept(pc, Opening(i), answer);
      pc := Opening(i);
      Moves(cfg, before, Main(Plain), Effect(active.View(pc), Flushed(SaveSequence(active.id, active.row)), []), Now());
      DrivenOn(cfg, start, before, Act(Main(Plain)), Now());
    }

    // -------------------------------------------------------------------
    // One stage. Its clients are handled one after another here; the machine
    // lets them interleave.

    method OpenStage(i: nat)
      requires Valid() && pc == Opening(i) && i < |active.plan.stages|
      modifies this, db
      ensures Valid() && Acted(cfg, old(Now()), Main(Plain), Now()) && script == old(script)
      ensures pc == InStage(i, StageClients(active.plan.stages[i]))
      ensures trace == old(trace) && nextIntent == old(nextIntent)
      ensures db.Image().Current().locks == old(db.Image().Current()).locks
      ensures answer == old(answer)
    {
      ghost var before := Now();
      db.Exec(SaveStageRecord(active.id, i, false));
      answer := Kept(pc, InStage(i, StageClients(active.plan.stages[i])), answer);
      pc := InStage(i, StageClients(active.plan.stages[i]));
      Moves(cfg, before, Main(Plain), Effect(active.View(pc), Lazy(SaveStageRecord(active.id, i, false)), []), Now());
    }

    method CloseStage(i: nat)
      requires Valid() && pc.InStage? && pc.i == i && i < |active.plan.stages| && AllDone(pc.clients)
      requires answer.Some?
      modifies this, db
      ensures Valid() && Acted(cfg, old(Now()), Main(Plain), Now()) && script == old(script)
      ensures pc == LoopTop(i + 1) && trace == old(trace) + [StageRecorded(active.id, i)]
      ensures answer.None?
      ensures nextIntent == old(nextIntent) && db.Image().Current().locks == old(db.Image().Current()).locks
    {
      ghost var before := Now();
      db.Exec(SaveStageRecord(active.id, i, true));
      trace := trace + [StageRecorded(active.id, i)];
      answer := Kept(pc, LoopTop(i + 1), answer);
      pc := LoopTop(i + 1);
      Moves(cfg, before, Main(Plain),
            Effect(active.View(pc), Lazy(SaveStageRecord(active.id, i, true)), [StageRecorded(active.id, i)]), Now());
    }

    /** Claims the client; the lock is re-entrant for its holder. */
    method ClaimClient(c: Client) returns (acquired: bool)
      requires Valid() && pc.InStage? && c in pc.clients && pc.clients[c].Todo? && c in cfg.reachable
      requires answer.Some?
      modifies this, db
      ensures Valid() && Acted(cfg, old(Now()), ClientStep(c, Machine.TryLock), Now()) && script == old(script)
      ensures pc == old(pc).(clients := old(pc).clients[c := if acquired then Holding else Done])
      ensures acquired == CanLock(old(db.Image().Current()), c, active.id)
      ensures trace == old(trace) && nextIntent == old(nextIntent) && LocksElsewhere(old(db.Image().Current()), db.Image().Current(), c)
      ensures answer == old(answer)
      ensures SameReach(old(db.Image().Current()), db.Image().Current(), active.id)
    {
      ghost var before := Now();
      acquired := db.LockClient(c, active.id);
      pc := pc.(clients := pc.clients[c := if acquired then Holding else Done]);
      Moves(cfg, before, ClientStep(c, Machine.TryLock),
            Effect(active.View(pc), if acquired then Lazy(AcquireClientLock(c, active.id)) else NoWrite, []), Now());
    }

    /** The intent, flushed before the command it announces. */
    method RecordIntent(c: Client) returns (n: IntentId)
      requires Valid() && pc.InStage? && c in pc.clients && pc.clients[c].Holding?
      requires answer.Some?
      modifies this, db
      ensures Valid() && Acted(cfg, old(Now()), ClientStep(c, SaveIntentFirst), Now()) && script == old(script)
      ensures pc == old(pc).(clients := old(pc).clients[c := Recording(n)])
      ensures n == old(nextIntent) && nextIntent == n + 1 && trace == old(trace)
      ensures db.Image().Current().locks == old(db.Image().Current()).locks
      ensures answer == old(answer)
    {
      ghost var before := Now();
      n := nextIntent;
      db.Durably(SaveIntent(n, Intent(active.id, c, Dispatching)));
      nextIntent := nextIntent + 1;
      pc := pc.(clients := pc.clients[c := Recording(n)]);
      Moves(cfg, before, ClientStep(c, SaveIntentFirst),
            Effect(active.View(pc), Flushed(SaveIntent(n, Intent(active.id, c, Dispatching))), []), Now());
    }

    /** Hands the command to the transport. */
    ghost method Send(c: Client, n: IntentId)
      requires Valid() && pc.InStage? && c in pc.clients && pc.clients[c] == Recording(n)
      requires answer.Some? && !answer.value.dryRun
      modifies this`pc, this`trace, this`answer
      ensures Valid() && Acted(cfg, old(Now()), ClientStep(c, Machine.Send), Now())
      ensures pc == old(pc).(clients := old(pc).clients[c := Sent(n)])
      ensures trace == old(trace) + [Command(active.id, old(pc).i, c, n)]
      ensures answer == old(answer)
    {
      ghost var before := Now();
      trace := trace + [Command(active.id, pc.i, c, n)];
      pc := pc.(clients := pc.clients[c := Sent(n)]);
      Moves(cfg, before, ClientStep(c, Machine.Send),
            Effect(active.View(pc), NoWrite, [Command(active.id, before.state.proc.act.pc.i, c, n)]), Now());
    }

    /** The intent after the command, or after a dry run that sends none. */
    method ReportIntent(c: Client, n: IntentId, ghost o: ClientOutcome)
      requires Valid() && pc.InStage? && c in pc.clients
      requires answer.Some? && (o.Skip? ==> answer.value.dryRun)
      requires (o.Skip? && pc.clients[c] == Recording(n)) || (o.Report? && pc.clients[c] == Sent(n))
      modifies this, db
      ensures Valid() && Acted(cfg, old(Now()), ClientStep(c, o), Now()) && script == old(script)
      ensures pc == old(pc).(clients := old(pc).clients[c := if o.Skip? then Done else Settling])
      ensures trace == old(trace) && nextIntent == old(nextIntent)
      ensures db.Image().Current().locks == old(db.Image().Current()).locks
      ensures answer == old(answer)
    {
      ghost var before := Now();
      db.Exec(SaveIntent(n, Intent(active.id, c, Dispatched)));
      pc := pc.(clients := pc.clients[c := if o.Skip? then Done else Settling]);
      Moves(cfg, before, ClientStep(c, o),
            Effect(active.View(pc), Lazy(SaveIntent(n, Intent(active.id, c, Dispatched))), []), Now());
    }

    /** A client step that only moves the client on. */
    ghost method Leave(c: Client, o: ClientOutcome)
      requires Valid() && pc.InStage? && c in pc.clients
      requires answer.Some?
      requires (o.Absent? && pc.clients[c].Todo? && c !in cfg.reachable) || (o.Settle? && pc.clients[c].Settling?)
      modifies this`pc, this`answer
      ensures Valid() && Acted(cfg, old(Now()), ClientStep(c, o), Now())
      ensures pc == old(pc).(clients := old(pc).clients[c := Done])
      ensures answer == old(answer)
    {
      ghost var before := Now();
      pc := pc.(clients := pc.clients[c := Done]);
      Moves(cfg, before, ClientStep(c, o), Effect(active.View(pc), NoWrite, []), Now());
    }

    /** shutdownClient: a command goes out exactly when the client is known, no
        other sequence holds it and this is no dry run. */
    method ShutdownClient(c: Client, dryRun: bool)
      requires Valid() && pc.InStage? && c in pc.clients && pc.clients[c].Todo?
      requires answer.Some? && answer.value.dryRun == dryRun
      modifies this, db
      ensures Valid() && Driven(cfg, old(Now()), Now()) && script == old(script)
      ensures pc.InStage? && pc.i == old(pc).i && pc.clients == old(pc).clients[c := Done]
      ensures var sendable := Sendable(cfg, old(db.Image().Current()), active.id, c);
        && nextIntent == old(nextIntent) + (if sendable then 1 else 0)
        && trace == old(trace) + if sendable && !dryRun then [Command(active.id, old(pc).i, c, old(nextIntent))] else []
      ensures LocksElsewhere(old(db.Image().Current()), db.Image().Current(), c)
      ensures answer == old(answer)
      ensures SameReach(old(db.Image().Current()), db.Image().Current(), active.id)
    {
      ghost var start := Now();
      DrivenNowhere(cfg, start);
      if c !in cfg.reachable {
        Leave(c, Absent);
        DrivenOn(cfg, start, start, Act(ClientStep(c, Absent)), Now());
        return;
      }
      var acquired := ClaimClient(c);
      DrivenOn(cfg, start, start, Act(ClientStep(c, Machine.TryLock)), Now());
      if acquired {
        SendTo(c, dryRun, start);
      }
    }

    /** A locked client: intent first, then the command. */
    method SendTo(c: Client, dryRun: bool, ghost start: Drive)
      requires Valid() && pc.InStage? && c in pc.clients && pc.clients[c].Holding? && Driven(cfg, start, Now())
      requires answer.Some? && answer.value.dryRun == dryRun
      modifies this, db
      ensures Valid() && Driven(cfg, start, Now()) && script == old(script)
      ensures pc.InStage? && pc.i == old(pc).i && pc.clients == old(pc).clients[c := Done]
      ensures trace == old(trace) + if dryRun then [] else [Command(active.id, old(pc).i, c, old(nextIntent))]
      ensures nextIntent == old(nextIntent) + 1 && db.Image().Current().locks == old(db.Image().Current()).locks
      ensures answer == old(answer)
    {
      ghost var held := Now();
      var n := RecordIntent(c);
      DrivenOn(cfg, start, held, Act(ClientStep(c, SaveIntentFirst)), Now());
      Dispatch(c, n, dryRun, start);
    }

    method Dispatch(c: Client, n: IntentId, dryRun: bool, ghost start: Drive)
      requires Valid() && pc.InStage? && c in pc.clients && pc.clients[c] == Recording(n) && Driven(cfg, start, Now())
      requires answer.Some? && answer.value.dryRun == dryRun
      modifies this, db
      ensures Valid() && Driven(cfg, start, Now()) && script == old(script)
      ensures pc.InStage? && pc.i == old(pc).i && pc.clients == old(pc).clients[c := Done]
      ensures trace == old(trace) + if dryRun then [] else [Command(active.id, old(pc).i, c, n)]
      ensures nextIntent == old(nextIntent) && db.Image().Current().locks == old(db.Image().Current()).locks
      ensures answer == old(answer)
    {
      ghost var s0 := Now();
      if dryRun {
        ReportIntent(c, n, Skip);
        DrivenOn(cfg, start, s0, Act(ClientStep(c, Skip)), Now());
        return;
      }
      Send(c, n);
      DrivenOn(cfg, start, s0, Act(ClientStep(c, Machine.Send)), Now());
      ReportAndSettle(c, n, start);
    }

    /** After the command: its report, and the wait for the client to settle. */
    method ReportAndSettle(c: Client, n: IntentId, ghost start: Drive)
      requires Valid() && pc.InStage? && c in pc.clients && pc.clients[c] == Sent(n) && Driven(cfg, start, Now()) && answer.Some?
      modifies this, db
      ensures Valid() && Driven(cfg, start, Now()) && script == old(script) && answer == old(answer)
      ensures pc.InStage? && pc.i == old(pc).i && pc.clients == old(pc).clients[c := Done]
      ensures trace == old(trace) && nextIntent == old(nextIntent) && db.Image().Current().locks == old(db.Image().Current()).locks
    {
      ghost var sent := Now();
      ReportIntent(c, n, Report);
      ghost var reported := Now();
      DrivenOn(cfg, start, sent, Act(ClientStep(c, Report)), reported);
      Leave(c, Settle);
      DrivenOn(cfg, start, reported, Act(ClientStep(c, Settle)), Now());
    }

    /** The commands of one stage: those of its clients that are known and free, in
        order, each under its own intent; none in a dry run. */
    ghost function StageCommands(i: nat, dryRun: bool, found: Db, n: IntentId): seq<Event>
      requires i < |active.plan.stages|
    {
      if dryRun then [] else CommandsTo(cfg, found, active.id, i, active.plan.stages[i].clients, n)
    }

    ghost function Sight(): Progress
      reads this, db
      requires db.Valid()
    {
      Progress(pc, nextIntent, trace, db.Image().Current())
    }

    method HandleNext(i: nat, k: nat, dryRun: bool, ghost start: Drive, ghost from: Progress)
      requires Valid() && Driven(cfg, start, Now()) && i < |active.plan.stages| && k < |active.plan.stages[i].clients|
      requires answer.Some? && answer.value.dryRun == dryRun
      requires Handled(cfg, active.id, i, active.plan.stages[i].clients, k, dryRun, from, Sight())
      modifies this, db
      ensures Valid() && Driven(cfg, start, Now()) && script == old(script)
      ensures Handled(cfg, active.id, i, active.plan.stages[i].clients, k + 1, dryRun, from, Sight())
      ensures answer == old(answer)
      ensures SameReach(old(db.Image().Current()), db.Image().Current(), active.id)
    {
      var clients := active.plan.stages[i].clients;
      ghost var here, was := Now(), Sight();
      OneMoreDone(clients, k);
      ShutdownClient(clients[k], dryRun);
      DrivenThrough(cfg, start, here, Now());
      HandledOn(cfg, active.id, i, clients, k, dryRun, from, was, Sight());
    }

    /** executeStage. */
    method ExecuteStage(i: nat, dryRun: bool)
      requires Valid() && pc == Opening(i) && i < |active.plan.stages|
      requires answer.Some? && answer.value.dryRun == dryRun
      modifies this, db
      ensures Valid() && Driven(cfg, old(Now()), Now()) && pc == LoopTop(i + 1) && script == old(script)
      ensures trace == old(trace) + StageCommands(i, dryRun, old(db.Image().Current()), old(nextIntent)) + [StageRecorded(active.id, i)]
      ensures answer.None?
      ensures nextIntent == old(nextIntent) + |CommandsTo(cfg, old(db.Image().Current()), active.id, i, active.plan.stages[i].clients, old(nextIntent))|
      ensures SameReach(old(db.Image().Current()), db.Image().Current(), active.id)
    {
      ghost var start := Now();
      ghost var from := Sight();
      HandleClients(i, dryRun, from);
      ghost var last := Now();
      CloseStage(i);
      DrivenOn(cfg, start, last, Act(Main(Plain)), Now());
    }

    /** Opens the record and handles every client of the stage. */
    method HandleClients(i: nat, dryRun: bool, ghost from: Progress)
      requires Valid() && pc == Opening(i) && i < |active.plan.stages| && from == Sight()
      requires answer.Some? && answer.value.dryRun == dryRun
      modifies this, db
      ensures Valid() && Driven(cfg, old(Now()), Now()) && script == old(script) && answer == old(answer)
      ensures var clients := active.plan.stages[i].clients;
        Handled(cfg, active.id, i, clients, |clients|, dryRun, from, Sight()) && clients[..|clients|] == clients
      ensures SameReach(old(db.Image().Current()), db.Image().Current(), active.id)
    {
      ghost var start := Now();
      DrivenNowhere(cfg, start);
      OpenStage(i);
      DrivenOn(cfg, start, start, Act(Main(Plain)), Now());
      NoneDone(active.plan.stages[i]);
      var clients := active.plan.stages[i].clients;
      for k := 0 to |clients|
        invariant Valid() && Driven(cfg, start, Now()) && script == old(script)
        invariant Handled(cfg, active.id, i, clients, k, dryRun, from, Sight()) && answer == old(answer)
        invariant SameReach(from.db, db.Image().Current(), active.id)
      {
        HandleNext(i, k, dryRun, start, from);
      }
    }

    // -------------------------------------------------------------------
    // After the stages.

    /** The action is issued exactly when the plan has one, the flag is not set and
        this is no dry run; the flag ends up set and saved either way. */
    method PostShutdown(p: Poll)
      requires Valid() && pc == PostCheck
      requires answer == Some(p)
      modifies this, db, active
      ensures Valid() && Driven(cfg, old(Now()), Now()) && pc == GateSave && script == old(script)
      ensures active.row.postRun == (old(active.row.postRun) || active.plan.post)
      ensures trace == old(trace) +
        if active.plan.post && !old(active.row.postRun)
        then (if p.dryRun then [] else [PostIssued(active.id)]) + [PostSaved(active.id)]
        else []
      ensures answer.None?
    {
      ghost var start := Now();
      DrivenNowhere(cfg, start);
      if active.plan.post {
        var won := ClaimPost();
        if won {
          DrivenOn(cfg, start, start, Act(Main(Plain)), Now());
          IssuePost(p.dryRun, start);
          return;
        }
      }
      PassPost(start);
    }

    ghost method PassPost(start: Drive)
      requires Valid() && pc == PostCheck && answer.Some? && Driven(cfg, start, Now()) && (active.plan.post ==> active.row.postRun)
      modifies this`pc, this`answer
      ensures Valid() && Driven(cfg, start, Now()) && pc == GateSave && answer.None?
    {
      Go(Main(Plain), GateSave, start);
    }

    /** Claims the action, if no one has. */
    method ClaimPost() returns (won: bool)
      requires Valid() && pc == PostCheck && active.plan.post
      requires answer.Some?
      modifies this`pc, this`answer, active
      ensures Valid() && won == !old(active.row.postRun) && active.row.postRun
      ensures won ==> Acted(cfg, old(Now()), Main(Plain), Now()) && pc == PostIssue
      ensures !won ==> Now() == old(Now())
      ensures won ==> answer == old(answer)
    {
      ghost var before := Now();
      won := active.MarkPostShutdownRun();
      if won {
        answer := Kept(pc, PostIssue, answer);
        pc := PostIssue;
        Moves(cfg, before, Main(Plain), Effect(active.View(pc), NoWrite, []), Now());
      } else {
        assert active.row == before.state.proc.act.row;
      }
    }

    /** The action first, the flag after. */
    method IssuePost(dryRun: bool, ghost start: Drive)
      requires Valid() && pc == PostIssue && Driven(cfg, start, Now())
      requires answer.Some? && answer.value.dryRun == dryRun
      modifies this, db
      ensures Valid() && Driven(cfg, start, Now()) && pc == GateSave && script == old(script)
      ensures trace == old(trace) + (if dryRun then [] else [PostIssued(active.id)]) + [PostSaved(active.id)]
      ensures answer.None?
    {
      if dryRun {
        Go(Main(DryRun), PostSave(false), start);
      } else {
        SendPost(start);
      }
      SavePostFlag(start);
    }

    /** Hands the action to the transport. */
    ghost method SendPost(start: Drive)
      requires Valid() && pc == PostIssue && Driven(cfg, start, Now()) && answer.Some? && !answer.value.dryRun
      modifies this`pc, this`trace, this`answer
      ensures Valid() && Driven(cfg, start, Now()) && pc == PostSave(true) && trace == old(trace) + [PostIssued(active.id)]
    {
      ghost var before := Now();
      answer, pc, trace := None, PostSave(true), trace + [PostIssued(active.id)];
      Moves(cfg, before, Main(Issue), Effect(active.View(pc), NoWrite, [PostIssued(active.id)]), Now());
      DrivenOn(cfg, start, before, Act(Main(Issue)), Now());
    }

    method SavePostFlag(ghost start: Drive)
      requires Valid() && pc.PostSave? && Driven(cfg, start, Now())
      modifies this, db
      ensures Valid() && Driven(cfg, start, Now()) && pc == GateSave && script == old(script)
      ensures trace == old(trace) + [PostSaved(active.id)]
      ensures answer.None?
    {
      ghost var issued := Now();
      db.Exec(SaveSequence(active.id, active.row));
      answer := Kept(pc, GateSave, answer);
      pc, trace := GateSave, trace + [PostSaved(active.id)];
      Moves(cfg, issued, Main(Plain),
            Effect(active.View(pc), Lazy(SaveSequence(active.id, active.row)), [PostSaved(active.id)]), Now());
      DrivenOn(cfg, start, issued, Act(Main(Plain)), Now());
    }

    /** Sets the phase and saves it, in one step of the machine. */
    method SavePhase(phase: Phase, ghost o: Outcome, ghost next: Pc)
      requires Valid()
      requires LeadsTo(cfg, active.plan, db.Image().Current(), active.View(pc), answer, Main(o))
      requires var row := active.row.(phase := phase);
        RunEffect(cfg, Now().state, Main(o)) ==
        Some(Effect(active.View(next).(row := row), Lazy(SaveSequence(active.id, row)), []))
      modifies this, db, active
      ensures Valid() && Acted(cfg, old(Now()), Main(o), Now()) && pc == next && script == old(script)
      ensures answer == Kept(old(pc), next, old(answer))
      ensures trace == old(trace)
    {
      ghost var before := Now();
      active.SetState(phase);
      db.Exec(SaveSequence(active.id, active.row));
      answer := Kept(pc, next, answer);
      pc := next;
      Moves(cfg, before, Main(o), Effect(active.View(pc), Lazy(SaveSequence(active.id, active.row)), []), Now());
    }

    /** completeSequence: the terminal state, then the locks. */
    method CompleteSequence()
      requires Valid() && pc == Finishing
      modifies this, db, active
      ensures Valid() && Driven(cfg, old(Now()), Now()) && pc == Clearing
      ensures answer.None?
      ensures script == old(script) && trace == old(trace)
    {
      ghost var start := Now();
      DrivenNowhere(cfg, start);
      SavePhase(if active.row.aborted then Aborted else Completed, Plain, Releasing);
      DrivenOn(cfg, start, start, Act(Main(Plain)), Now());
      ReleaseSequence(start);
    }

    method ReleaseSequence(ghost start: Drive)
      requires Valid() && pc == Releasing && Driven(cfg, start, Now())
      modifies this, db
      ensures Valid() && Driven(cfg, start, Now()) && pc == Clearing
      ensures answer.None?
      ensures script == old(script) && trace == old(trace)
    {
      ghost var saved := Now();
      db.Exec(ReleaseSequenceLocks(active.id));
      answer := Kept(pc, Clearing, answer);
      pc := Clearing;
      Moves(cfg, saved, Main(Plain), Effect(active.View(pc), Lazy(ReleaseSequenceLocks(active.id)), []), Now());
      DrivenOn(cfg, start, saved, Act(Main(Plain)), Now());
    }

    /** Abandons the wake on an operator's request. */
    method AbandonWake()
      requires Valid() && (pc == AtGate || (pc.InWake? && pc.left > 0)) && active.abortRequested
      requires answer.Some? && (pc == AtGate ==> !answer.value.gate)
      modifies this, db, active
      ensures Valid() && Driven(cfg, old(Now()), Now()) && pc == Clearing
      ensures answer.None?
      ensures script == old(script) && trace == old(trace)
    {
      ghost var start := Now();
      active.MarkAborted();
      answer := Kept(pc, Finishing, answer);
      pc := Finishing;
      Moves(cfg, start, Main(AbortNow), Effect(active.View(pc), NoWrite, []), Now());
      DrivenNowhere(cfg, start);
      DrivenOn(cfg, start, start, Act(Main(AbortNow)), Now());
      ghost var mid := Now();
      CompleteSequence();
      DrivenThrough(cfg, start, mid, Now());
    }

    /** Waits at the gate, which is asked before the operator is: the first answer
        that finds it open ends the wait, unless a request did before. */
    method WaitForGate() returns (stopped: bool, abandoned: bool)
      requires Valid() && pc == AtGate && answer.None?
      modifies this, db, active
      ensures Valid() && Driven(cfg, old(Now()), Now()) && answer.None?
      ensures !stopped ==> pc == if abandoned then Clearing else InWake(active.plan.wakes)
      ensures !stopped ==>
        exists k: nat :: Taken(old(script), script, k) && old(script)[k].gate == !abandoned && forall j | 0 <= j < k :: !old(script)[j].gate
      ensures stopped ==> forall p | p in old(script) :: !p.gate
      ensures Wakings(trace) == old(Wakings(trace))
    {
      ghost var start, k: nat := Now(), 0;
      DrivenNowhere(cfg, start);
      while true
        invariant Valid() && pc == AtGate && answer.None? && Driven(cfg, start, Now())
        invariant k <= |old(script)| && script == old(script)[k..] && forall j | 0 <= j < k :: !old(script)[j].gate
        invariant Wakings(trace) == old(Wakings(trace))
        decreases |script|
      {
        ghost var before := Now();
        var again;
        ghost var p;
        again, stopped, abandoned, p := AskGate();
        DrivenThrough(cfg, start, before, Now());
        if stopped {
          return;
        }
        TakenOn(old(script), k, p, script);
        if !again {
          return;
        }
        k := k + 1;
      }
    }

    /** One look at the gate. */
    method AskGate() returns (again: bool, stopped: bool, abandoned: bool, ghost p: Poll)
      requires Valid() && pc == AtGate && answer.None?
      modifies this, db, active
      ensures Valid() && Driven(cfg, old(Now()), Now()) && answer.None? && Wakings(trace) == old(Wakings(trace))
      ensures stopped <==> old(script) == []
      ensures !stopped ==> old(script) == [p] + script
      ensures !stopped && again ==> pc == AtGate && !p.gate
      ensures !stopped && !again ==> p.gate == !abandoned && pc == if abandoned then Clearing else InWake(active.plan.wakes)
    {
      ghost var start := Now();
      var q;
      q, stopped := NextPoll();
      p, again, abandoned := q, false, false;
      if stopped {
        return;
      }
      ghost var here := Now();
      if q.gate {
        PassGate();
        DrivenOn(cfg, start, here, Act(Main(GateOpen)), Now());
      } else if active.abortRequested {
        AbandonWake();
        DrivenThrough(cfg, start, here, Now());
        abandoned := true;
      } else {
        again := true;
        LookAgain(start);
      }
    }

    method PassGate()
      requires Valid() && pc == AtGate && answer.Some? && answer.value.gate
      modifies this, db, active
      ensures Valid() && Acted(cfg, old(Now()), Main(GateOpen), Now()) && pc == InWake(active.plan.wakes)
      ensures answer.None? && script == old(script) && trace == old(trace)
    {
      SavePhase(Waking, GateOpen, InWake(active.plan.wakes));
    }

    /** The answer changed nothing. */
    ghost method LookAgain(start: Drive)
      requires Valid() && answer.Some? && Driven(cfg, start, Now())
      requires ChangesNothing(cfg, db.Image().Current(), active.View(pc), answer.value)
      modifies this`answer
      ensures Valid() && Driven(cfg, start, Now()) && answer.None?
    {
      ghost var before := Now();
      answer := None;
      DrivenOn(cfg, start, before, Again, Now());
    }

    /** The wake loop, as far as the sequence is concerned: an abort request is
        looked for before each client. */
    method WakeClients() returns (stopped: bool)
      requires Valid() && pc == InWake(active.plan.wakes)
      requires answer.None?
      modifies this, db, active
      ensures Valid() && Driven(cfg, old(Now()), Now()) && (!stopped ==> pc == Clearing)
    {
      ghost var start := Now();
      DrivenNowhere(cfg, start);
      var wakes := active.plan.wakes;
      for k := 0 to wakes
        invariant Valid() && pc == InWake(wakes - k) && answer.None? && Driven(cfg, start, Now())
      {
        ghost var before := Now();
        var abandoned;
        stopped, abandoned := WakeNext(wakes - k);
        DrivenThrough(cfg, start, before, Now());
        if stopped || abandoned {
          return;
        }
      }
      ghost var woken := Now();
      Go(Main(WakeEnd), Finishing, start);
      ghost var done := Now();
      CompleteSequence();
      DrivenThrough(cfg, start, done, Now());
      stopped := false;
    }

    /** The look for a request and one client's turn, with `left` still to come,
        this one included. */
    method WakeNext(left: nat) returns (stopped: bool, abandoned: bool)
      requires Valid() && pc == InWake(left) && left > 0 && answer.None?
      modifies this, db, active
      ensures Valid() && Driven(cfg, old(Now()), Now())
      ensures !stopped ==> answer.None? && pc == if abandoned then Clearing else InWake(left - 1)
    {
      ghost var start := Now();
      var p;
      p, stopped := NextPoll();
      abandoned := false;
      if stopped {
        return;
      }
      ghost var here := Now();
      if active.abortRequested {
        AbandonWake();
        DrivenThrough(cfg, start, here, Now());
        return false, true;
      }
      stopped := BeginTurn(left - 1);
      DrivenThrough(cfg, start, here, Now());
    }

    method BeginTurn(left: nat) returns (stopped: bool)
      requires Valid() && pc == InWake(left + 1) && !active.abortRequested && answer.Some?
      modifies this, active
      ensures Valid() && Driven(cfg, old(Now()), Now()) && (!stopped ==> answer.None? && pc == InWake(left))
    {
      ghost var start := Now();
      DrivenNowhere(cfg, start);
      Go(Main(NoAbort), InTurn(left, 1 + active.plan.retries), start);
      ghost var begun := Now();
      stopped := TakeTurn(left);
      DrivenThrough(cfg, start, begun, Now());
    }

    /** The turn itself: the client is passed over, or sent its wake command once the
        guard period is over, as the answer then says. */
    method TakeTurn(left: nat) returns (stopped: bool)
      requires Valid() && pc == InTurn(left, 1 + active.plan.retries) && answer.None?
      modifies this, active
      ensures Valid() && Driven(cfg, old(Now()), Now()) && active.row == old(active.row)
      ensures !stopped ==> answer.None? && pc == InWake(left)
      ensures Wakings(trace) <= old(Wakings(trace)) + 1 + active.plan.retries
      ensures Wakings(trace) > old(Wakings(trace)) <==> old(script) != [] && !old(script)[0].up && !old(script)[0].dryRun
    {
      ghost var start := Now();
      var p;
      p, stopped := NextPoll();
      if stopped {
        return;
      }
      ghost var here := Now();
      if p.up || p.dryRun {
        PassOver(left, start);
        return;
      }
      stopped := WakeClient(left);
      DrivenThrough(cfg, start, here, Now());
    }

    ghost method PassOver(left: nat, start: Drive)
      requires Valid() && pc == InTurn(left, 1 + active.plan.retries) && answer.Some? && (answer.value.up || answer.value.dryRun)
      requires Driven(cfg, start, Now())
      modifies this`pc, this`answer
      ensures Valid() && Driven(cfg, start, Now()) && pc == InWake(left) && answer.None?
    {
      Go(Main(TurnOver), InWake(left), start);
    }

    /** Hands the wake command to the transport: the answer says that the client is
        to be woken, or this is a retry. */
    method SendWakeCommand()
      requires Valid() && pc.InTurn? && pc.tries > 0 && answer.Some?
      requires pc.tries > active.plan.retries ==> !answer.value.up && !answer.value.dryRun
      modifies this
      ensures Valid() && Acted(cfg, old(Now()), Main(SendWake), Now()) && script == old(script) && answer.None?
      ensures pc == Verifying(old(pc).left, old(pc).tries - 1) && trace == old(trace) + [WakeSent(active.id)]
    {
      ghost var before := Now();
      answer := None;
      pc := Verifying(pc.left, pc.tries - 1);
      trace := trace + [WakeSent(active.id)];
      Moves(cfg, before, Main(SendWake), Effect(active.View(pc), NoWrite, [WakeSent(active.id)]), Now());
    }

    /** wakeClient: a command, its verification, and again while retries are left. */
    method WakeClient(left: nat) returns (stopped: bool)
      requires Valid() && pc == InTurn(left, 1 + active.plan.retries)
      requires answer.Some? && !answer.value.up && !answer.value.dryRun
      modifies this, active
      ensures Valid() && Driven(cfg, old(Now()), Now()) && active.row == old(active.row)
      ensures !stopped ==> answer.None? && pc == InWake(left)
      ensures old(Wakings(trace)) < Wakings(trace) <= old(Wakings(trace)) + 1 + active.plan.retries
    {
      ghost var start := Now();
      DrivenNowhere(cfg, start);
      stopped := false;
      var tries := 1 + active.plan.retries;
      while true
        invariant Valid() && Driven(cfg, start, Now()) && active.row == old(active.row)
        invariant 1 <= tries <= 1 + active.plan.retries && pc == InTurn(left, tries) && answer.Some?
        invariant tries > active.plan.retries ==> !answer.value.up && !answer.value.dryRun
        invariant Wakings(trace) == old(Wakings(trace)) + 1 + active.plan.retries - tries
        decreases tries
      {
        var over;
        over, stopped := TryOnce(left, tries, start);
        if over || stopped {
          return;
        }
        tries := tries - 1;
      }
    }

    /** One attempt, with `tries` left, this one included; `over` when there is none
        after it. */
    method TryOnce(left: nat, tries: nat, ghost start: Drive) returns (over: bool, stopped: bool)
      requires Valid() && pc == InTurn(left, tries) && tries > 0 && Driven(cfg, start, Now()) && answer.Some?
      requires tries > active.plan.retries ==> !answer.value.up && !answer.value.dryRun
      modifies this, active
      ensures Valid() && Driven(cfg, start, Now()) && active.row == old(active.row)
      ensures !stopped && over ==> pc == InWake(left) && answer.None?
      ensures !stopped && !over ==> tries > 1 && pc == InTurn(left, tries - 1) && answer.Some?
      ensures Wakings(trace) == old(Wakings(trace)) + 1
    {
      ghost var before := Now();
      SendWakeCommand();
      OneMoreEvent(old(trace), WakeSent(active.id));
      DrivenOn(cfg, start, before, Act(Main(SendWake)), Now());
      ghost var sent := Now();
      over, stopped := VerifyWake(left, tries - 1);
      DrivenThrough(cfg, start, sent, Now());
      if !over && !stopped {
        over := GiveUpOrRetry(left, tries - 1, start);
      }
    }

    /** The boot deadline has passed. */
    method GiveUpOrRetry(left: nat, tries: nat, ghost start: Drive) returns (over: bool)
      requires Valid() && pc == Verifying(left, tries) && Driven(cfg, start, Now()) && answer.Some? && answer.value.expired
      modifies this`pc, this`answer
      ensures Valid() && Driven(cfg, start, Now())
      ensures if over then pc == InWake(left) && answer.None? else tries > 0 && pc == InTurn(left, tries) && answer.Some?
    {
      ghost var failed := Now();
      if tries > 0 {
        Go(Main(Expired), InTurn(left, tries), start);
        return false;
      }
      Go(Main(TurnOver), InWake(left), start);
      return true;
    }

    /** Until the boot deadline: a client that is up ends the turn, and so does a
        request; nothing else does. */
    method VerifyWake(left: nat, tries: nat) returns (over: bool, stopped: bool)
      requires Valid() && pc == Verifying(left, tries) && answer.None?
      modifies this, active
      ensures Valid() && Driven(cfg, old(Now()), Now()) && active.row == old(active.row)
      ensures Wakings(trace) == old(Wakings(trace))
      ensures !stopped && over ==> pc == InWake(left) && answer.None?
      ensures !stopped && !over ==> pc == Verifying(left, tries) && answer.Some? && answer.value.expired
      ensures !stopped ==>
        exists k: nat ::
          && Taken(old(script), script, k) && (forall j | 0 <= j < k :: !old(script)[j].expired && !old(script)[j].up)
          && old(script)[k].expired == !over && (over ==> old(script)[k].up || active.abortRequested)
    {
      ghost var start, k: nat := Now(), 0;
      DrivenNowhere(cfg, start);
      while true
        invariant Valid() && Driven(cfg, start, Now()) && active.row == old(active.row)
        invariant pc == Verifying(left, tries) && answer.None? && Wakings(trace) == old(Wakings(trace))
        invariant k <= |old(script)| && script == old(script)[k..]
        invariant forall j | 0 <= j < k :: !old(script)[j].expired && !old(script)[j].up
        decreases |script|
      {
        ghost var before := Now();
        var again;
        ghost var p;
        again, over, stopped, p := AskUp(left, tries);
        DrivenThrough(cfg, start, before, Now());
        if stopped {
          return;
        }
        TakenOn(old(script), k, p, script);
        if !again {
          return;
        }
        k := k + 1;
      }
    }

    ghost method EndTurn(left: nat, start: Drive)
      requires Valid() && pc.Verifying? && pc.left == left && answer.Some? && Driven(cfg, start, Now())
      requires !answer.value.expired && (answer.value.up || active.abortRequested)
      modifies this`pc, this`answer
      ensures Valid() && Driven(cfg, start, Now()) && pc == InWake(left) && answer.None?
    {
      Go(Main(TurnOver), InWake(left), start);
    }

    /** One look at the client being verified. */
    method AskUp(left: nat, tries: nat) returns (again: bool, over: bool, stopped: bool, ghost p: Poll)
      requires Valid() && pc == Verifying(left, tries) && answer.None?
      modifies this, active
      ensures Valid() && Driven(cfg, old(Now()), Now()) && active.row == old(active.row) && Wakings(trace) == old(Wakings(trace))
      ensures stopped <==> old(script) == []
      ensures !stopped ==> old(script) == [p] + script
      ensures !stopped && again ==> pc == Verifying(left, tries) && answer.None? && !p.expired && !p.up
      ensures !stopped && !again && over ==> pc == InWake(left) && answer.None? && !p.expired && (p.up || active.abortRequested)
      ensures !stopped && !again && !over ==> pc == Verifying(left, tries) && answer == Some(p) && p.expired
    {
      ghost var start := Now();
      var q;
      q, stopped := NextPoll();
      p, again, over := q, false, false;
      if stopped || q.expired {
        return;
      }
      if active.abortRequested || q.up {
        EndTurn(left, start);
        over := true;
      } else {
        LookAgain(start);
        again := true;
      }
    }

    /** runWake. */
    method RunWake() returns (stopped: bool)
      requires Valid() && pc == AtGate
      requires answer.None?
      modifies this, db, active
      ensures Valid() && Driven(cfg, old(Now()), Now()) && (!stopped ==> pc == Clearing)
      ensures (forall p | p in old(script) :: !p.gate) ==> OnlyRecords(old(trace), trace) && !pc.InWake? && !pc.InTurn? && !pc.Verifying?
    {
      ghost var start := Now();
      var abandoned;
      stopped, abandoned := WaitForGate();
      if !stopped && !abandoned {
        ghost var through := Now();
        stopped := WakeClients();
        DrivenThrough(cfg, start, through, Now());
      }
      ShutGateWakesNobody(cfg, start, Now());
    }

    /** handleAbort and, from the settling on, resumeAbort. */
    method HandleAbort() returns (stopped: bool)
      requires Valid() && pc == AbortSave
      requires answer.None?
      modifies this, db, active
      ensures Valid() && Driven(cfg, old(Now()), Now()) && (!stopped ==> pc == Clearing)
    {
      ghost var start := Now();
      DrivenNowhere(cfg, start);
      active.SetState(Aborting);
      active.MarkAborted();
      db.Exec(SaveSequence(active.id, active.row));
      answer := Kept(pc, AbortSettle, answer);
      pc, trace := AbortSettle, trace + [AbortEntered(active.id)];
      Moves(cfg, start, Main(Plain),
            Effect(active.View(pc), Lazy(SaveSequence(active.id, active.row)), [AbortEntered(active.id)]), Now());
      DrivenOn(cfg, start, start, Act(Main(Plain)), Now());
      ghost var saved := Now();
      stopped := ResumeAbort();
      DrivenThrough(cfg, start, saved, Now());
    }

    method ResumeAbort() returns (stopped: bool)
      requires Valid() && pc == AbortSettle
      requires answer.None?
      modifies this, db, active
      ensures Valid() && Driven(cfg, old(Now()), Now()) && (!stopped ==> pc == Clearing)
    {
      ghost var start := Now();
      DrivenNowhere(cfg, start);
      SavePhase(WakeGate, Plain, AtGate);
      DrivenOn(cfg, start, start, Act(Main(Plain)), Now());
      ghost var saved := Now();
      stopped := RunWake();
      DrivenThrough(cfg, start, saved, Now());
    }

    // -------------------------------------------------------------------
    // The whole sequence.

    /** One pass of the stage loop; `over` when the loop is left for good. */
    method RunStage(i: nat) returns (next: nat, over: bool, stopped: bool, ghost pass: Pass)
      requires Valid() && pc == LoopTop(i) && i < |active.plan.stages| && answer.None?
      modifies this, db, active
      ensures Valid() && Driven(cfg, old(Now()), Now())
      ensures !over ==> !stopped && pc == LoopTop(next) && answer.None? && |script| < |old(script)|
      ensures over && !stopped ==> pc == Clearing
      ensures !over ==> PassMade(pass, i, next, old(script), script)
      ensures !over ==> Deeds(trace) == old(Deeds(trace)) + PassDeeds(cfg, old(db.Image().Current()), active.id, active.plan, pass, old(nextIntent))
      ensures !over ==> SameReach(old(db.Image().Current()), db.Image().Current(), active.id)
    {
      ghost var start := Now();
      DrivenNowhere(cfg, start);
      SaveProgress(i);
      DrivenOn(cfg, start, start, Act(Main(Plain)), Now());
      ghost var saved := Now();
      next, over, stopped, pass := CheckAndFinish(i);
      DrivenThrough(cfg, start, saved, Now());
      if !over {
        SameReachSamePass(cfg, start.state.disk.Current(), saved.state.disk.Current(), active.id, active.plan, pass, saved.state.nextIntent);
      }
    }

    /** shouldAbort before the wait, then the wait. */
    method CheckAndFinish(i: nat) returns (next: nat, over: bool, stopped: bool, ghost pass: Pass)
      requires Valid() && pc == AbortCheck(i) && i < |active.plan.stages| && answer.None?
      modifies this, db, active
      ensures Valid() && Driven(cfg, old(Now()), Now())
      ensures !over ==> !stopped && pc == LoopTop(next) && answer.None? && |script| < |old(script)|
      ensures over && !stopped ==> pc == Clearing
      ensures !over ==> PassMade(pass, i, next, old(script), script)
      ensures !over ==> Deeds(trace) == old(Deeds(trace)) + PassDeeds(cfg, old(db.Image().Current()), active.id, active.plan, pass, old(nextIntent))
      ensures !over ==> SameReach(old(db.Image().Current()), db.Image().Current(), active.id)
    {
      ghost var start := Now();
      next, over, stopped, pass := i, true, true, Pass(i, Cancelled, false);
      var p, halted := NextPoll();
      if halted {
        return;
      }
      ghost var asked := Now();
      var abort := ShouldAbort(p);
      if abort {
        StopWaiting(p, start);
        ghost var going := Now();
        stopped := HandleAbort();
        DrivenThrough(cfg, start, going, Now());
        return;
      }
      WaitOn(p, start);
      ghost var waiting := Now();
      ghost var rest := script;
      next, over, stopped, pass := FinishStage(i);
      DrivenThrough(cfg, start, waiting, Now());
      if !over {
        ghost var k: nat :| Taken(rest, script, k) && pass.dryRun == rest[k].dryRun && (pass.how.TimedOut? ==> rest[k].expired);
        TakenOneMore(old(script), p, rest, script, k);
      }
    }

    /** A pass through stage `i` that leads on to `next`: the last answer taken ended
        the wait, by letting the stage in or by its timeout, and a stage that holds
        is waited for again. */
    ghost predicate PassMade(pass: Pass, i: nat, next: nat, answers: seq<Poll>, rest: seq<Poll>)
      reads active
    {
      && pass.i == i < |active.plan.stages| && (pass.how.Proceed? || pass.how.TimedOut?)
      && next == (if pass.how.TimedOut? && active.plan.stages[i].hold then i else i + 1)
      && exists k: nat :: Taken(answers, rest, k) && pass.dryRun == answers[k].dryRun && (pass.how.TimedOut? ==> answers[k].expired)
    }

    /** Waits for the stage and acts on what the wait ended with. */
    method FinishStage(i: nat) returns (next: nat, over: bool, stopped: bool, ghost pass: Pass)
      requires Valid() && pc == Waiting(i) && i < |active.plan.stages|
      requires answer.None?
      modifies this, db, active
      ensures Valid() && Driven(cfg, old(Now()), Now())
      ensures !over ==> !stopped && pc == LoopTop(next) && answer.None? && |script| < |old(script)|
      ensures over && !stopped ==> pc == Clearing
      ensures !over ==> PassMade(pass, i, next, old(script), script)
      ensures !over ==> Deeds(trace) == old(Deeds(trace)) + PassDeeds(cfg, old(db.Image().Current()), active.id, active.plan, pass, old(nextIntent))
      ensures !over ==> SameReach(old(db.Image().Current()), db.Image().Current(), active.id)
    {
      ghost var start := Now();
      next, over, stopped := i, true, true;
      var outcome, last := WaitForStage(i);
      pass := Pass(i, outcome, last.dryRun);
      ghost var waited := Now();
      match outcome {
        case Cancelled =>
        case AbortedWait =>
          stopped := HandleAbort();
          DrivenThrough(cfg, start, waited, Now());
        case TimedOut =>
          next := PassTimedOut(i, pass);
          DrivenThrough(cfg, start, waited, Now());
          over, stopped := false, false;
        case Proceed =>
          PassEntered(i, last.dryRun, pass);
          DrivenThrough(cfg, start, waited, Now());
          next, over, stopped := i + 1, false, false;
      }
    }

    method PassTimedOut(i: nat, ghost pass: Pass) returns (next: nat)
      requires Valid() && pc == Expiring(i) && i < |active.plan.stages| && pass.i == i && pass.how.TimedOut?
      modifies this, db, active
      ensures Valid() && Driven(cfg, old(Now()), Now()) && script == old(script) && answer.None?
      ensures pc == LoopTop(next) && next == if active.plan.stages[i].hold then i else i + 1
      ensures nextIntent == old(nextIntent) && db.Image().Current().locks == old(db.Image().Current()).locks
      ensures Deeds(trace) == old(Deeds(trace)) + PassDeeds(cfg, old(db.Image().Current()), active.id, active.plan, pass, nextIntent)
    {
      ghost var start := Now();
      DrivenNowhere(cfg, start);
      var hold := HandleStageTimeout(i);
      DrivenOn(cfg, start, start, Act(Main(Plain)), Now());
      DeedsAdd(start.state.trace, if hold then [] else [StageRecorded(active.id, i)]);
      next := if hold then i else i + 1;
    }

    method PassEntered(i: nat, dryRun: bool, ghost pass: Pass)
      requires Valid() && pc == Entering(i) && i < |active.plan.stages| && answer.Some? && answer.value.dryRun == dryRun
      requires pass == Pass(i, Proceed, dryRun)
      modifies this, db, active
      ensures Valid() && Driven(cfg, old(Now()), Now()) && pc == LoopTop(i + 1) && script == old(script) && answer.None?
      ensures Deeds(trace) == old(Deeds(trace)) + PassDeeds(cfg, old(db.Image().Current()), active.id, active.plan, pass, old(nextIntent))
      ensures SameReach(old(db.Image().Current()), db.Image().Current(), active.id)
    {
      ghost var start := Now();
      RunEntered(i, dryRun);
      PassIsDeeds(cfg, start.state, active.plan, pass, trace);
    }

    /** A stage whose wait is over: the crossing, then exactly its commands, unless
        the answer that ended the wait says that this is a dry run. */
    method RunEntered(i: nat, dryRun: bool)
      requires Valid() && pc == Entering(i) && i < |active.plan.stages| && answer.Some? && answer.value.dryRun == dryRun
      modifies this, db, active
      ensures Valid() && Driven(cfg, old(Now()), Now()) && pc == LoopTop(i + 1) && script == old(script) && answer.None?
      ensures trace == old(trace) + StageCommands(i, dryRun, old(db.Image().Current()), old(nextIntent)) + [StageRecorded(active.id, i)]
      ensures nextIntent == old(nextIntent) + |CommandsTo(cfg, old(db.Image().Current()), active.id, i, active.plan.stages[i].clients, old(nextIntent))|
      ensures SameReach(old(db.Image().Current()), db.Image().Current(), active.id)
    {
      ghost var start := Now();
      EnterStage(i);
      ghost var entered := Now();
      SameReachSameCommands(cfg, start.state.disk.Current(), entered.state.disk.Current(), active.id, i,
                            active.plan.stages[i].clients, nextIntent);
      ExecuteStage(i, dryRun);
      DrivenThrough(cfg, start, entered, Now());
    }

    /** runShutdownStages, then the post-shutdown action and the wake. The passes made
        follow one another from the stage the sequence starts at; what they leave in
        the trace is exactly what they should, in order, before anything else. */
    method RunShutdownStages() returns (stopped: bool, ghost made: seq<Made>)
      requires Valid() && pc == LoopTop(active.row.stage)
      requires answer.None?
      modifies this, db, active
      ensures Valid() && Driven(cfg, old(Now()), Now()) && (!stopped ==> pc == Clearing)
      ensures Chain(active.plan, made, old(active.row.stage)) && InMode(made, old(script))
      ensures AsTold(cfg, old(db.Image().Current()), active.id, active.plan, made) && old(Deeds(trace)) + AllDeeds(made) <= Deeds(trace)
      ensures (forall p | p in old(script) :: p.dryRun) ==> OnlyRecords(old(trace), trace)
    {
      ghost var start := Now();
      var i, over;
      i, over, stopped, made := StageLoop();
      if !over {
        ghost var passed := Now();
        stopped := LeaveLoop(i, start);
        DrivenThrough(cfg, start, passed, Now());
        DrivenGrows(cfg, passed, Now());
      }
      DryRunOnlyRecords(cfg, start, Now());
    }

    /** The loop itself; `over` when it is left before its end. */
    method StageLoop() returns (i: nat, over: bool, stopped: bool, ghost made: seq<Made>)
      requires Valid() && pc == LoopTop(active.row.stage) && answer.None?
      modifies this, db, active
      ensures Valid() && Driven(cfg, old(Now()), Now())
      ensures !over ==> pc == LoopTop(i) && i >= |active.plan.stages| && answer.None?
      ensures over && !stopped ==> pc == Clearing
      ensures Chain(active.plan, made, old(active.row.stage)) && InMode(made, old(script))
      ensures AsTold(cfg, old(db.Image().Current()), active.id, active.plan, made) && old(Deeds(trace)) + AllDeeds(made) <= Deeds(trace)
    {
      ghost var start := Now();
      DrivenNowhere(cfg, start);
      made, over, stopped := [], false, false;
      i := active.row.stage;
      ghost var first := i;
      NoPassYet(cfg, active.plan, start, first);
      while i < |active.plan.stages|
        invariant Valid() && pc == LoopTop(i) && answer.None? && Driven(cfg, start, Now())
        invariant Passed(start, first, made, i) && !over
        decreases |script|
      {
        ghost var before := Now();
        ghost var pass;
        i, over, stopped, pass := RunStage(i);
        DrivenThrough(cfg, start, before, Now());
        if over {
          DrivenGrows(cfg, before, Now());
          return;
        }
        ghost var m := Made(pass, before.state.nextIntent,
                            PassDeeds(cfg, before.state.disk.Current(), active.id, active.plan, pass, before.state.nextIntent));
        OnePassMore(cfg, active.plan, start, before, first, made, m, i, Now());
        made := made + [m];
      }
    }

    /** The passes made have led from stage `first` to stage `i` and left their traces. */
    ghost predicate Passed(start: Drive, first: nat, made: seq<Made>, i: nat)
      reads this, db, active
      requires Valid()
    {
      PassedSoFar(cfg, active.plan, start, first, made, i, Now())
    }

    method LeaveLoop(i: nat, ghost start: Drive) returns (stopped: bool)
      requires Valid() && pc == LoopTop(i) && i >= |active.plan.stages| && answer.None?
      modifies this, db, active
      ensures Valid() && Driven(cfg, old(Now()), Now()) && (!stopped ==> pc == Clearing)
    {
      ghost var passed := Now();
      DrivenNowhere(cfg, passed);
      Go(Main(Plain), PostCheck, passed);
      stopped := AfterStages(passed);
    }

    method AfterStages(ghost start: Drive) returns (stopped: bool)
      requires Valid() && pc == PostCheck && Driven(cfg, start, Now())
      requires answer.None?
      modifies this, db, active
      ensures Valid() && Driven(cfg, start, Now()) && (!stopped ==> pc == Clearing)
    {
      ghost var s0 := Now();
      var p;
      p, stopped := NextPoll();
      DrivenThrough(cfg, start, s0, Now());
      if stopped {
        return;
      }
      ghost var s1 := Now();
      PostShutdown(p);
      DrivenThrough(cfg, start, s1, Now());
      stopped := GoToGate(start);
    }

    method GoToGate(ghost start: Drive) returns (stopped: bool)
      requires Valid() && pc == GateSave && Driven(cfg, start, Now())
      requires answer.None?
      modifies this, db, active
      ensures Valid() && Driven(cfg, start, Now()) && (!stopped ==> pc == Clearing)
    {
      ghost var s0 := Now();
      SavePhase(WakeGate, Plain, AtGate);
      DrivenOn(cfg, start, s0, Act(Main(Plain)), Now());
      ghost var s1 := Now();
      stopped := RunWake();
      DrivenThrough(cfg, start, s1, Now());
    }

    /** A sequence that has just been triggered. */
    method ExecuteSequence() returns (stopped: bool, ghost made: seq<Made>)
      requires Valid() && pc == FirstSave
      requires answer.None?
      modifies this, db, active
      ensures Valid() && Driven(cfg, old(Now()), Now()) && (!stopped ==> pc == Clearing)
      ensures Chain(active.plan, made, old(active.row.stage)) && InMode(made, old(script))
      ensures AsTold(cfg, old(db.Image().Current()), active.id, active.plan, made) && old(Deeds(trace)) + AllDeeds(made) <= Deeds(trace)
      ensures (forall p | p in old(script) :: p.dryRun) ==> OnlyRecords(old(trace), trace)
    {
      ghost var start := Now();
      DrivenNowhere(cfg, start);
      FirstSaved();
      DrivenOn(cfg, start, start, Act(Main(Plain)), Now());
      ghost var saved := Now();
      stopped, made := RunShutdownStages();
      DrivenThrough(cfg, start, saved, Now());
      SameReachAsTold(cfg, start.state.disk.Current(), saved.state.disk.Current(), active.id, active.plan, made);
    }

    method FirstSaved()
      requires Valid() && pc == FirstSave && answer.None?
      modifies this, db
      ensures Valid() && Acted(cfg, old(Now()), Main(Plain), Now()) && pc == LoopTop(active.row.stage) && answer.None?
      ensures script == old(script) && trace == old(trace) && nextIntent == old(nextIntent)
      ensures db.Image().Current().locks == old(db.Image().Current()).locks
    {
      ghost var before := Now();
      db.Exec(SaveSequence(active.id, active.row));
      pc := LoopTop(active.row.stage);
      Moves(cfg, before, Main(Plain), Effect(active.View(pc), Lazy(SaveSequence(active.id, active.row)), []), Now());
    }

    /** The first stage without a recorded completion. */
    method FindResumeStage() returns (at: nat)
      requires Valid()
      ensures at == ResumeAt(db.Image().Current(), active.id, |active.plan.stages|, 0)
    {
      var current := db.versions[|db.versions| - 1];
      at := 0;
      while at < |active.plan.stages| && Recorded(current, active.id, at)
        invariant at <= |active.plan.stages|
        invariant ResumeAt(current, active.id, |active.plan.stages|, at) == ResumeAt(current, active.id, |active.plan.stages|, 0)
      {
        at := at + 1;
      }
    }

    /** reconcileIntents: exactly the pending intents whose client still has a config
        entry and a transport are closed. */
    method ReconcileIntents(i: nat) returns (stopped: bool)
      requires Valid() && pc == Reconciling(i)
      requires answer.None?
      modifies this, db, active
      ensures Valid() && Driven(cfg, old(Now()), Now()) && active.row == old(active.row)
      ensures !stopped ==> pc == LoopTop(i) && answer.None?
      ensures !stopped ==>
        PendingIntents(db.Image().Current(), active.id) ==
        UnknownOf(cfg, old(db.Image().Current()), PendingIntents(old(db.Image().Current()), active.id))
    {
      ghost var start := Now();
      stopped := LookAtPending(i);
      if !stopped {
        ghost var last := Now();
        OnlyUnknownLeft(cfg, start.state.disk.Current(), last.state.disk.Current(), active.id);
        Go(Main(ReconcileEnd), LoopTop(i), start);
      }
    }

    /** The loop over the pending intents. */
    method LookAtPending(i: nat) returns (stopped: bool)
      requires Valid() && pc == Reconciling(i)
      requires answer.None?
      modifies this, db, active
      ensures Valid() && Driven(cfg, old(Now()), Now()) && active.row == old(active.row) && pc == old(pc)
      ensures !stopped ==> answer.None? && IntentsStay(old(db.Image().Current()), db.Image().Current())
      ensures !stopped ==>
        PendingIntents(db.Image().Current(), active.id) ==
        UnknownOf(cfg, old(db.Image().Current()), PendingIntents(old(db.Image().Current()), active.id))
    {
      ghost var start := Now();
      DrivenNowhere(cfg, start);
      var current := db.versions[|db.versions| - 1];
      var pending := PendingIntents(current, active.id);
      NothingLookedAt(cfg, current, active.id);
      while pending != {}
        invariant Valid() && pc == Reconciling(i) && answer.None? && Driven(cfg, start, Now()) && active.row == old(active.row)
        invariant ReconciledSoFar(cfg, current, db.Image().Current(), active.id, pending)
        decreases |pending|
      {
        var n: IntentId :| n in pending;
        stopped := LookAt(i, n, start, current, pending);
        if stopped {
          return;
        }
        pending := pending - {n};
      }
      stopped := false;
    }

    method LookAt(i: nat, n: IntentId, ghost start: Drive, ghost first: Db, ghost pending: set<IntentId>) returns (stopped: bool)
      requires Valid() && pc == Reconciling(i) && Driven(cfg, start, Now()) && n in pending
      requires answer.None?
      requires ReconciledSoFar(cfg, first, db.Image().Current(), active.id, pending)
      modifies this, db, active
      ensures Valid() && Driven(cfg, start, Now()) && active.row == old(active.row) && pc == old(pc)
      ensures !stopped ==> answer.None? && ReconciledSoFar(cfg, first, db.Image().Current(), active.id, pending - {n})
    {
      ghost var was := db.Image().Current();
      StillPending(cfg, first, was, active.id, pending, n);
      stopped := ReconcileIntent(i, n, start);
      if !stopped {
        OneLessPending(cfg, first, was, db.Image().Current(), active.id, pending, n);
      }
    }

    /** Probes one client, and closes its intent if the client is still known. */
    method ReconcileIntent(i: nat, n: IntentId, ghost start: Drive) returns (stopped: bool)
      requires Valid() && pc == Reconciling(i) && Driven(cfg, start, Now())
      requires answer.None?
      requires n in PendingIntents(db.Image().Current(), active.id)
      modifies this, db, active
      ensures Valid() && Driven(cfg, start, Now()) && active.row == old(active.row) && pc == old(pc)
      ensures IntentsStay(old(db.Image().Current()), db.Image().Current())
      ensures !stopped ==>
        PendingIntents(db.Image().Current(), active.id) ==
        PendingIntents(old(db.Image().Current()), active.id) -
        if old(db.Image().Current()).intents[n].client in cfg.reachable then {n} else {}
      ensures !stopped ==> answer.None?
    {
      var current := db.versions[|db.versions| - 1];
      var known := current.intents[n].client in cfg.reachable;
      ghost var before := Now();
      var p;
      p, stopped := NextPoll();
      DrivenThrough(cfg, start, before, Now());
      if stopped {
        return;
      }
      ghost var here := Now();
      if known {
        CloseIntent(i, n);
        DrivenOn(cfg, start, here, Act(Main(Reconcile(n))), Now());
      } else {
        LookAgain(start);
      }
    }

    method CloseIntent(i: nat, n: IntentId)
      requires Valid() && pc == Reconciling(i)
      requires n in PendingIntents(db.Image().Current(), active.id)
      requires answer.Some? && db.Image().Current().intents[n].client in cfg.reachable
      modifies this, db
      ensures Valid() && Acted(cfg, old(Now()), Main(Reconcile(n)), Now()) && pc == old(pc)
      ensures script == old(script) && IntentsStay(old(db.Image().Current()), db.Image().Current())
      ensures PendingIntents(db.Image().Current(), active.id) == PendingIntents(old(db.Image().Current()), active.id) - {n}
      ensures answer.None?
    {
      ghost var before := Now();
      var current := db.versions[|db.versions| - 1];
      var closed := current.intents[n].(status := Reconciled);
      db.Exec(SaveIntent(n, closed));
      answer := None;
      Moves(cfg, before, Main(Reconcile(n)), Effect(active.View(pc), Lazy(SaveIntent(n, closed)), []), Now());
    }

    /** resumeSequence: where to rejoin depends on the saved phase. */
    method ResumeSequence() returns (stopped: bool)
      requires Valid() && pc == Resuming
      requires answer.None?
      modifies this, db, active
      ensures Valid() && Driven(cfg, old(Now()), Now()) && (!stopped ==> pc == Clearing)
      ensures (forall p | p in old(script) :: p.dryRun) ==> OnlyRecords(old(trace), trace)
    {
      ghost var start := Now();
      DrivenNowhere(cfg, start);
      if active.row.phase.Aborting? || active.row.phase.Aborted? {
        stopped := RejoinAbort();
      } else if active.row.phase.WakeGate? || active.row.phase.Waking? {
        stopped := RejoinWake();
      } else {
        stopped := ResumeShutdown();
      }
      DryRunOnlyRecords(cfg, start, Now());
    }

    method RejoinAbort() returns (stopped: bool)
      requires Valid() && pc == Resuming && answer.None? && (active.row.phase.Aborting? || active.row.phase.Aborted?)
      modifies this, db, active
      ensures Valid() && Driven(cfg, old(Now()), Now()) && (!stopped ==> pc == Clearing)
    {
      ghost var start := Now();
      DrivenNowhere(cfg, start);
      Go(Main(Plain), AbortSettle, start);
      ghost var s1 := Now();
      stopped := ResumeAbort();
      DrivenThrough(cfg, start, s1, Now());
    }

    method RejoinWake() returns (stopped: bool)
      requires Valid() && pc == Resuming && answer.None? && (active.row.phase.WakeGate? || active.row.phase.Waking?)
      modifies this, db, active
      ensures Valid() && Driven(cfg, old(Now()), Now()) && (!stopped ==> pc == Clearing)
    {
      ghost var start := Now();
      DrivenNowhere(cfg, start);
      Go(Main(Plain), AtGate, start);
      ghost var s1 := Now();
      stopped := RunWake();
      DrivenThrough(cfg, start, s1, Now());
    }

    method ResumeShutdown() returns (stopped: bool)
      requires Valid() && pc == Resuming
      requires answer.None?
      requires var p := active.row.phase; !p.Aborting? && !p.Aborted? && !p.WakeGate? && !p.Waking?
      modifies this, db, active
      ensures Valid() && Driven(cfg, old(Now()), Now()) && (!stopped ==> pc == Clearing)
    {
      ghost var start := Now();
      DrivenNowhere(cfg, start);
      var at := FindResumeStage();
      active.SetCurrentStage(at);
      answer := Kept(pc, Reconciling(at), answer);
      pc := Reconciling(at);
      Moves(cfg, start, Main(Plain), Effect(active.View(pc), NoWrite, []), Now());
      DrivenOn(cfg, start, start, Act(Main(Plain)), Now());
      ghost var s1 := Now();
      stopped := ReconcileIntents(at);
      DrivenThrough(cfg, start, s1, Now());
      if stopped {
        return;
      }
      ghost var s2 := Now();
      ghost var made;
      stopped, made := RunShutdownStages();
      DrivenThrough(cfg, start, s2, Now());
    }
  }

  /** One pass through the stage loop: which stage, how its wait ended, and whether
      the answer that ended it said this is a dry run. */
  datatype Pass = Pass(i: nat, how: StageOutcome, dryRun: bool)

  /** What a pass leaves in the trace: a stage let in sends its commands, unless in a
      dry run, and is recorded; one whose wait expired is recorded unless it holds. */
  function PassDeeds(cfg: Config, db: Db, id: SeqId, plan: Plan, pass: Pass, n: IntentId): seq<Event> {
    if pass.i >= |plan.stages| then []
    else
      match pass.how
      case Proceed =>
        (if pass.dryRun then [] else CommandsTo(cfg, db, id, pass.i, plan.stages[pass.i].clients, n)) + [StageRecorded(id, pass.i)]
      case TimedOut => if plan.stages[pass.i].hold then [] else [StageRecorded(id, pass.i)]
      case _ => []
  }

  /** A pass that was made, the first intent free before it, and what it did. */
  datatype Made = Made(pass: Pass, first: IntentId, deeds: seq<Event>)

  /** The passes follow one another from stage `first`. */
  predicate Chain(plan: Plan, made: seq<Made>, first: nat) {
    exists i: nat | i <= first + |made| :: Arrives(plan, made, first, i)
  }

  predicate Arrives(plan: Plan, made: seq<Made>, first: nat, i: nat) {
    if made == [] then i == first
    else
      var pass := made[|made| - 1].pass;
      && pass.i < |plan.stages| && (pass.how.Proceed? || pass.how.TimedOut?)
      && Arrives(plan, made[..|made| - 1], first, pass.i)
      && i == if pass.how.TimedOut? && plan.stages[pass.i].hold then pass.i else pass.i + 1
  }

  lemma {:induction false} ArrivesNear(plan: Plan, made: seq<Made>, first: nat, i: nat)
    requires Arrives(plan, made, first, i)
    ensures i <= first + |made| && Chain(plan, made, first)
  {
    if made != [] {
      ArrivesNear(plan, made[..|made| - 1], first, made[|made| - 1].pass.i);
    }
  }

  /** Each pass did exactly what it should, going by the tables `db`. */
  ghost predicate AsTold(cfg: Config, db: Db, id: SeqId, plan: Plan, made: seq<Made>) {
    forall k | 0 <= k < |made| :: OneAsTold(cfg, db, id, plan, made[k])
  }

  predicate OneAsTold(cfg: Config, db: Db, id: SeqId, plan: Plan, m: Made) {
    m.deeds == PassDeeds(cfg, db, id, plan, m.pass, m.first)
  }

  /** What all of them did. */
  function AllDeeds(made: seq<Made>): seq<Event> {
    if made == [] then [] else AllDeeds(made[..|made| - 1]) + made[|made| - 1].deeds
  }

  /** The passes are in the mode the answers say, where these agree. */
  ghost predicate InMode(made: seq<Made>, answers: seq<Poll>) {
    && ((forall p | p in answers :: p.dryRun) ==> forall k | 0 <= k < |made| :: made[k].pass.dryRun)
    && ((forall p | p in answers :: !p.dryRun) ==> forall k | 0 <= k < |made| :: !made[k].pass.dryRun)
  }

  /** The passes made have led from stage `first` to stage `i` and left their traces. */
  ghost predicate PassedSoFar(cfg: Config, plan: Plan, start: Drive, first: nat, made: seq<Made>, i: nat, d: Drive) {
    && Arrives(plan, made, first, i) && Chain(plan, made, first)
    && InMode(made, start.script) && LeftOf(start.script, d.script)
    && Traced(cfg, plan, start.state, made, d.state)
  }

  ghost predicate Traced(cfg: Config, plan: Plan, s: State, made: seq<Made>, t: State) {
    && s.proc.Running? && t.proc.Running? && t.proc.act.id == s.proc.act.id
    && AsTold(cfg, s.disk.Current(), s.proc.act.id, plan, made) && Deeds(t.trace) == Deeds(s.trace) + AllDeeds(made)
    && SameReach(s.disk.Current(), t.disk.Current(), s.proc.act.id)
  }

  lemma NoPassYet(cfg: Config, plan: Plan, d: Drive, first: nat)
    requires d.state.proc.Running?
    ensures PassedSoFar(cfg, plan, d, first, [], first, d)
  {
    assert Arrives(plan, [], first, first);
  }

  lemma OnePassMore(cfg: Config, plan: Plan, start: Drive, was: Drive, first: nat, made: seq<Made>, m: Made, next: nat, d: Drive)
    requires PassedSoFar(cfg, plan, start, first, made, m.pass.i, was) && m.pass.i < |plan.stages|
    requires m.pass.how.Proceed? || m.pass.how.TimedOut?
    requires next == if m.pass.how.TimedOut? && plan.stages[m.pass.i].hold then m.pass.i else m.pass.i + 1
    requires d.state.proc.Running? && d.state.proc.act.id == was.state.proc.act.id
    requires exists k: nat :: Taken(was.script, d.script, k) && m.pass.dryRun == was.script[k].dryRun
    requires OneAsTold(cfg, was.state.disk.Current(), was.state.proc.act.id, plan, m)
    requires Deeds(d.state.trace) == Deeds(was.state.trace) + m.deeds
    requires SameReach(was.state.disk.Current(), d.state.disk.Current(), was.state.proc.act.id)
    ensures PassedSoFar(cfg, plan, start, first, made + [m], next, d)
  {
    OneMoreArrives(plan, made, first, m, next);
    OneMoreInMode(start.script, was.script, d.script, made, m);
    OneMoreTraced(cfg, plan, start.state, made, was.state, m, d.state);
  }

  lemma OneMoreTraced(cfg: Config, plan: Plan, s: State, made: seq<Made>, was: State, m: Made, t: State)
    requires Traced(cfg, plan, s, made, was) && t.proc.Running? && t.proc.act.id == was.proc.act.id
    requires OneAsTold(cfg, was.disk.Current(), was.proc.act.id, plan, m) && Deeds(t.trace) == Deeds(was.trace) + m.deeds
    requires SameReach(was.disk.Current(), t.disk.Current(), was.proc.act.id)
    ensures Traced(cfg, plan, s, made + [m], t)
  {
    OneMoreAsTold(cfg, s.disk.Current(), was.disk.Current(), s.proc.act.id, plan, made, m);
    DeedsAddUp(made, m, Deeds(s.trace), Deeds(was.trace), Deeds(t.trace));
    ReachOn(s.disk.Current(), was.disk.Current(), t.disk.Current(), s.proc.act.id);
  }

  lemma OneMoreAsTold(cfg: Config, db: Db, db': Db, id: SeqId, plan: Plan, made: seq<Made>, m: Made)
    requires AsTold(cfg, db, id, plan, made) && SameReach(db, db', id) && OneAsTold(cfg, db', id, plan, m)
    ensures AsTold(cfg, db, id, plan, made + [m])
  {
    SameReachSamePass(cfg, db, db', id, plan, m.pass, m.first);
    assert OneAsTold(cfg, db, id, plan, m);
    forall k | 0 <= k < |made + [m]| ensures OneAsTold(cfg, db, id, plan, (made + [m])[k]) {
      if k < |made| {
        assert OneAsTold(cfg, db, id, plan, made[k]);
      }
    }
  }

  lemma DeedsAddUp(made: seq<Made>, m: Made, first: seq<Event>, was: seq<Event>, now: seq<Event>)
    requires was == first + AllDeeds(made) && now == was + m.deeds
    ensures now == first + AllDeeds(made + [m])
  {
    assert (made + [m])[..|made|] == made;
  }

  lemma OneMoreArrives(plan: Plan, made: seq<Made>, first: nat, m: Made, next: nat)
    requires Arrives(plan, made, first, m.pass.i) && m.pass.i < |plan.stages| && (m.pass.how.Proceed? || m.pass.how.TimedOut?)
    requires next == if m.pass.how.TimedOut? && plan.stages[m.pass.i].hold then m.pass.i else m.pass.i + 1
    ensures Arrives(plan, made + [m], first, next) && Chain(plan, made + [m], first)
  {
    assert (made + [m])[..|made|] == made;
    ArrivesNear(plan, made + [m], first, next);
  }

  lemma OneMoreInMode(all: seq<Poll>, was: seq<Poll>, now: seq<Poll>, made: seq<Made>, m: Made)
    requires InMode(made, all) && LeftOf(all, was)
    requires exists k: nat :: Taken(was, now, k) && m.pass.dryRun == was[k].dryRun
    ensures InMode(made + [m], all) && LeftOf(all, now)
  {
    var k: nat :| Taken(was, now, k) && m.pass.dryRun == was[k].dryRun;
    TakenFromLeft(all, was, now, k);
  }

  lemma SameReachAsTold(cfg: Config, db: Db, db': Db, id: SeqId, plan: Plan, made: seq<Made>)
    requires SameReach(db, db', id) && AsTold(cfg, db', id, plan, made)
    ensures AsTold(cfg, db, id, plan, made)
  {
    forall k | 0 <= k < |made| ensures OneAsTold(cfg, db, id, plan, made[k]) {
      assert OneAsTold(cfg, db', id, plan, made[k]);
      SameReachSamePass(cfg, db, db', id, plan, made[k].pass, made[k].first);
    }
  }

  lemma ReachOn(a: Db, b: Db, c: Db, id: SeqId)
    requires SameReach(a, b, id) && SameReach(b, c, id)
    ensures SameReach(a, c, id)
  {
    forall k ensures CanLock(c, k, id) == CanLock(a, k, id) {
      assert CanLock(c, k, id) == CanLock(b, k, id) && CanLock(b, k, id) == CanLock(a, k, id);
    }
  }

  lemma {:induction false} CommandsAreDeeds(cfg: Config, db: Db, id: SeqId, i: nat, clients: seq<Client>, n: IntentId)
    ensures var cs := CommandsTo(cfg, db, id, i, clients, n); Deeds(cs) == cs
  {
    if clients != [] {
      CommandsAreDeeds(cfg, db, id, i, clients[..|clients| - 1], n);
      var sent := CommandsTo(cfg, db, id, i, clients[..|clients| - 1], n);
      OneMoreEvent(sent, Command(id, i, clients[|clients| - 1], n + |sent|));
    }
  }

  lemma PassIsDeeds(cfg: Config, s: State, plan: Plan, pass: Pass, t: seq<Event>)
    requires s.proc.Running? && pass.how.Proceed? && pass.i < |plan.stages|
    requires var sent := CommandsTo(cfg, s.disk.Current(), s.proc.act.id, pass.i, plan.stages[pass.i].clients, s.nextIntent);
      t == s.trace + (if pass.dryRun then [] else sent) + [StageRecorded(s.proc.act.id, pass.i)]
    ensures Deeds(t) == Deeds(s.trace) + PassDeeds(cfg, s.disk.Current(), s.proc.act.id, plan, pass, s.nextIntent)
  {
    var sent := CommandsTo(cfg, s.disk.Current(), s.proc.act.id, pass.i, plan.stages[pass.i].clients, s.nextIntent);
    CommandsAreDeeds(cfg, s.disk.Current(), s.proc.act.id, pass.i, plan.stages[pass.i].clients, s.nextIntent);
    var es := if pass.dryRun then [] else sent;
    DeedsAdd(s.trace, es);
    OneMoreEvent(s.trace + es, StageRecorded(s.proc.act.id, pass.i));
  }

  lemma {:induction false} SameReachSameCommands(cfg: Config, db: Db, db': Db, id: SeqId, i: nat, clients: seq<Client>, n: IntentId)
    requires SameReach(db, db', id)
    ensures CommandsTo(cfg, db, id, i, clients, n) == CommandsTo(cfg, db', id, i, clients, n)
  {
    if clients != [] {
      SameReachSameCommands(cfg, db, db', id, i, clients[..|clients| - 1], n);
      assert CanLock(db', clients[|clients| - 1], id) == CanLock(db, clients[|clients| - 1], id);
    }
  }

  lemma SameReachSamePass(cfg: Config, db: Db, db': Db, id: SeqId, plan: Plan, pass: Pass, n: IntentId)
    requires SameReach(db, db', id)
    ensures PassDeeds(cfg, db, id, plan, pass, n) == PassDeeds(cfg, db', id, plan, pass, n)
  {
    if pass.i < |plan.stages| {
      SameReachSameCommands(cfg, db, db', id, pass.i, plan.stages[pass.i].clients, n);
    }
  }

  lemma TakenOneMore(answers: seq<Poll>, p: Poll, rest: seq<Poll>, left: seq<Poll>, k: nat)
    requires answers == [p] + rest && Taken(rest, left, k)
    ensures Taken(answers, left, k + 1) && answers[k + 1] == rest[k]
  {
  }

  predicate Distinct(s: seq<Client>) {
    forall i, j | 0 <= i < j < |s| :: s[i] != s[j]
  }

  /** Those of the intents whose client has no config entry or no transport. */
  function UnknownOf(cfg: Config, db: Db, ns: set<IntentId>): set<IntentId> {
    set n | n in ns && n in db.intents && db.intents[n].client !in cfg.reachable
  }

  /** Of the intents pending in `db`, `pending` are still to be looked at and the
      others are closed in `now` if their client is known. */
  ghost predicate ReconciledSoFar(cfg: Config, db: Db, now: Db, id: SeqId, pending: set<IntentId>) {
    && pending <= PendingIntents(db, id) && IntentsStay(db, now)
    && PendingIntents(now, id) == pending + UnknownOf(cfg, db, PendingIntents(db, id) - pending)
  }

  lemma OnlyUnknownLeft(cfg: Config, db: Db, now: Db, id: SeqId)
    requires IntentsStay(db, now) && PendingIntents(now, id) == UnknownOf(cfg, db, PendingIntents(db, id))
    ensures AllUnknown(cfg, now, id)
  {
    forall n | n in PendingIntents(now, id) ensures now.intents[n].client !in cfg.reachable {
      assert HasIntent(now, n, db.intents[n].seqId, db.intents[n].client);
    }
  }

  lemma NothingLookedAt(cfg: Config, db: Db, id: SeqId)
    ensures ReconciledSoFar(cfg, db, db, id, PendingIntents(db, id))
  {
  }

  lemma StillPending(cfg: Config, db: Db, now: Db, id: SeqId, pending: set<IntentId>, n: IntentId)
    requires ReconciledSoFar(cfg, db, now, id, pending) && n in pending
    ensures n in PendingIntents(now, id) && now.intents[n].client == db.intents[n].client
  {
    assert HasIntent(now, n, db.intents[n].seqId, db.intents[n].client);
  }

  lemma OneLessPending(cfg: Config, db: Db, was: Db, now: Db, id: SeqId, pending: set<IntentId>, n: IntentId)
    requires ReconciledSoFar(cfg, db, was, id, pending) && n in pending && n in was.intents && IntentsStay(was, now)
    requires PendingIntents(now, id) == PendingIntents(was, id) - if was.intents[n].client in cfg.reachable then {n} else {}
    ensures ReconciledSoFar(cfg, db, now, id, pending - {n})
  {
    StillPending(cfg, db, was, id, pending, n);
    forall k | k in db.intents ensures HasIntent(now, k, db.intents[k].seqId, db.intents[k].client) {
      assert HasIntent(was, k, db.intents[k].seqId, db.intents[k].client);
    }
  }

  /** The lock of `c` is as it was. */
  predicate SameLock(db: Db, db': Db, c: Client) {
    (c in db.locks <==> c in db'.locks) && (c in db.locks ==> db'.locks[c] == db.locks[c])
  }

  ghost predicate LocksElsewhere(db: Db, db': Db, c: Client) {
    forall k | k != c :: SameLock(db, db', k)
  }

  /** The sequence can lock just the clients it could. */
  ghost predicate SameReach(db: Db, db': Db, id: SeqId) {
    forall c :: CanLock(db', c, id) == CanLock(db, c, id)
  }

  /** The client is known and no other sequence holds it. */
  predicate Sendable(cfg: Config, db: Db, id: SeqId, c: Client) {
    c in cfg.reachable && CanLock(db, c, id)
  }

  /** What a stage has got to show for itself. */
  datatype Progress = Progress(pc: Pc, nextIntent: IntentId, trace: seq<Event>, db: Db)

  /** The first `k` clients are handled, starting from `from`. */
  ghost predicate Handled(cfg: Config, id: SeqId, i: nat, clients: seq<Client>, k: nat, dryRun: bool, from: Progress, at: Progress)
    requires k <= |clients|
  {
    var sent := CommandsTo(cfg, from.db, id, i, clients[..k], from.nextIntent);
    && at.pc == InStage(i, DoneUpTo(clients, k))
    && at.nextIntent == from.nextIntent + |sent|
    && at.trace == from.trace + (if dryRun then [] else sent)
    && forall j | k <= j < |clients| :: SameLock(from.db, at.db, clients[j])
  }

  /** One more client, as ShutdownClient leaves it. */
  lemma HandledOn(cfg: Config, id: SeqId, i: nat, clients: seq<Client>, k: nat, dryRun: bool, from: Progress, was: Progress, at: Progress)
    requires k < |clients| && Distinct(clients) && Handled(cfg, id, i, clients, k, dryRun, from, was)
    requires at.pc == InStage(i, DoneUpTo(clients, k)[clients[k] := Done]) && LocksElsewhere(was.db, at.db, clients[k])
    requires var sendable := Sendable(cfg, was.db, id, clients[k]);
      && at.nextIntent == was.nextIntent + (if sendable then 1 else 0)
      && at.trace == was.trace + if sendable && !dryRun then [Command(id, i, clients[k], was.nextIntent)] else []
    ensures Handled(cfg, id, i, clients, k + 1, dryRun, from, at)
  {
    OneMoreDone(clients, k);
    OneMoreTold(cfg, from.db, id, i, clients, k, from.nextIntent);
    LocksFurtherOn(cfg, from.db, was.db, at.db, id, clients, k);
  }

  lemma LocksFurtherOn(cfg: Config, found: Db, was: Db, now: Db, id: SeqId, clients: seq<Client>, k: nat)
    requires k < |clients| && Distinct(clients) && LocksElsewhere(was, now, clients[k])
    requires forall j | k <= j < |clients| :: SameLock(found, was, clients[j])
    ensures Sendable(cfg, found, id, clients[k]) == Sendable(cfg, was, id, clients[k])
    ensures forall j | k < j < |clients| :: SameLock(found, now, clients[j])
  {
    assert SameLock(found, was, clients[k]);
    forall j | k < j < |clients| ensures SameLock(found, now, clients[j]) {
      assert SameLock(found, was, clients[j]) && SameLock(was, now, clients[j]);
    }
  }

  /** The commands that go out to `clients`, handled in order from the tables `db`,
      the first under intent `n`. */
  function CommandsTo(cfg: Config, db: Db, id: SeqId, i: nat, clients: seq<Client>, n: IntentId): seq<Event> {
    if clients == [] then []
    else
      var sent, last := CommandsTo(cfg, db, id, i, clients[..|clients| - 1], n), clients[|clients| - 1];
      if Sendable(cfg, db, id, last) then sent + [Command(id, i, last, n + |sent|)] else sent
  }

  /** The clients that are known and that no other sequence holds, in order. */
  function Free(cfg: Config, db: Db, id: SeqId, clients: seq<Client>): seq<Client> {
    if clients == [] then []
    else
      var free, last := Free(cfg, db, id, clients[..|clients| - 1]), clients[|clients| - 1];
      if last in cfg.reachable && (last in db.locks ==> db.locks[last] == id) then free + [last] else free
  }

  /** A client is among them, once for each time it is listed, exactly when it is
      known and not held by another. */
  lemma {:induction false} FreeExactly(cfg: Config, db: Db, id: SeqId, clients: seq<Client>, c: Client)
    ensures multiset(Free(cfg, db, id, clients))[c] ==
      if c in cfg.reachable && (c in db.locks ==> db.locks[c] == id) then multiset(clients)[c] else 0
  {
    if clients != [] {
      FreeExactly(cfg, db, id, clients[..|clients| - 1], c);
      assert clients == clients[..|clients| - 1] + [clients[|clients| - 1]];
    }
  }

  /** One command for each of them, in order, under consecutive intents. */
  lemma {:induction false} CommandsExactly(cfg: Config, db: Db, id: SeqId, i: nat, clients: seq<Client>, n: IntentId)
    ensures var free := Free(cfg, db, id, clients);
      && |CommandsTo(cfg, db, id, i, clients, n)| == |free|
      && forall j | 0 <= j < |free| :: CommandsTo(cfg, db, id, i, clients, n)[j] == Command(id, i, free[j], n + j)
  {
    if clients != [] {
      CommandsExactly(cfg, db, id, i, clients[..|clients| - 1], n);
    }
  }

  lemma OneMoreTold(cfg: Config, db: Db, id: SeqId, i: nat, clients: seq<Client>, k: nat, n: IntentId)
    requires k < |clients|
    ensures var sent := CommandsTo(cfg, db, id, i, clients[..k], n);
      CommandsTo(cfg, db, id, i, clients[..k + 1], n) ==
      if Sendable(cfg, db, id, clients[k]) then sent + [Command(id, i, clients[k], n + |sent|)] else sent
  {
    assert clients[..k + 1][..k] == clients[..k];
  }

  /** The clients of a stage with the first `k` handled. */
  function DoneUpTo(clients: seq<Client>, k: nat): map<Client, ClientPc>
    requires k <= |clients|
  {
    map c | c in clients :: if c in clients[..k] then Done else Todo
  }

  lemma NoneDone(stage: Stage)
    ensures StageClients(stage) == DoneUpTo(stage.clients, 0)
  {
  }

  lemma OneMoreDone(clients: seq<Client>, k: nat)
    requires k < |clients| && Distinct(clients)
    ensures DoneUpTo(clients, k)[clients[k]].Todo?
    ensures DoneUpTo(clients, k)[clients[k] := Done] == DoneUpTo(clients, k + 1)
  {
    assert clients[..k + 1] == clients[..k] + [clients[k]];
  }
}

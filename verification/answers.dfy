/** What the outside world answers when the executor looks at it, and the machine
    driven by those answers: where an answer is asked for, which step it leads to,
    and when the next one is due. */
module Answers {
  import opened Options
  import opened Tables
  import opened Machine
  import opened Paths

  /** One look: whether `when`, the abort condition and the wake gate hold, whether
      the wait has expired, whether the client in turn is up or not to be woken, the
      operator calls that have come in, and whether this is a dry run. */
  datatype Poll = Poll(when: bool, abortHolds: bool, expired: bool, gate: bool, up: bool,
                       abortCall: bool, proceedCall: bool, dryRun: bool)

  /** The machine, the answers still to come, and the one in force. */
  datatype Drive = Drive(state: State, script: seq<Poll>, answer: Option<Poll>)

  /** Places at which the executor looks outside before it goes on. */
  predicate Asks(pc: Pc) {
    || pc.AbortCheck? || pc.Waiting? || pc.PostCheck? || pc.AtGate? || (pc.InWake? && pc.left > 0)
    || pc.InTurn? || pc.Verifying? || pc.Reconciling?
  }

  /** The operator calls that came with an answer: an abort request is accepted
      before the point of no return, a proceed request always. */
  function Called(s: State, p: Poll): State
    requires s.proc.Running?
  {
    var a := s.proc.act;
    s.(proc := Running(a.(abortReq := a.abortReq || (p.abortCall && !a.row.ponr), proceedReq := a.proceedReq || p.proceedCall)),
       trace := if p.abortCall then s.trace + [AbortAnswer(a.id, !a.row.ponr)] else s.trace)
  }

  /** shouldAbort. */
  predicate Stops(plan: Plan, a: Active, p: Poll) {
    !a.row.ponr && (a.abortReq || (plan.canAbort && p.abortHolds))
  }

  function PendingIntents(db: Db, id: SeqId): set<IntentId> {
    set n | n in db.intents && db.intents[n].seqId == id && db.intents[n].status.Dispatching?
  }

  predicate AllUnknown(cfg: Config, db: Db, id: SeqId) {
    forall n | n in PendingIntents(db, id) :: db.intents[n].client !in cfg.reachable
  }

  /** The answer in force leads to `l`. Elsewhere none is needed. */
  predicate LeadsTo(cfg: Config, plan: Plan, db: Db, a: Active, answer: Option<Poll>, l: Label) {
    match a.pc
    case AbortCheck(_) => answer.Some? && l == Main(if Stops(plan, a, answer.value) then AbortNow else NoAbort)
    case Waiting(_) => answer.Some? && l == Main(if answer.value.when then WhenTrue else if a.proceedReq then Forced else Plain)
    case WaitAbort(_) =>
      answer.Some? && l == Main(if Stops(plan, a, answer.value) then AbortNow else if answer.value.expired then Expired else NoAbort)
    case InStage(_, _) =>
      answer.Some? && (l.ClientStep? ==> (l.co.Send? ==> !answer.value.dryRun) && (l.co.Skip? ==> answer.value.dryRun))
    case PostCheck => answer.Some?
    case PostIssue => answer.Some? && l == Main(if answer.value.dryRun then DryRun else Issue)
    case AtGate => answer.Some? && l == Main(if answer.value.gate then GateOpen else AbortNow)
    case InWake(left) => left > 0 ==> answer.Some?
    case InTurn(_, tries) =>
      answer.Some? && l == Main(if tries > plan.retries && (answer.value.up || answer.value.dryRun) then TurnOver else SendWake)
    case Verifying(_, tries) =>
      && answer.Some? && l == Main(if answer.value.expired && tries > 0 then Expired else TurnOver)
      && (answer.value.expired || answer.value.up || a.abortReq)
    case Reconciling(_) =>
      || (l == Main(ReconcileEnd) && AllUnknown(cfg, db, a.id))
      || (l.Main? && l.o.Reconcile? && answer.Some? && l.o.n in db.intents && db.intents[l.o.n].client in cfg.reachable)
    case _ => true
  }

  /** The answer changes nothing, so the executor will look again. */
  predicate ChangesNothing(cfg: Config, db: Db, a: Active, p: Poll) {
    match a.pc
    case AtGate => !p.gate && !a.abortReq
    case Verifying(_, _) => !p.expired && !p.up && !a.abortReq
    case Reconciling(_) => exists n :: n in PendingIntents(db, a.id) && db.intents[n].client !in cfg.reachable
    case _ => false
  }

  /** The answer stays in force from the wait through the stage it lets in, from the
      claim of the post-shutdown action to its issue, and into a retry. */
  predicate StaysInForce(pc: Pc, pc': Pc) {
    || pc'.WaitAbort? || pc'.Entering? || pc'.PonrSave? || pc'.Opening? || pc'.InStage? || pc'.PostIssue?
    || (pc.Verifying? && pc'.InTurn?)
  }

  function Kept(pc: Pc, pc': Pc, answer: Option<Poll>): Option<Poll> {
    if StaysInForce(pc, pc') then answer else None
  }

  datatype Move = Ask | Again | Act(l: Label)

  ghost predicate Asked(cfg: Config, d: Drive, d': Drive) {
    && HasPlan(cfg, d.state) && Asks(d.state.proc.act.pc) && d.answer.None? && d.script != []
    && d' == Drive(Called(d.state, d.script[0]), d.script[1..], Some(d.script[0]))
  }

  ghost predicate LookedInVain(cfg: Config, d: Drive, d': Drive) {
    && HasPlan(cfg, d.state) && d.answer.Some? && d' == d.(answer := None)
    && ChangesNothing(cfg, d.state.disk.Current(), d.state.proc.act, d.answer.value)
  }

  ghost predicate Acted(cfg: Config, d: Drive, l: Label, d': Drive) {
    && HasPlan(cfg, d.state) && (l.Main? || l.ClientStep?) && StepOf(cfg, d.state, l, d'.state)
    && d'.state.proc.Running?
    && LeadsTo(cfg, cfg.plans[d.state.proc.act.row.plan], d.state.disk.Current(), d.state.proc.act, d.answer, l)
    && d'.script == d.script
    && d'.answer == Kept(d.state.proc.act.pc, d'.state.proc.act.pc, d.answer)
  }

  ghost predicate Moved(cfg: Config, d: Drive, m: Move, d': Drive) {
    match m
    case Ask => Asked(cfg, d, d')
    case Again => LookedInVain(cfg, d, d')
    case Act(l) => Acted(cfg, d, l, d')
  }

  ghost predicate MovedAt(cfg: Config, ds: seq<Drive>, ms: seq<Move>, i: int) {
    0 <= i < |ms| && i + 1 < |ds| && Moved(cfg, ds[i], ms[i], ds[i + 1])
  }

  /** A stretch of the executor's work, answer by answer. */
  ghost predicate Trip(cfg: Config, ds: seq<Drive>, ms: seq<Move>) {
    |ds| == |ms| + 1 && forall i | 0 <= i < |ms| :: MovedAt(cfg, ds, ms, i)
  }

  ghost predicate Makes(cfg: Config, d: Drive, d': Drive, ds: seq<Drive>, ms: seq<Move>) {
    Trip(cfg, ds, ms) && ds[0] == d && ds[|ms|] == d'
  }

  ghost predicate Driven(cfg: Config, d: Drive, d': Drive) {
    exists ds, ms :: Makes(cfg, d, d', ds, ms)
  }

  lemma DrivenNowhere(cfg: Config, d: Drive)
    ensures Driven(cfg, d, d)
  {
    assert Makes(cfg, d, d, [d], []);
  }

  lemma DrivenOn(cfg: Config, d: Drive, e: Drive, m: Move, f: Drive)
    requires Driven(cfg, d, e) && Moved(cfg, e, m, f)
    ensures Driven(cfg, d, f)
  {
    var ds, ms :| Makes(cfg, d, e, ds, ms);
    TripOn(cfg, ds, ms, m, f);
    assert Makes(cfg, d, f, ds + [f], ms + [m]);
  }

  lemma TripOn(cfg: Config, ds: seq<Drive>, ms: seq<Move>, m: Move, f: Drive)
    requires Trip(cfg, ds, ms) && Moved(cfg, ds[|ms|], m, f)
    ensures Trip(cfg, ds + [f], ms + [m])
  {
    forall i | 0 <= i < |ms + [m]| ensures MovedAt(cfg, ds + [f], ms + [m], i) {
      if i < |ms| {
        assert MovedAt(cfg, ds, ms, i);
      }
    }
  }

  lemma {:induction false} TripExtends(cfg: Config, d: Drive, ds: seq<Drive>, ms: seq<Move>, k: nat)
    requires Trip(cfg, ds, ms) && k <= |ms| && Driven(cfg, d, ds[0])
    ensures Driven(cfg, d, ds[k])
  {
    if k > 0 {
      TripExtends(cfg, d, ds, ms, k - 1);
      assert MovedAt(cfg, ds, ms, k - 1);
      DrivenOn(cfg, d, ds[k - 1], ms[k - 1], ds[k]);
    }
  }

  lemma DrivenThrough(cfg: Config, d: Drive, e: Drive, f: Drive)
    requires Driven(cfg, d, e) && Driven(cfg, e, f)
    ensures Driven(cfg, d, f)
  {
    var ds, ms :| Makes(cfg, e, f, ds, ms);
    TripExtends(cfg, d, ds, ms, |ms|);
  }

  // ---------------------------------------------------------------------
  // Answers taken, wake commands sent.

  /** Of the answers `script`, those up to the `k`-th are taken. */
  predicate Taken(script: seq<Poll>, rest: seq<Poll>, k: nat) {
    k < |script| && rest == script[k + 1..]
  }

  lemma TakenOn(script: seq<Poll>, k: nat, p: Poll, rest: seq<Poll>)
    requires k <= |script| && script[k..] == [p] + rest
    ensures Taken(script, rest, k) && script[k] == p
  {
    assert script[k..][0] == p && script[k..][1..] == rest;
  }

  function Wakings(t: seq<Event>): nat {
    if t == [] then 0 else Wakings(t[..|t| - 1]) + if t[|t| - 1].WakeSent? then 1 else 0
  }

  /** What was done, the answers to abort requests left out. */
  function Deeds(t: seq<Event>): seq<Event> {
    if t == [] then [] else Deeds(t[..|t| - 1]) + if t[|t| - 1].AbortAnswer? then [] else [t[|t| - 1]]
  }

  lemma {:induction false} DeedsAdd(t: seq<Event>, es: seq<Event>)
    ensures Deeds(t + es) == Deeds(t) + Deeds(es)
  {
    if es == [] {
      assert t + es == t;
    } else {
      assert (t + es)[..|t + es| - 1] == t + es[..|es| - 1];
      DeedsAdd(t, es[..|es| - 1]);
    }
  }

  lemma OneMoreEvent(t: seq<Event>, e: Event)
    ensures Wakings(t + [e]) == Wakings(t) + if e.WakeSent? then 1 else 0
    ensures Deeds(t + [e]) == Deeds(t) + if e.AbortAnswer? then [] else [e]
  {
    assert (t + [e])[..|t|] == t;
  }

  // ---------------------------------------------------------------------
  // Answers only choose among what the machine can do.

  lemma CalledLeads(cfg: Config, s: State, p: Poll)
    requires HasPlan(cfg, s)
    ensures Leads(cfg, s, Called(s, p))
  {
    LeadsNowhere(cfg, s);
    var s1 := Called(s, p.(proceedCall := false));
    if p.abortCall {
      LeadsOn(cfg, s, s, RequestAbort, s1);
    }
    if p.proceedCall {
      assert s1.trace + [] == s1.trace;
      LeadsOn(cfg, s, s1, RequestProceed, Called(s, p));
    }
  }

  lemma MoveLeads(cfg: Config, d: Drive, m: Move, d': Drive)
    requires Moved(cfg, d, m, d')
    ensures Leads(cfg, d.state, d'.state)
  {
    match m
    case Ask => CalledLeads(cfg, d.state, d.script[0]);
    case Again => LeadsNowhere(cfg, d.state);
    case Act(l) =>
      LeadsNowhere(cfg, d.state);
      LeadsOn(cfg, d.state, d.state, l, d'.state);
  }

  lemma MoveLeadsAt(cfg: Config, ds: seq<Drive>, ms: seq<Move>, i: nat)
    requires Trip(cfg, ds, ms) && i < |ms|
    ensures Leads(cfg, ds[i].state, ds[i + 1].state)
  {
    assert MovedAt(cfg, ds, ms, i);
    MoveLeads(cfg, ds[i], ms[i], ds[i + 1]);
  }

  lemma {:induction false} TripLeads(cfg: Config, ds: seq<Drive>, ms: seq<Move>, k: nat)
    requires Trip(cfg, ds, ms) && k <= |ms|
    ensures Leads(cfg, ds[0].state, ds[k].state)
  {
    if k == 0 {
      LeadsNowhere(cfg, ds[0].state);
    } else {
      TripLeads(cfg, ds, ms, k - 1);
      MoveLeadsAt(cfg, ds, ms, k - 1);
      LeadsThrough(cfg, ds[0].state, ds[k - 1].state, ds[k].state);
    }
  }

  /** What is driven by answers is a stretch of a run of the machine, so what is
      proved of every run holds of it. */
  lemma DrivenLeads(cfg: Config, d: Drive, d': Drive)
    requires Driven(cfg, d, d')
    ensures Leads(cfg, d.state, d'.state)
  {
    var ds, ms :| Makes(cfg, d, d', ds, ms);
    TripLeads(cfg, ds, ms, |ms|);
  }

  /** `rest` is what is left of `answers`. */
  predicate LeftOf(answers: seq<Poll>, rest: seq<Poll>) {
    |rest| <= |answers| && rest == answers[|answers| - |rest|..]
  }

  lemma LeftOfLeft(a: seq<Poll>, b: seq<Poll>, c: seq<Poll>)
    requires LeftOf(a, b) && LeftOf(b, c)
    ensures LeftOf(a, c)
  {
  }

  lemma TakenFromLeft(answers: seq<Poll>, was: seq<Poll>, rest: seq<Poll>, k: nat)
    requires LeftOf(answers, was) && Taken(was, rest, k)
    ensures LeftOf(answers, rest) && was[k] in answers
  {
    assert was[k] == answers[|answers| - |was| + k];
  }

  lemma MoveGrows(cfg: Config, d: Drive, m: Move, d': Drive)
    requires Moved(cfg, d, m, d')
    ensures d.state.trace <= d'.state.trace && LeftOf(d.script, d'.script)
  {
  }

  lemma MoveGrowsAt(cfg: Config, ds: seq<Drive>, ms: seq<Move>, i: nat)
    requires Trip(cfg, ds, ms) && i < |ms|
    ensures ds[i].state.trace <= ds[i + 1].state.trace && LeftOf(ds[i].script, ds[i + 1].script)
  {
    assert MovedAt(cfg, ds, ms, i);
    MoveGrows(cfg, ds[i], ms[i], ds[i + 1]);
  }

  lemma {:induction false} TripGrows(cfg: Config, ds: seq<Drive>, ms: seq<Move>, k: nat)
    requires Trip(cfg, ds, ms) && k <= |ms|
    ensures ds[0].state.trace <= ds[k].state.trace && LeftOf(ds[0].script, ds[k].script)
  {
    if k > 0 {
      TripGrows(cfg, ds, ms, k - 1);
      MoveGrowsAt(cfg, ds, ms, k - 1);
      LeftOfLeft(ds[0].script, ds[k - 1].script, ds[k].script);
    }
  }

  /** Nothing done is undone, and answers are taken in order. */
  lemma DrivenGrows(cfg: Config, d: Drive, d': Drive)
    requires Driven(cfg, d, d')
    ensures d.state.trace <= d'.state.trace && Deeds(d.state.trace) <= Deeds(d'.state.trace)
    ensures LeftOf(d.script, d'.script)
  {
    var ds, ms :| Makes(cfg, d, d', ds, ms);
    TripGrows(cfg, ds, ms, |ms|);
    DeedsAdd(d.state.trace, d'.state.trace[|d.state.trace|..]);
    assert d.state.trace + d'.state.trace[|d.state.trace|..] == d'.state.trace;
  }
}

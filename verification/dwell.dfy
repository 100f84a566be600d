/** What a `for:` timer means over a whole history of observations, resets and
    restarts, and how far its stored progress can lag behind. */
module Dwelling {
  import opened Options
  import opened Facts
  import opened Conditions

  // ---------------------------------------------------------------------
  // One timer between two observations.

  function SavedCredit(x: Cell): int {
    if x.saved.Some? then x.saved.value.elapsed else 0
  }

  function LiveCredit(x: Cell): int {
    if x.live.Some? then Elapsed(x.live.value, x.live.value.lastSeen) else 0
  }

  /** How the stored row and the timer in memory fit together. */
  predicate InStep(x: Cell) {
    match x.live
    case None => x.saved.None?
    case Some(t) =>
      && t.credited >= 0
      && (match t.started
          case None => SavedCredit(x) == t.credited
          case Some(s) =>
            && s <= t.lastSeen
            && t.lastPersisted.Some?
            && t.lastSeen - t.lastPersisted.value < DWELL_PERSIST_INTERVAL
            && SavedCredit(x) == t.credited + if t.lastPersisted.value < s then 0 else t.lastPersisted.value - s)
      && (t.lastPersisted.Some? ==> x.saved.Some? && t.lastPersisted.value <= t.lastSeen)
  }

  /** The clock does not run backwards for a timer this process has touched. */
  predicate ClockHolds(x: Cell, now: int) {
    x.live.Some? && (x.live.value.started.Some? || x.live.value.lastPersisted.Some?) ==> x.live.value.lastSeen <= now
  }

  /** After every observation the stored credit is at most the live credit and
      less than one persist interval behind it. */
  lemma StoredCreditLags(x: Cell)
    requires InStep(x)
    ensures 0 <= SavedCredit(x) <= LiveCredit(x) < SavedCredit(x) + DWELL_PERSIST_INTERVAL
  {
  }

  lemma ObserveStaysInStep(x: Cell, v: Trilean, required: int, now: int)
    requires InStep(x) && ClockHolds(x, now)
    ensures var y := Observe(x, true, v, required, now).1;
      InStep(y) && y.live.Some? && y.live.value.lastSeen == now
  {
  }

  /** SetDwellStore on a fresh evaluator: the stored credit comes back, with no
      run in progress. */
  function RestartCell(x: Cell, attached: bool): Cell {
    if attached && x.saved.Some? then
      Cell(Some(Tracker(None, x.saved.value.elapsed, x.saved.value.satisfied, 0, None)), x.saved)
    else Cell(None, if attached then x.saved else None)
  }

  /** ResetDwell: forget the timer and its row. */
  function ResetCell(): Cell {
    Cell(None, None)
  }

  lemma RestartStaysInStep(x: Cell)
    requires InStep(x)
    ensures InStep(RestartCell(x, true))
    ensures LiveCredit(RestartCell(x, true)) == SavedCredit(x)
  {
  }

  // ---------------------------------------------------------------------
  // Histories.

  datatype Happening = Observed(v: Trilean, at: int) | Reset | Restarted

  /** The timer after a history, with a dwell store attached throughout. */
  function Replay(h: seq<Happening>, required: int): Cell {
    if h == [] then Cell(None, None)
    else
      var x := Replay(h[..|h| - 1], required);
      match h[|h| - 1]
      case Observed(v, at) => Observe(x, true, v, required, at).1
      case Reset => ResetCell()
      case Restarted => RestartCell(x, true)
  }

  /** What an observation at the end of a history is answered. */
  function Answer(h: seq<Happening>, v: Trilean, at: int, required: int): Trilean {
    Observe(Replay(h, required), true, v, required, at).0
  }

  /** When this process last looked, if it has. */
  function LastLook(h: seq<Happening>): Option<int> {
    if h == [] then None
    else match h[|h| - 1]
      case Observed(_, at) => Some(at)
      case Reset => LastLook(h[..|h| - 1])
      case Restarted => None
  }

  /** Within one process, observation times do not decrease. */
  predicate Ordered(h: seq<Happening>) {
    h == [] ||
    var h' := h[..|h| - 1];
    Ordered(h') && (h[|h| - 1].Observed? && LastLook(h').Some? ==> LastLook(h').value <= h[|h| - 1].at)
  }

  /** The ideal timer, which never loses anything it could prove: time proved in
      earlier processes, and where the current run of True observations began. */
  datatype Ideal = Ideal(proved: int, since: Option<int>)

  function IdealOf(h: seq<Happening>): Ideal {
    if h == [] then Ideal(0, None)
    else
      var h' := h[..|h| - 1];
      var m := IdealOf(h');
      match h[|h| - 1]
      case Observed(v, at) =>
        if !v.True? then Ideal(0, None) else m.(since := if m.since.Some? then m.since else Some(at))
      case Reset => Ideal(0, None)
      case Restarted =>
        if m.since.Some? && LastLook(h').Some? then Ideal(m.proved + (LastLook(h').value - m.since.value), None)
        else m.(since := None)
  }

  /** Time the condition provably held, up to a True observation at `at`. */
  function Proved(h: seq<Happening>, at: int): int {
    var m := IdealOf(h);
    m.proved + if m.since.Some? then at - m.since.value else 0
  }

  /** Restarts since the condition was last seen not True (or reset). */
  function RestartsInRun(h: seq<Happening>): nat {
    if h == [] then 0
    else match h[|h| - 1]
      case Observed(v, _) => if v.True? then RestartsInRun(h[..|h| - 1]) else 0
      case Reset => 0
      case Restarted => RestartsInRun(h[..|h| - 1]) + 1
  }

  /** The timer follows the ideal one, short by less than one persist interval
      per restart in the current run. */
  predicate Follows(x: Cell, m: Ideal, look: Option<int>, restarts: nat) {
    && InStep(x)
    && (m.since.Some? ==> look.Some? && m.since.value <= look.value)
    && (x.saved.None? ==> m.proved == 0 && m.since.None?)
    && match x.live
       case None => true
       case Some(t) =>
         && t.started == m.since
         && t.credited <= m.proved <= t.credited + restarts * (DWELL_PERSIST_INTERVAL - 1)
         && (t.started.Some? || t.lastPersisted.Some? ==> look == Some(t.lastSeen))
  }

  lemma FollowsThroughObservation(x: Cell, m: Ideal, look: Option<int>, restarts: nat, v: Trilean, required: int, at: int)
    requires Follows(x, m, look, restarts) && (look.Some? ==> look.value <= at)
    ensures Follows(Observe(x, true, v, required, at).1,
                    if !v.True? then Ideal(0, None) else m.(since := if m.since.Some? then m.since else Some(at)),
                    Some(at), if v.True? then restarts else 0)
  {
    ObserveStaysInStep(x, v, required, at);
  }

  lemma FollowsThroughRestart(x: Cell, m: Ideal, look: Option<int>, restarts: nat)
    requires Follows(x, m, look, restarts)
    ensures Follows(RestartCell(x, true),
                    if m.since.Some? && look.Some? then Ideal(m.proved + (look.value - m.since.value), None) else m.(since := None),
                    None, restarts + 1)
  {
    RestartStaysInStep(x);
    StoredCreditLags(x);
  }

  lemma {:induction false} TimerFollowsIdeal(h: seq<Happening>, required: int)
    requires Ordered(h)
    ensures Follows(Replay(h, required), IdealOf(h), LastLook(h), RestartsInRun(h))
  {
    if h != [] {
      var h' := h[..|h| - 1];
      TimerFollowsIdeal(h', required);
      var x, m, look, n := Replay(h', required), IdealOf(h'), LastLook(h'), RestartsInRun(h');
      match h[|h| - 1]
      case Observed(v, at) => FollowsThroughObservation(x, m, look, n, v, required, at);
      case Reset =>
      case Restarted => FollowsThroughRestart(x, m, look, n);
    }
  }

  /** A `for:` condition answers True only if its latest observation is True and
      the time it provably held reaches the requirement: no restart, reset or
      stretch of downtime is ever credited. With no restart in the current run it
      answers True exactly then, and each restart can delay it by less than one
      persist interval. */
  lemma DwellMeansHeld(h: seq<Happening>, v: Trilean, at: int, required: int)
    requires Ordered(h + [Observed(v, at)])
    ensures !v.True? ==> Answer(h, v, at, required) == v
    ensures v.True? ==> Answer(h, v, at, required) != Unavailable
    ensures Answer(h, v, at, required).True? ==> v.True? && Proved(h, at) >= required
    ensures RestartsInRun(h) == 0 ==>
      (Answer(h, v, at, required).True? <==> v.True? && Proved(h, at) >= required)
    ensures v.True? && Proved(h, at) >= required + RestartsInRun(h) * (DWELL_PERSIST_INTERVAL - 1) ==>
      Answer(h, v, at, required).True?
  {
    var h1 := h + [Observed(v, at)];
    assert h1[..|h1| - 1] == h && h1[|h1| - 1] == Observed(v, at);
    assert Ordered(h);
    TimerFollowsIdeal(h, required);
  }

  /** Credit carried over from earlier processes by the run now in progress: what
      the store held at the last restart. */
  function Restored(h: seq<Happening>, required: int): int {
    if h == [] then 0
    else
      var h' := h[..|h| - 1];
      match h[|h| - 1]
      case Observed(v, _) => if v.True? then Restored(h', required) else 0
      case Reset => 0
      case Restarted => SavedCredit(Replay(h', required))
  }

  lemma {:induction false} TimerHoldsRestored(h: seq<Happening>, required: int)
    requires Ordered(h)
    ensures var x := Replay(h, required);
      if x.live.Some? then x.live.value.credited == Restored(h, required) && x.live.value.started == IdealOf(h).since
      else Restored(h, required) == 0 && IdealOf(h).since.None?
  {
    if h != [] {
      TimerHoldsRestored(h[..|h| - 1], required);
      TimerFollowsIdeal(h[..|h| - 1], required);
    }
  }

  /** The exact answer, restarts included: True precisely when the observation is
      True and restored credit plus the time since the first observation of the
      current True run in this process reaches the requirement. */
  lemma {:induction false} DwellIsExact(h: seq<Happening>, v: Trilean, at: int, required: int)
    requires Ordered(h + [Observed(v, at)])
    ensures var since := IdealOf(h).since;
      Answer(h, v, at, required).True? <==>
        v.True? && Restored(h, required) + (if since.Some? then at - since.value else 0) >= required
  {
    var h1 := h + [Observed(v, at)];
    assert h1[..|h1| - 1] == h && h1[|h1| - 1] == Observed(v, at);
    assert Ordered(h);
    TimerHoldsRestored(h, required);
    TimerFollowsIdeal(h, required);
  }

  /** A reset wipes the timer: what came before it makes no difference. */
  lemma {:induction false} ResetForgets(h: seq<Happening>, later: seq<Happening>, required: int)
    ensures Replay(h + [Reset] + later, required) == Replay(later, required)
  {
    var h1 := h + [Reset] + later;
    if later == [] {
      assert h1[..|h1| - 1] == h && h1[|h1| - 1] == Reset;
    } else {
      assert h1[..|h1| - 1] == h + [Reset] + later[..|later| - 1] && h1[|h1| - 1] == later[|later| - 1];
      ResetForgets(h, later[..|later| - 1], required);
    }
  }

  lemma {:induction false} LooksLater(h: seq<Happening>, later: seq<Happening>)
    requires Ordered(h + later)
    ensures Ordered(later) && (LastLook(later).Some? ==> LastLook(h + later) == LastLook(later))
  {
    if later != [] {
      var h1 := h + later;
      assert h1[..|h1| - 1] == h + later[..|later| - 1] && h1[|h1| - 1] == later[|later| - 1];
      LooksLater(h, later[..|later| - 1]);
    }
  }

  /** After ResetDwell a True run has to earn the whole requirement again, across
      any restarts: the timer answers as one that begins there, so True needs the
      requirement proved since the reset, and in one process an observation at
      least that long ago. */
  lemma ResetCostsFullDwell(h: seq<Happening>, later: seq<Happening>, v: Trilean, at: int, required: int)
    requires Ordered(h + [Reset] + (later + [Observed(v, at)]))
    ensures Answer(h + [Reset] + later, v, at, required) == Answer(later, v, at, required)
    ensures Answer(h + [Reset] + later, v, at, required).True? ==> v.True? && Proved(later, at) >= required
    ensures Answer(h + [Reset] + later, v, at, required).True? && required > 0 && (forall x | x in later :: x.Observed?) ==>
      later != [] && later[0].at <= at - required
  {
    ResetForgets(h, later, required);
    LooksLater(h + [Reset], later + [Observed(v, at)]);
    DwellMeansHeld(later, v, at, required);
    if forall x | x in later :: x.Observed? {
      assert (later + [Observed(v, at)])[..|later|] == later;
      ProvedSinceFirst(later);
    }
  }

  lemma {:induction false} ProvedSinceFirst(later: seq<Happening>)
    requires Ordered(later) && forall x | x in later :: x.Observed?
    ensures IdealOf(later).proved == 0 && (IdealOf(later).since.Some? ==> later != [] && later[0].at <= IdealOf(later).since.value)
    ensures later != [] ==> LastLook(later).Some? && later[0].at <= LastLook(later).value
  {
    if later != [] {
      ProvedSinceFirst(later[..|later| - 1]);
    }
  }

  // ---------------------------------------------------------------------
  // The bound for every timer of every tree.

  ghost predicate TimersInStep(ts: Timers) {
    ts.attached && forall c :: InStep(CellOf(ts, c))
  }

  ghost predicate ClocksHold(ts: Timers, now: int) {
    forall c :: ClockHolds(CellOf(ts, c), now)
  }

  lemma ApplyDwellStaysInStep(ts: Timers, c: Cond, v: Trilean, required: int, now: int)
    requires TimersInStep(ts) && ClocksHold(ts, now)
    ensures var ts' := ApplyDwell(ts, c, v, required, now).1; TimersInStep(ts') && ClocksHold(ts', now)
  {
    var ts' := ApplyDwell(ts, c, v, required, now).1;
    var y := Observe(CellOf(ts, c), true, v, required, now).1;
    ObserveStaysInStep(CellOf(ts, c), v, required, now);
    assert CellOf(ts', c) == y;
    forall k ensures InStep(CellOf(ts', k)) && ClockHolds(CellOf(ts', k), now) {
      if k != c {
        assert CellOf(ts', k) == CellOf(ts, k);
      }
    }
  }

  /** Evaluating any tree keeps every timer in step, so after it each stored
      credit is within one persist interval of the live one. */
  lemma {:induction false} EvaluateStaysInStep(w: World, c: Cond, ts: Timers, now: int)
    requires TimersInStep(ts) && ClocksHold(ts, now)
    ensures var ts' := Eval(w, c, ts, now).1; TimersInStep(ts') && ClocksHold(ts', now)
    decreases c, 1
  {
    var (v, ts1) := EvalInner(w, c, ts, now);
    match Inferred(c) {
      case All => AllStaysInStep(w, c.conditions, ts, now, True);
      case Any => AnyStaysInStep(w, c.conditions, ts, now, False);
      case Negation =>
        if c.conditions != [] {
          EvaluateStaysInStep(w, c.conditions[0], ts, now);
        }
      case _ =>
    }
    if Required(c).Some? {
      ApplyDwellStaysInStep(ts1, c, v, Required(c).value, now);
    }
  }

  lemma {:induction false} AllStaysInStep(w: World, cs: seq<Cond>, ts: Timers, now: int, acc: Trilean)
    requires TimersInStep(ts) && ClocksHold(ts, now)
    ensures var ts' := EvalAll(w, cs, ts, now, acc).1; TimersInStep(ts') && ClocksHold(ts', now)
    decreases cs
  {
    if cs != [] {
      EvaluateStaysInStep(w, cs[0], ts, now);
      var (v, ts') := Eval(w, cs[0], ts, now);
      AllStaysInStep(w, cs[1..], ts', now, And(acc, v));
    }
  }

  lemma {:induction false} AnyStaysInStep(w: World, cs: seq<Cond>, ts: Timers, now: int, acc: Trilean)
    requires TimersInStep(ts) && ClocksHold(ts, now)
    ensures var ts' := EvalAny(w, cs, ts, now, acc).1; TimersInStep(ts') && ClocksHold(ts', now)
    decreases cs
  {
    if cs != [] {
      EvaluateStaysInStep(w, cs[0], ts, now);
      var (v, ts') := Eval(w, cs[0], ts, now);
      AnyStaysInStep(w, cs[1..], ts', now, Or(acc, v));
    }
  }

  /** A restart right after an evaluation brings back, for every timer, less than
      one persist interval short of what that evaluation had earned, and never
      more. */
  lemma RestartLosesLittle(w: World, c: Cond, ts: Timers, now: int, k: Cond)
    requires TimersInStep(ts) && ClocksHold(ts, now)
    ensures var x := CellOf(Eval(w, c, ts, now).1, k);
      LiveCredit(x) - DWELL_PERSIST_INTERVAL < LiveCredit(RestartCell(x, true)) <= LiveCredit(x)
  {
    EvaluateStaysInStep(w, c, ts, now);
    var x := CellOf(Eval(w, c, ts, now).1, k);
    StoredCreditLags(x);
    RestartStaysInStep(x);
  }
}

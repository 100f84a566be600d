/** When losing a sensor cannot create a True, and when it can. */
module SensorLoss {
  import opened Options
  import opened Facts
  import opened Conditions
  import opened Explaining

  /** No template and no effective `for:` anywhere in the tree. */
  predicate Plain(c: Cond) {
    && !Inferred(c).Template?
    && Required(c).None?
    && PlainAll(c.conditions)
  }

  predicate PlainAll(cs: seq<Cond>) {
    forall i | 0 <= i < |cs| :: Plain(cs[i])
  }

  ghost predicate WorseWorld(worse: World, better: World) {
    Degraded(worse.readings, better.readings) && worse.show == better.show
  }

  lemma LeafVaguer(worse: World, better: World, c: Cond, now: int, now': int)
    requires WorseWorld(worse, better) && !Inferred(c).Template?
    ensures Vaguer(EvalLeaf(worse, c, now), EvalLeaf(better, c, now'))
  {
    assert Read(worse.readings, c.fact) == Read(better.readings, c.fact) || !Usable(Read(worse.readings, c.fact));
  }

  lemma {:induction false} PreviewVaguer(worse: World, better: World, c: Cond, live: map<Cond, Tracker>, live': map<Cond, Tracker>, now: int, now': int)
    requires WorseWorld(worse, better) && Plain(c)
    ensures Vaguer(Preview(worse, c, live, now), Preview(better, c, live', now'))
    decreases c, 1
  {
    InstantVaguer(worse, better, c, live, live', now, now');
  }

  lemma {:induction false} InstantVaguer(worse: World, better: World, c: Cond, live: map<Cond, Tracker>, live': map<Cond, Tracker>, now: int, now': int)
    requires WorseWorld(worse, better) && !Inferred(c).Template? && PlainAll(c.conditions)
    ensures Vaguer(PreviewInstant(worse, c, live, now), PreviewInstant(better, c, live', now'))
    decreases c, 0
  {
    match Inferred(c)
    case All => AllVaguer(worse, better, c.conditions, live, live', now, now', True, True);
    case Any => AnyVaguer(worse, better, c.conditions, live, live', now, now', False, False);
    case Negation =>
      if c.conditions != [] {
        PreviewVaguer(worse, better, c.conditions[0], live, live', now, now');
      }
    case _ => LeafVaguer(worse, better, c, now, now');
  }

  lemma {:induction false} AllVaguer(worse: World, better: World, cs: seq<Cond>, live: map<Cond, Tracker>, live': map<Cond, Tracker>,
                                     now: int, now': int, acc: Trilean, acc': Trilean)
    requires WorseWorld(worse, better) && PlainAll(cs) && Vaguer(acc, acc')
    ensures Vaguer(PreviewAll(worse, cs, live, now, acc), PreviewAll(better, cs, live', now', acc'))
    decreases cs
  {
    if cs != [] {
      PreviewVaguer(worse, better, cs[0], live, live', now, now');
      AllVaguer(worse, better, cs[1..], live, live', now, now',
                And(acc, Preview(worse, cs[0], live, now)), And(acc', Preview(better, cs[0], live', now')));
    }
  }

  lemma {:induction false} AnyVaguer(worse: World, better: World, cs: seq<Cond>, live: map<Cond, Tracker>, live': map<Cond, Tracker>,
                                     now: int, now': int, acc: Trilean, acc': Trilean)
    requires WorseWorld(worse, better) && PlainAll(cs) && Vaguer(acc, acc')
    ensures Vaguer(PreviewAny(worse, cs, live, now, acc), PreviewAny(better, cs, live', now', acc'))
    decreases cs
  {
    if cs != [] {
      PreviewVaguer(worse, better, cs[0], live, live', now, now');
      AnyVaguer(worse, better, cs[1..], live, live', now, now',
                Or(acc, Preview(worse, cs[0], live, now)), Or(acc', Preview(better, cs[0], live', now')));
    }
  }

  /** Degrading any set of facts leaves the answer of a plain condition as it was
      or makes it Unavailable, whatever the timers hold. */
  lemma DegradedAnswerIsVaguer(worse: World, better: World, c: Cond, ts: Timers, ts': Timers, now: int)
    requires WorseWorld(worse, better) && Plain(c)
    requires CreditsHold(ts.live) && CreditsHold(ts'.live)
    ensures Vaguer(Eval(worse, c, ts, now).0, Eval(better, c, ts', now).0)
  {
    ExplainPreviewsEvaluate(worse, c, ts, now);
    ExplainPreviewsEvaluate(better, c, ts', now);
    PreviewVaguer(worse, better, c, ts.live, ts'.live, now, now);
  }

  /** A source that merely goes silent cannot turn a plain condition True. */
  lemma SilenceNeverFires(r: Readings, show: Value -> string, template: (string, int) -> Trilean,
                          c: Cond, ts: Timers, ts': Timers, t1: int, t2: int, now: int)
    requires Plain(c) && t1 <= t2 && CreditsHold(ts.live) && CreditsHold(ts'.live)
    requires Eval(World(Refreshed(Refreshed(r, t1), t2), show, template), c, ts, now).0.True?
    ensures Eval(World(Refreshed(r, t1), show, template), c, ts', now).0.True?
  {
    SilenceOnlyDegrades(r, t1, t2);
    DegradedAnswerIsVaguer(World(Refreshed(Refreshed(r, t1), t2), show, template),
                           World(Refreshed(r, t1), show, template), c, ts, ts', now);
  }

  // ---------------------------------------------------------------------
  // Conditions with timers, over time.

  /** The first of the conditions combined by and/or, the only one that is always
      evaluated. */
  predicate HasHead(c: Cond) {
    (Inferred(c).All? || Inferred(c).Any?) && c.conditions != []
  }

  /** No template, and every `for:` stands at the root or on the first branch, with
      no negation above it: whether its timer is sampled does not depend on facts
      that could be lost. */
  predicate Steady(c: Cond) {
    && !Inferred(c).Template?
    && if HasHead(c) then Steady(c.conditions[0]) && PlainAll(c.conditions[1..]) else PlainAll(c.conditions)
  }

  lemma {:induction false} PlainIsSteady(c: Cond)
    requires !Inferred(c).Template? && PlainAll(c.conditions)
    ensures Steady(c)
  {
    if HasHead(c) {
      PlainIsSteady(c.conditions[0]);
    }
  }

  /** Evaluating the inside of a condition without nested timers touches none. */
  lemma {:induction false} PlainTouchesNothing(w: World, c: Cond, ts: Timers, now: int)
    requires PlainAll(c.conditions)
    ensures EvalInner(w, c, ts, now).1 == ts
    decreases c, 0
  {
    match Inferred(c)
    case All => PlainAllTouchesNothing(w, c.conditions, ts, now, True);
    case Any => PlainAnyTouchesNothing(w, c.conditions, ts, now, False);
    case Negation =>
      if c.conditions != [] {
        PlainTouchesNothing(w, c.conditions[0], ts, now);
      }
    case _ =>
  }

  lemma {:induction false} PlainAllTouchesNothing(w: World, cs: seq<Cond>, ts: Timers, now: int, acc: Trilean)
    requires PlainAll(cs)
    ensures EvalAll(w, cs, ts, now, acc).1 == ts
    decreases cs
  {
    if cs != [] {
      PlainTouchesNothing(w, cs[0], ts, now);
      PlainAllTouchesNothing(w, cs[1..], ts, now, And(acc, Eval(w, cs[0], ts, now).0));
    }
  }

  lemma {:induction false} PlainAnyTouchesNothing(w: World, cs: seq<Cond>, ts: Timers, now: int, acc: Trilean)
    requires PlainAll(cs)
    ensures EvalAny(w, cs, ts, now, acc).1 == ts
    decreases cs
  {
    if cs != [] {
      PlainTouchesNothing(w, cs[0], ts, now);
      PlainAnyTouchesNothing(w, cs[1..], ts, now, Or(acc, Eval(w, cs[0], ts, now).0));
    }
  }

  /** Timer `y` is never ahead of timer `x`. */
  predicate Behind(y: Cell, x: Cell, now: int) {
    && (x.live.Some? ==> x.live.value.credited >= 0 && (x.live.value.started.Some? ==> x.live.value.started.value <= now))
    && (y.live.Some? ==>
        var q := y.live.value;
        || (q.started.None? && q.credited == 0)
        || (&& x.live.Some?
            && var p := x.live.value;
              && q.credited >= 0
              && (q.started.None? ==> q.credited <= p.credited)
              && (q.started.Some? ==>
                  p.started.Some? && q.started.value <= now && q.credited - q.started.value <= p.credited - p.started.value)))
  }

  lemma ObserveStaysBehind(y: Cell, x: Cell, attached: bool, v: Trilean, v': Trilean, required: int, before: int, now: int)
    requires Behind(y, x, before) && before <= now && (v.True? ==> v'.True?)
    ensures var r, r' := Observe(y, attached, v, required, now), Observe(x, attached, v', required, now);
      Behind(r.1, r'.1, now) && (r.0.True? ==> r'.0.True?)
  {
  }

  /** One tick: the true world, the world with some sensors lost, and the time. */
  datatype Tick = Tick(better: World, worse: World, at: int)

  ghost predicate Ticks(ticks: seq<Tick>) {
    && (forall i | 0 <= i < |ticks| :: WorseWorld(ticks[i].worse, ticks[i].better))
    && (forall i, j | 0 <= i <= j < |ticks| :: ticks[i].at <= ticks[j].at)
  }

  function Watch(c: Cond, ticks: seq<Tick>, lossy: bool, ts: Timers): Timers {
    if ticks == [] then ts
    else
      var t := ticks[|ticks| - 1];
      Eval(if lossy then t.worse else t.better, c, Watch(c, ticks[..|ticks| - 1], lossy, ts), t.at).1
  }

  function Verdict(c: Cond, ticks: seq<Tick>, lossy: bool, ts: Timers): Trilean
    requires ticks != []
  {
    var t := ticks[|ticks| - 1];
    Eval(if lossy then t.worse else t.better, c, Watch(c, ticks[..|ticks| - 1], lossy, ts), t.at).0
  }

  // ---------------------------------------------------------------------
  // The timers along the first branch.

  function Depth(c: Cond): nat {
    if c.conditions == [] then 0 else 1 + Depth(c.conditions[0])
  }

  /** Evaluating `c` leaves the timers of deeper conditions alone. */
  ghost predicate Untouched(c: Cond, ts: Timers, ts': Timers) {
    ts'.attached == ts.attached && forall d | Depth(d) > Depth(c) :: CellOf(ts', d) == CellOf(ts, d)
  }

  lemma CellAfterDwell(ts: Timers, c: Cond, v: Trilean, required: int, now: int)
    ensures var r := ApplyDwell(ts, c, v, required, now);
      && r.0 == Observe(CellOf(ts, c), ts.attached, v, required, now).0
      && CellOf(r.1, c) == Observe(CellOf(ts, c), ts.attached, v, required, now).1 && r.1.attached == ts.attached
      && forall d | d != c :: CellOf(r.1, d) == CellOf(ts, d)
  {
  }

  /** Inside a steady condition only the first branch touches timers. */
  lemma InnerTouchesHead(w: World, c: Cond, ts: Timers, now: int)
    requires Steady(c)
    ensures EvalInner(w, c, ts, now).1 == if HasHead(c) then Eval(w, c.conditions[0], ts, now).1 else ts
  {
    if HasHead(c) {
      var (v, ts') := Eval(w, c.conditions[0], ts, now);
      PlainAllTouchesNothing(w, c.conditions[1..], ts', now, And(True, v));
      PlainAnyTouchesNothing(w, c.conditions[1..], ts', now, Or(False, v));
    } else {
      PlainTouchesNothing(w, c, ts, now);
    }
  }

  lemma {:induction false} SteadyTouches(w: World, c: Cond, ts: Timers, now: int)
    requires Steady(c)
    ensures Untouched(c, ts, Eval(w, c, ts, now).1)
    decreases c
  {
    InnerTouchesHead(w, c, ts, now);
    var (v, ts') := EvalInner(w, c, ts, now);
    if HasHead(c) {
      SteadyTouches(w, c.conditions[0], ts, now);
    }
    if Required(c).Some? {
      CellAfterDwell(ts', c, v, Required(c).value, now);
    }
  }

  /** Along the first branch no lossy timer is ahead. */
  ghost predicate SpineBehind(c: Cond, y: Timers, x: Timers, now: int) {
    && (Required(c).Some? ==> Behind(CellOf(y, c), CellOf(x, c), now))
    && (HasHead(c) ==> SpineBehind(c.conditions[0], y, x, now))
  }

  lemma {:induction false} SpineFrame(c: Cond, y: Timers, x: Timers, y': Timers, x': Timers, now: int)
    requires SpineBehind(c, y, x, now)
    requires forall d | Depth(d) <= Depth(c) :: CellOf(y', d) == CellOf(y, d) && CellOf(x', d) == CellOf(x, d)
    ensures SpineBehind(c, y', x', now)
  {
    if HasHead(c) {
      SpineFrame(c.conditions[0], y, x, y', x', now);
    }
  }

  // ---------------------------------------------------------------------
  // One tick.

  lemma {:induction false} AllFires(worse: World, better: World, cs: seq<Cond>, y: Timers, x: Timers, now: int, acc: Trilean, acc': Trilean)
    requires WorseWorld(worse, better) && PlainAll(cs) && CreditsHold(y.live) && CreditsHold(x.live)
    requires acc.True? ==> acc'.True?
    requires EvalAll(worse, cs, y, now, acc).0.True?
    ensures EvalAll(better, cs, x, now, acc').0.True?
  {
    if cs != [] {
      DegradedAnswerIsVaguer(worse, better, cs[0], y, x, now);
      PlainTouchesNothing(worse, cs[0], y, now);
      PlainTouchesNothing(better, cs[0], x, now);
      AllNeedsTrue(worse, cs[1..], y, now, And(acc, Eval(worse, cs[0], y, now).0));
      AllFires(worse, better, cs[1..], y, x, now, And(acc, Eval(worse, cs[0], y, now).0), And(acc', Eval(better, cs[0], x, now).0));
    }
  }

  lemma {:induction false} AllNeedsTrue(w: World, cs: seq<Cond>, ts: Timers, now: int, acc: Trilean)
    requires EvalAll(w, cs, ts, now, acc).0.True?
    ensures acc.True?
  {
    if cs != [] {
      var (v, ts') := Eval(w, cs[0], ts, now);
      AllNeedsTrue(w, cs[1..], ts', now, And(acc, v));
    }
  }

  lemma {:induction false} AnyFires(worse: World, better: World, cs: seq<Cond>, y: Timers, x: Timers, now: int, acc: Trilean, acc': Trilean)
    requires WorseWorld(worse, better) && PlainAll(cs) && CreditsHold(y.live) && CreditsHold(x.live)
    requires acc.True? ==> acc'.True?
    requires EvalAny(worse, cs, y, now, acc).0.True?
    ensures EvalAny(better, cs, x, now, acc').0.True?
  {
    if cs != [] {
      DegradedAnswerIsVaguer(worse, better, cs[0], y, x, now);
      PlainTouchesNothing(worse, cs[0], y, now);
      PlainTouchesNothing(better, cs[0], x, now);
      var v, v' := Or(acc, Eval(worse, cs[0], y, now).0), Or(acc', Eval(better, cs[0], x, now).0);
      if !v'.True? {
        AnyFires(worse, better, cs[1..], y, x, now, v, v');
      }
    }
  }

  /** The inside of a steady condition: its first branch, then the rest. */
  lemma InnerFires(c: Cond, t: Tick, y: Timers, x: Timers)
    requires Steady(c) && WorseWorld(t.worse, t.better) && CreditsHold(y.live) && CreditsHold(x.live)
    requires HasHead(c) ==> Eval(t.worse, c.conditions[0], y, t.at).0.True? ==> Eval(t.better, c.conditions[0], x, t.at).0.True?
    requires EvalInner(t.worse, c, y, t.at).0.True?
    ensures EvalInner(t.better, c, x, t.at).0.True?
  {
    if HasHead(c) {
      ExplainPreviewsEvaluate(t.worse, c.conditions[0], y, t.at);
      ExplainPreviewsEvaluate(t.better, c.conditions[0], x, t.at);
      HeadFires(c, t, y, x);
    } else {
      InnerPreviewed(t.worse, c, y, t.at);
      InnerPreviewed(t.better, c, x, t.at);
      InstantVaguer(t.worse, t.better, c, y.live, x.live, t.at, t.at);
    }
  }

  lemma HeadFires(c: Cond, t: Tick, y: Timers, x: Timers)
    requires Steady(c) && HasHead(c) && WorseWorld(t.worse, t.better)
    requires Eval(t.worse, c.conditions[0], y, t.at).0.True? ==> Eval(t.better, c.conditions[0], x, t.at).0.True?
    requires CreditsHold(Eval(t.worse, c.conditions[0], y, t.at).1.live) && CreditsHold(Eval(t.better, c.conditions[0], x, t.at).1.live)
    requires EvalInner(t.worse, c, y, t.at).0.True?
    ensures EvalInner(t.better, c, x, t.at).0.True?
  {
    var (v, y') := Eval(t.worse, c.conditions[0], y, t.at);
    var (v', x') := Eval(t.better, c.conditions[0], x, t.at);
    var rest := c.conditions[1..];
    if Inferred(c).All? {
      AllNeedsTrue(t.worse, rest, y', t.at, And(True, v));
      AllFires(t.worse, t.better, rest, y', x', t.at, And(True, v), And(True, v'));
    } else if !v'.True? {
      AnyFires(t.worse, t.better, rest, y', x', t.at, Or(False, v), Or(False, v'));
    }
  }

  lemma {:induction false} TickStaysBehind(c: Cond, t: Tick, y: Timers, x: Timers, before: int)
    requires Steady(c) && WorseWorld(t.worse, t.better) && before <= t.at
    requires CreditsHold(y.live) && CreditsHold(x.live) && y.attached == x.attached && SpineBehind(c, y, x, before)
    ensures var r, r' := Eval(t.worse, c, y, t.at), Eval(t.better, c, x, t.at);
      && SpineBehind(c, r.1, r'.1, t.at)
      && (r.0.True? ==> r'.0.True?)
    decreases c
  {
    InnerTouchesHead(t.worse, c, y, t.at);
    InnerTouchesHead(t.better, c, x, t.at);
    if HasHead(c) {
      TickStaysBehind(c.conditions[0], t, y, x, before);
      SteadyTouches(t.worse, c.conditions[0], y, t.at);
      SteadyTouches(t.better, c.conditions[0], x, t.at);
    }
    if EvalInner(t.worse, c, y, t.at).0.True? {
      InnerFires(c, t, y, x);
    }
    RootStaysBehind(c, t, y, x, before);
  }

  /** The timer at the root, once the inside is settled. */
  lemma RootStaysBehind(c: Cond, t: Tick, y: Timers, x: Timers, before: int)
    requires before <= t.at
    requires var r, r' := EvalInner(t.worse, c, y, t.at), EvalInner(t.better, c, x, t.at);
      && r.1.attached == r'.1.attached
      && (r.0.True? ==> r'.0.True?)
      && (Required(c).Some? ==> Behind(CellOf(r.1, c), CellOf(r'.1, c), before))
      && (HasHead(c) ==> SpineBehind(c.conditions[0], r.1, r'.1, t.at))
    ensures var r, r' := Eval(t.worse, c, y, t.at), Eval(t.better, c, x, t.at);
      && SpineBehind(c, r.1, r'.1, t.at)
      && (r.0.True? ==> r'.0.True?)
  {
    if Required(c).Some? {
      var (v, y1) := EvalInner(t.worse, c, y, t.at);
      var (v', x1) := EvalInner(t.better, c, x, t.at);
      ObserveStaysBehind(CellOf(y1, c), CellOf(x1, c), y1.attached, v, v', Required(c).value, before, t.at);
      CellAfterDwell(y1, c, v, Required(c).value, t.at);
      CellAfterDwell(x1, c, v', Required(c).value, t.at);
      if HasHead(c) {
        SpineFrame(c.conditions[0], y1, x1, ApplyDwell(y1, c, v, Required(c).value, t.at).1,
                   ApplyDwell(x1, c, v', Required(c).value, t.at).1, t.at);
      }
    }
  }

  // ---------------------------------------------------------------------
  // Whole histories.

  /** No timer along the first branch was started ahead of the clock. */
  ghost predicate SpineStarted(c: Cond, ts: Timers, at: int) {
    && (Required(c).Some? && c in ts.live && ts.live[c].started.Some? ==> ts.live[c].started.value <= at)
    && (HasHead(c) ==> SpineStarted(c.conditions[0], ts, at))
  }

  lemma {:induction false} StartsBehind(c: Cond, ts: Timers, at: int)
    requires CreditsHold(ts.live) && SpineStarted(c, ts, at)
    ensures SpineBehind(c, ts, ts, at)
  {
    if HasHead(c) {
      StartsBehind(c.conditions[0], ts, at);
    }
  }

  lemma {:induction false} WatchedBehind(c: Cond, ticks: seq<Tick>, ts: Timers)
    requires Steady(c) && Ticks(ticks) && ticks != [] && CreditsHold(ts.live) && SpineStarted(c, ts, ticks[0].at)
    ensures var y, x := Watch(c, ticks, true, ts), Watch(c, ticks, false, ts);
      && CreditsHold(y.live) && CreditsHold(x.live) && y.attached == x.attached
      && SpineBehind(c, y, x, ticks[|ticks| - 1].at)
    ensures Verdict(c, ticks, true, ts).True? ==> Verdict(c, ticks, false, ts).True?
  {
    var t, earlier := ticks[|ticks| - 1], ticks[..|ticks| - 1];
    var y, x := Watch(c, earlier, true, ts), Watch(c, earlier, false, ts);
    var before := if earlier == [] then t.at else earlier[|earlier| - 1].at;
    if earlier == [] {
      StartsBehind(c, ts, t.at);
    } else {
      WatchedBehind(c, earlier, ts);
    }
    TickStaysBehind(c, t, y, x, before);
    ExplainPreviewsEvaluate(t.worse, c, y, t.at);
    ExplainPreviewsEvaluate(t.better, c, x, t.at);
    SteadyTouches(t.worse, c, y, t.at);
    SteadyTouches(t.better, c, x, t.at);
  }

  /** Over any history of nondecreasing instants, a steady condition is True with
      lost sensors only if it is True with all of them. */
  lemma SensorLossNeverFires(c: Cond, ticks: seq<Tick>, ts: Timers)
    requires Steady(c) && Ticks(ticks) && ticks != [] && CreditsHold(ts.live) && SpineStarted(c, ts, ticks[0].at)
    requires Verdict(c, ticks, true, ts).True?
    ensures Verdict(c, ticks, false, ts).True?
  {
    WatchedBehind(c, ticks, ts);
  }

  // ---------------------------------------------------------------------
  // One timer among plain conditions: exactly when a loss can fire it.

  /** No history in which sensors are lost fires where the full one does not. */
  ghost predicate NeverFiredByLoss(c: Cond) {
    forall ticks: seq<Tick>, ts | Ticks(ticks) && ticks != [] && StartsClean(ts, ticks[0].at) && Verdict(c, ticks, true, ts).True? ::
      Verdict(c, ticks, false, ts).True?
  }

  ghost predicate StartsClean(ts: Timers, at: int) {
    CreditsHold(ts.live) && forall c | c in ts.live && ts.live[c].started.Some? :: ts.live[c].started.value <= at
  }

  /** A `for:` with nothing but plain conditions inside. */
  predicate Timer(q: Cond) {
    !Inferred(q).Template? && Required(q).Some? && PlainAll(q.conditions)
  }

  /** What the inside of a plain condition or a timer says, at any time and with any
      timers. */
  function Says(w: World, c: Cond): Trilean {
    PreviewInstant(w, c, map[], 0)
  }

  lemma SaysAlways(w: World, c: Cond, ts: Timers, at: int)
    requires !Inferred(c).Template? && PlainAll(c.conditions) && CreditsHold(ts.live)
    ensures EvalInner(w, c, ts, at) == (Says(w, c), ts)
    ensures Required(c).None? ==> Eval(w, c, ts, at) == (Says(w, c), ts)
    ensures Required(c).Some? ==> Eval(w, c, ts, at) == ApplyDwell(ts, c, Says(w, c), Required(c).value, at)
  {
    InnerPreviewed(w, c, ts, at);
    InstantVaguer(w, w, c, ts.live, map[], at, 0);
    InstantVaguer(w, w, c, map[], ts.live, 0, at);
    PlainTouchesNothing(w, c, ts, at);
  }

  lemma SaysVaguer(worse: World, better: World, c: Cond)
    requires WorseWorld(worse, better) && !Inferred(c).Template? && PlainAll(c.conditions)
    ensures Vaguer(Says(worse, c), Says(better, c))
  {
    InstantVaguer(worse, better, c, map[], map[], 0, 0);
  }

  /** What plain conditions come to together, starting from `acc`. */
  function Together(all: bool, w: World, cs: seq<Cond>, acc: Trilean): Trilean {
    if all then PreviewAll(w, cs, map[], 0, acc) else PreviewAny(w, cs, map[], 0, acc)
  }

  function Joins(all: bool, a: Trilean, b: Trilean): Trilean {
    if all then And(a, b) else Or(a, b)
  }

  /** With this the loop stops. */
  predicate Decides(all: bool, v: Trilean) {
    if all then v.False? else v.True?
  }

  function Loop(all: bool, w: World, cs: seq<Cond>, ts: Timers, at: int, acc: Trilean): (Trilean, Timers) {
    if all then EvalAll(w, cs, ts, at, acc) else EvalAny(w, cs, ts, at, acc)
  }

  lemma {:induction false} DecidedStays(all: bool, w: World, cs: seq<Cond>, acc: Trilean)
    requires Decides(all, acc)
    ensures Together(all, w, cs, acc) == acc
  {
    FalseAbsorbs(w, cs, map[], 0);
    TrueAbsorbs(w, cs, map[], 0);
  }

  lemma TogetherVaguer(all: bool, worse: World, better: World, cs: seq<Cond>, acc: Trilean, acc': Trilean)
    requires WorseWorld(worse, better) && PlainAll(cs) && Vaguer(acc, acc')
    ensures Vaguer(Together(all, worse, cs, acc), Together(all, better, cs, acc'))
  {
    AllVaguer(worse, better, cs, map[], map[], 0, 0, acc, acc');
    AnyVaguer(worse, better, cs, map[], map[], 0, 0, acc, acc');
  }

  lemma LoopStep(all: bool, w: World, c: Cond, cs: seq<Cond>, ts: Timers, at: int, acc: Trilean)
    ensures var (v, ts') := Eval(w, c, ts, at);
      Loop(all, w, [c] + cs, ts, at, acc) ==
      if Decides(all, Joins(all, acc, v)) then (Joins(all, acc, v), ts') else Loop(all, w, cs, ts', at, Joins(all, acc, v))
  {
    assert ([c] + cs)[1..] == cs;
  }

  lemma TogetherStep(all: bool, w: World, c: Cond, cs: seq<Cond>, acc: Trilean)
    requires Plain(c)
    ensures Together(all, w, [c] + cs, acc) == Together(all, w, cs, Joins(all, acc, Says(w, c)))
  {
    assert Preview(w, c, map[], 0) == Says(w, c);
    assert ([c] + cs)[1..] == cs;
  }

  lemma {:induction false} PlainLoop(all: bool, w: World, cs: seq<Cond>, ts: Timers, at: int, acc: Trilean)
    requires PlainAll(cs) && CreditsHold(ts.live)
    ensures !Decides(all, acc) ==> Loop(all, w, cs, ts, at, acc) == (Together(all, w, cs, acc), ts)
    decreases cs
  {
    if cs != [] {
      assert cs == [cs[0]] + cs[1..];
      var acc' := Joins(all, acc, Says(w, cs[0]));
      SaysAlways(w, cs[0], ts, at);
      LoopStep(all, w, cs[0], cs[1..], ts, at, acc);
      TogetherStep(all, w, cs[0], cs[1..], acc);
      if Decides(all, acc') {
        DecidedStays(all, w, cs[1..], acc');
      }
      PlainLoop(all, w, cs[1..], ts, at, acc');
    }
  }

  /** The loop over plain conditions, a timer, and plain conditions again: the timer
      is sampled unless those before it decide. */
  lemma {:induction false} GuardedLoop(all: bool, w: World, ps: seq<Cond>, q: Cond, rs: seq<Cond>, ts: Timers, at: int, acc: Trilean)
    requires PlainAll(ps) && Timer(q) && PlainAll(rs) && CreditsHold(ts.live) && !Decides(all, acc)
    ensures var g := Together(all, w, ps, acc);
      var (v, ts') := ApplyDwell(ts, q, Says(w, q), Required(q).value, at);
      Loop(all, w, ps + [q] + rs, ts, at, acc) ==
      if Decides(all, g) then (g, ts) else (Together(all, w, rs, Joins(all, g, v)), ts')
    decreases ps
  {
    if ps == [] {
      assert ps + [q] + rs == [q] + rs;
      SaysAlways(w, q, ts, at);
      LoopStep(all, w, q, rs, ts, at, acc);
      var (v, ts') := ApplyDwell(ts, q, Says(w, q), Required(q).value, at);
      DwellKeepsCredits(w, q, ts, at);
      PlainLoop(all, w, rs, ts', at, Joins(all, acc, v));
      if Decides(all, Joins(all, acc, v)) {
        DecidedStays(all, w, rs, Joins(all, acc, v));
      }
    } else {
      var acc' := Joins(all, acc, Says(w, ps[0]));
      assert ps == [ps[0]] + ps[1..] && ps + [q] + rs == [ps[0]] + (ps[1..] + [q] + rs);
      SaysAlways(w, ps[0], ts, at);
      LoopStep(all, w, ps[0], ps[1..] + [q] + rs, ts, at, acc);
      TogetherStep(all, w, ps[0], ps[1..], acc);
      if Decides(all, acc') {
        DecidedStays(all, w, ps[1..], acc');
      } else {
        GuardedLoop(all, w, ps[1..], q, rs, ts, at, acc');
      }
    }
  }

  lemma DwellKeepsCredits(w: World, q: Cond, ts: Timers, at: int)
    requires Timer(q) && CreditsHold(ts.live)
    ensures CreditsHold(ApplyDwell(ts, q, Says(w, q), Required(q).value, at).1.live)
  {
    SaysAlways(w, q, ts, at);
    ExplainPreviewsEvaluate(w, q, ts, at);
  }

  /** `c` combines plain conditions, one timer `q`, and plain conditions again. */
  predicate Guarded(c: Cond, ps: seq<Cond>, q: Cond, rs: seq<Cond>) {
    && (Inferred(c).All? || Inferred(c).Any?) && Required(c).None?
    && c.conditions == ps + [q] + rs && PlainAll(ps) && Timer(q) && PlainAll(rs)
  }

  /** What the conditions before the timer come to. */
  function Guard(c: Cond, w: World, ps: seq<Cond>): Trilean {
    Together(Inferred(c).All?, w, ps, if Inferred(c).All? then True else False)
  }

  /** The whole, when the timer answers `v`. */
  function Whole(c: Cond, w: World, ps: seq<Cond>, rs: seq<Cond>, v: Trilean): Trilean {
    var g := Guard(c, w, ps);
    if Decides(Inferred(c).All?, g) then g else Together(Inferred(c).All?, w, rs, Joins(Inferred(c).All?, g, v))
  }

  predicate Samples(c: Cond, w: World, ps: seq<Cond>) {
    !Decides(Inferred(c).All?, Guard(c, w, ps))
  }

  lemma GuardedEval(c: Cond, w: World, ps: seq<Cond>, q: Cond, rs: seq<Cond>, ts: Timers, at: int)
    requires Guarded(c, ps, q, rs) && CreditsHold(ts.live)
    ensures var (v, ts') := ApplyDwell(ts, q, Says(w, q), Required(q).value, at);
      Eval(w, c, ts, at) == (Whole(c, w, ps, rs, v), if Samples(c, w, ps) then ts' else ts)
    ensures CreditsHold(Eval(w, c, ts, at).1.live)
  {
    GuardedLoop(Inferred(c).All?, w, ps, q, rs, ts, at, if Inferred(c).All? then True else False);
    DwellKeepsCredits(w, q, ts, at);
  }

  /** The conditions before the timer can be lost where they decide, while what it
      times holds: the loss starts the timer. */
  ghost predicate LossStarts(c: Cond, ps: seq<Cond>, q: Cond) {
    exists worse, better :: WorseWorld(worse, better) && StartedByLoss(c, ps, q, worse, better)
  }

  predicate StartedByLoss(c: Cond, ps: seq<Cond>, q: Cond, worse: World, better: World) {
    Samples(c, worse, ps) && !Samples(c, better, ps) && Says(worse, q).True?
  }

  /** The whole can hang on the timer. */
  ghost predicate TimerMatters(c: Cond, ps: seq<Cond>, q: Cond, rs: seq<Cond>) {
    exists w :: HangsOn(c, w, ps, q, rs)
  }

  predicate HangsOn(c: Cond, w: World, ps: seq<Cond>, q: Cond, rs: seq<Cond>) {
    Says(w, q).True? && Whole(c, w, ps, rs, True).True? && !Whole(c, w, ps, rs, False).True?
  }

  lemma {:induction false} TogetherFires(all: bool, worse: World, better: World, cs: seq<Cond>, acc: Trilean, acc': Trilean)
    requires WorseWorld(worse, better) && PlainAll(cs) && (acc.True? ==> acc'.True?)
    requires Together(all, worse, cs, acc).True?
    ensures Together(all, better, cs, acc').True?
    ensures all ==> acc.True?
    decreases cs
  {
    if cs != [] {
      assert cs == [cs[0]] + cs[1..];
      SaysVaguer(worse, better, cs[0]);
      TogetherStep(all, worse, cs[0], cs[1..], acc);
      TogetherStep(all, better, cs[0], cs[1..], acc');
      TogetherFires(all, worse, better, cs[1..], Joins(all, acc, Says(worse, cs[0])), Joins(all, acc', Says(better, cs[0])));
    }
  }

  /** The whole fires in the worse world only if it does in the better one, as long
      as the timer does. */
  lemma WholeFires(c: Cond, worse: World, better: World, ps: seq<Cond>, q: Cond, rs: seq<Cond>, v: Trilean, v': Trilean)
    requires Guarded(c, ps, q, rs) && WorseWorld(worse, better)
    requires Samples(c, worse, ps) && Samples(c, better, ps) && v.True? ==> v'.True?
    requires Whole(c, worse, ps, rs, v).True?
    ensures Whole(c, better, ps, rs, v').True?
  {
    var all := Inferred(c).All?;
    var g, g' := Guard(c, worse, ps), Guard(c, better, ps);
    TogetherVaguer(all, worse, better, ps, if all then True else False, if all then True else False);
    if Samples(c, worse, ps) && Samples(c, better, ps) {
      TogetherFires(all, worse, better, rs, Joins(all, g, v), Joins(all, g', v'));
    } else if Samples(c, worse, ps) && all {
      TogetherFires(all, worse, worse, rs, Joins(all, g, v), Joins(all, g, v));
    }
  }

  /** Neither history fires first for the want of a timer that matters. */
  lemma UnhungFires(c: Cond, worse: World, better: World, ps: seq<Cond>, q: Cond, rs: seq<Cond>, v: Trilean, v': Trilean)
    requires Guarded(c, ps, q, rs) && WorseWorld(worse, better) && !TimerMatters(c, ps, q, rs)
    requires Whole(c, worse, ps, rs, v).True? && (v.True? ==> Says(worse, q).True?)
    ensures Whole(c, better, ps, rs, v').True?
  {
    if v.True? {
      assert !HangsOn(c, worse, ps, q, rs);
      WholeFires(c, worse, better, ps, q, rs, False, v');
    } else {
      WholeFires(c, worse, better, ps, q, rs, v, v');
    }
  }

  /** One tick of the one timer, when a loss cannot start it. */
  lemma GuardedTick(c: Cond, t: Tick, ps: seq<Cond>, q: Cond, rs: seq<Cond>, y: Timers, x: Timers, before: int)
    requires Guarded(c, ps, q, rs) && WorseWorld(t.worse, t.better) && before <= t.at
    requires CreditsHold(y.live) && CreditsHold(x.live) && y.attached == x.attached
    requires !StartedByLoss(c, ps, q, t.worse, t.better) && Behind(CellOf(y, q), CellOf(x, q), before)
    ensures var r, r' := Eval(t.worse, c, y, t.at), Eval(t.better, c, x, t.at);
      && r.1.attached == r'.1.attached && Behind(CellOf(r.1, q), CellOf(r'.1, q), t.at)
      && (r.0.True? ==> r'.0.True?)
  {
    var d, v, v' := Required(q).value, Says(t.worse, q), Says(t.better, q);
    GuardedEval(c, t.worse, ps, q, rs, y, t.at);
    GuardedEval(c, t.better, ps, q, rs, x, t.at);
    SaysVaguer(t.worse, t.better, q);
    TogetherVaguer(Inferred(c).All?, t.worse, t.better, ps, if Inferred(c).All? then True else False,
                   if Inferred(c).All? then True else False);
    CellAfterDwell(y, q, v, d, t.at);
    CellAfterDwell(x, q, v', d, t.at);
    ObserveStaysBehind(CellOf(y, q), CellOf(x, q), y.attached, v, v', d, before, t.at);
    var a, a' := ApplyDwell(y, q, v, d, t.at).0, ApplyDwell(x, q, v', d, t.at).0;
    if Eval(t.worse, c, y, t.at).0.True? {
      WholeFires(c, t.worse, t.better, ps, q, rs, a, a');
    }
  }

  /** One tick when the timer does not matter or asks for no time. */
  lemma TimelessTick(c: Cond, t: Tick, ps: seq<Cond>, q: Cond, rs: seq<Cond>, y: Timers, x: Timers)
    requires Guarded(c, ps, q, rs) && WorseWorld(t.worse, t.better) && CreditsHold(y.live) && CreditsHold(x.live)
    requires Required(q).value <= 0 || !TimerMatters(c, ps, q, rs)
    requires Eval(t.worse, c, y, t.at).0.True?
    ensures Eval(t.better, c, x, t.at).0.True?
  {
    var d, v, v' := Required(q).value, Says(t.worse, q), Says(t.better, q);
    GuardedEval(c, t.worse, ps, q, rs, y, t.at);
    GuardedEval(c, t.better, ps, q, rs, x, t.at);
    SaysVaguer(t.worse, t.better, q);
    CellAfterDwell(y, q, v, d, t.at);
    CellAfterDwell(x, q, v', d, t.at);
    var a, a' := ApplyDwell(y, q, v, d, t.at).0, ApplyDwell(x, q, v', d, t.at).0;
    if d <= 0 {
      WholeFires(c, t.worse, t.better, ps, q, rs, a, a');
    } else {
      UnhungFires(c, t.worse, t.better, ps, q, rs, a, a');
    }
  }

  lemma {:induction false} GuardedCredits(c: Cond, ps: seq<Cond>, q: Cond, rs: seq<Cond>, ticks: seq<Tick>, lossy: bool, ts: Timers)
    requires Guarded(c, ps, q, rs) && CreditsHold(ts.live)
    ensures CreditsHold(Watch(c, ticks, lossy, ts).live)
  {
    if ticks != [] {
      var t := ticks[|ticks| - 1];
      GuardedCredits(c, ps, q, rs, ticks[..|ticks| - 1], lossy, ts);
      GuardedEval(c, if lossy then t.worse else t.better, ps, q, rs, Watch(c, ticks[..|ticks| - 1], lossy, ts), t.at);
    }
  }

  lemma {:induction false} GuardedBehind(c: Cond, ps: seq<Cond>, q: Cond, rs: seq<Cond>, ticks: seq<Tick>, ts: Timers)
    requires Guarded(c, ps, q, rs) && Ticks(ticks) && ticks != [] && StartsClean(ts, ticks[0].at) && !LossStarts(c, ps, q)
    ensures var y, x := Watch(c, ticks, true, ts), Watch(c, ticks, false, ts);
      y.attached == x.attached && Behind(CellOf(y, q), CellOf(x, q), ticks[|ticks| - 1].at)
    ensures Verdict(c, ticks, true, ts).True? ==> Verdict(c, ticks, false, ts).True?
  {
    var t, earlier := ticks[|ticks| - 1], ticks[..|ticks| - 1];
    var y, x := Watch(c, earlier, true, ts), Watch(c, earlier, false, ts);
    if earlier != [] {
      GuardedBehind(c, ps, q, rs, earlier, ts);
    }
    GuardedCredits(c, ps, q, rs, earlier, true, ts);
    GuardedCredits(c, ps, q, rs, earlier, false, ts);
    assert !StartedByLoss(c, ps, q, t.worse, t.better);
    GuardedTick(c, t, ps, q, rs, y, x, if earlier == [] then t.at else earlier[|earlier| - 1].at);
  }

  lemma TwoTicks(c: Cond, t1: Tick, t2: Tick, lossy: bool, ts: Timers)
    ensures var ts1 := Eval(if lossy then t1.worse else t1.better, c, ts, t1.at).1;
      Verdict(c, [t1, t2], lossy, ts) == Eval(if lossy then t2.worse else t2.better, c, ts1, t2.at).0
  {
    assert [t1, t2][..1] == [t1] && [t1][..0] == [];
    assert Watch(c, [], lossy, ts) == ts;
    assert Watch(c, [t1], lossy, ts) == Eval(if lossy then t1.worse else t1.better, c, ts, t1.at).1;
  }

  const NO_TIMERS := Timers(map[], map[], false)

  lemma FreshTimer(q: Cond, d: int, start: int, at: int)
    requires d > 0
    ensures ApplyDwell(NO_TIMERS, q, True, d, at).0.False?
    ensures start + d <= at ==> ApplyDwell(ApplyDwell(NO_TIMERS, q, True, d, start).1, q, True, d, at).0.True?
  {
  }

  /** The loss starts the timer, the sensors come back, and one requirement later
      only the lossy history fires. */
  lemma LossFires(c: Cond, ps: seq<Cond>, q: Cond, rs: seq<Cond>, worse: World, better: World, w: World) returns (ticks: seq<Tick>)
    requires Guarded(c, ps, q, rs) && Required(q).value > 0
    requires WorseWorld(worse, better) && StartedByLoss(c, ps, q, worse, better) && HangsOn(c, w, ps, q, rs)
    ensures Ticks(ticks) && ticks != []
    ensures Verdict(c, ticks, true, NO_TIMERS).True? && !Verdict(c, ticks, false, NO_TIMERS).True?
  {
    var d := Required(q).value;
    var t1, t2 := Tick(better, worse, 0), Tick(w, w, d);
    ticks := [t1, t2];
    var started := ApplyDwell(NO_TIMERS, q, True, d, 0).1;
    GuardedEval(c, worse, ps, q, rs, NO_TIMERS, 0);
    GuardedEval(c, better, ps, q, rs, NO_TIMERS, 0);
    GuardedEval(c, w, ps, q, rs, started, d);
    GuardedEval(c, w, ps, q, rs, NO_TIMERS, d);
    FreshTimer(q, d, 0, d);
    TwoTicks(c, t1, t2, true, NO_TIMERS);
    TwoTicks(c, t1, t2, false, NO_TIMERS);
  }

  /** Plain conditions and one timer under and/or: losing sensors can fire it
      exactly when the timer asks for time, the conditions before it can be lost
      where they decide while what it times holds, and the whole can hang on it. */
  lemma GuardedTimerExactly(c: Cond, ps: seq<Cond>, q: Cond, rs: seq<Cond>)
    requires Guarded(c, ps, q, rs)
    ensures NeverFiredByLoss(c) <==> !(Required(q).value > 0 && LossStarts(c, ps, q) && TimerMatters(c, ps, q, rs))
  {
    if Required(q).value > 0 && LossStarts(c, ps, q) && TimerMatters(c, ps, q, rs) {
      var worse, better :| WorseWorld(worse, better) && StartedByLoss(c, ps, q, worse, better);
      var w :| HangsOn(c, w, ps, q, rs);
      var ticks := LossFires(c, ps, q, rs, worse, better, w);
      assert StartsClean(NO_TIMERS, ticks[0].at);
    } else {
      forall ticks: seq<Tick>, ts | Ticks(ticks) && ticks != [] && StartsClean(ts, ticks[0].at) && Verdict(c, ticks, true, ts).True?
        ensures Verdict(c, ticks, false, ts).True?
      {
        if LossStarts(c, ps, q) {
          var t, earlier := ticks[|ticks| - 1], ticks[..|ticks| - 1];
          GuardedCredits(c, ps, q, rs, earlier, true, ts);
          GuardedCredits(c, ps, q, rs, earlier, false, ts);
          TimelessTick(c, t, ps, q, rs, Watch(c, earlier, true, ts), Watch(c, earlier, false, ts));
        } else {
          GuardedBehind(c, ps, q, rs, ticks, ts);
        }
      }
    }
  }

  // ---------------------------------------------------------------------
  // A negated timer, likewise.

  predicate Negated(c: Cond, q: Cond) {
    Inferred(c).Negation? && Required(c).None? && c.conditions != [] && c.conditions[0] == q && Timer(q)
  }

  lemma NegatedEval(c: Cond, w: World, q: Cond, ts: Timers, at: int)
    requires Negated(c, q) && CreditsHold(ts.live)
    ensures var (v, ts') := ApplyDwell(ts, q, Says(w, q), Required(q).value, at);
      Eval(w, c, ts, at) == (Not(v), ts') && CreditsHold(ts'.live)
  {
    SaysAlways(w, q, ts, at);
    DwellKeepsCredits(w, q, ts, at);
  }

  /** What the timer times can be lost while it holds. */
  ghost predicate CanBeLost(q: Cond) {
    exists worse, better :: WorseWorld(worse, better) && LostWhileTrue(q, worse, better)
  }

  predicate LostWhileTrue(q: Cond, worse: World, better: World) {
    Says(better, q).True? && !Says(worse, q).True?
  }

  lemma NegatedTick(c: Cond, t: Tick, q: Cond, y: Timers, x: Timers, before: int)
    requires Negated(c, q) && WorseWorld(t.worse, t.better) && before <= t.at
    requires CreditsHold(y.live) && CreditsHold(x.live) && y.attached == x.attached
    requires !LostWhileTrue(q, t.worse, t.better) && Behind(CellOf(x, q), CellOf(y, q), before)
    ensures var r, r' := Eval(t.worse, c, y, t.at), Eval(t.better, c, x, t.at);
      && r.1.attached == r'.1.attached && Behind(CellOf(r'.1, q), CellOf(r.1, q), t.at)
      && (r.0.True? ==> r'.0.True?)
  {
    var d, v, v' := Required(q).value, Says(t.worse, q), Says(t.better, q);
    NegatedEval(c, t.worse, q, y, t.at);
    NegatedEval(c, t.better, q, x, t.at);
    SaysVaguer(t.worse, t.better, q);
    CellAfterDwell(y, q, v, d, t.at);
    CellAfterDwell(x, q, v', d, t.at);
    ObserveStaysBehind(CellOf(x, q), CellOf(y, q), x.attached, v', v, d, before, t.at);
  }

  lemma {:induction false} NegatedCredits(c: Cond, q: Cond, ticks: seq<Tick>, lossy: bool, ts: Timers)
    requires Negated(c, q) && CreditsHold(ts.live)
    ensures CreditsHold(Watch(c, ticks, lossy, ts).live)
  {
    if ticks != [] {
      var t := ticks[|ticks| - 1];
      NegatedCredits(c, q, ticks[..|ticks| - 1], lossy, ts);
      NegatedEval(c, if lossy then t.worse else t.better, q, Watch(c, ticks[..|ticks| - 1], lossy, ts), t.at);
    }
  }

  lemma {:induction false} NegatedBehind(c: Cond, q: Cond, ticks: seq<Tick>, ts: Timers)
    requires Negated(c, q) && Ticks(ticks) && ticks != [] && StartsClean(ts, ticks[0].at) && !CanBeLost(q)
    ensures var y, x := Watch(c, ticks, true, ts), Watch(c, ticks, false, ts);
      y.attached == x.attached && Behind(CellOf(x, q), CellOf(y, q), ticks[|ticks| - 1].at)
    ensures Verdict(c, ticks, true, ts).True? ==> Verdict(c, ticks, false, ts).True?
  {
    var t, earlier := ticks[|ticks| - 1], ticks[..|ticks| - 1];
    var y, x := Watch(c, earlier, true, ts), Watch(c, earlier, false, ts);
    if earlier != [] {
      NegatedBehind(c, q, earlier, ts);
    }
    NegatedCredits(c, q, earlier, true, ts);
    NegatedCredits(c, q, earlier, false, ts);
    assert !LostWhileTrue(q, t.worse, t.better);
    NegatedTick(c, t, q, y, x, if earlier == [] then t.at else earlier[|earlier| - 1].at);
  }

  lemma TimelessNegatedTick(c: Cond, t: Tick, q: Cond, y: Timers, x: Timers)
    requires Negated(c, q) && WorseWorld(t.worse, t.better) && CreditsHold(y.live) && CreditsHold(x.live)
    requires Required(q).value <= 0 && Eval(t.worse, c, y, t.at).0.True?
    ensures Eval(t.better, c, x, t.at).0.True?
  {
    NegatedEval(c, t.worse, q, y, t.at);
    NegatedEval(c, t.better, q, x, t.at);
    SaysVaguer(t.worse, t.better, q);
    CellAfterDwell(y, q, Says(t.worse, q), Required(q).value, t.at);
    CellAfterDwell(x, q, Says(t.better, q), Required(q).value, t.at);
  }

  /** What is timed holds but is lost at first: one requirement later it has not
      held long enough in the lossy history, and its negation fires there. */
  lemma LossFiresNegation(c: Cond, q: Cond, worse: World, better: World) returns (ticks: seq<Tick>)
    requires Negated(c, q) && Required(q).value > 0 && WorseWorld(worse, better) && LostWhileTrue(q, worse, better)
    ensures Ticks(ticks) && ticks != []
    ensures Verdict(c, ticks, true, NO_TIMERS).True? && !Verdict(c, ticks, false, NO_TIMERS).True?
  {
    var d := Required(q).value;
    var t1, t2 := Tick(better, worse, 0), Tick(better, better, d);
    ticks := [t1, t2];
    NegatedEval(c, worse, q, NO_TIMERS, 0);
    NegatedEval(c, better, q, NO_TIMERS, 0);
    NegatedEval(c, better, q, ApplyDwell(NO_TIMERS, q, Says(worse, q), d, 0).1, d);
    NegatedEval(c, better, q, ApplyDwell(NO_TIMERS, q, True, d, 0).1, d);
    FreshTimer(q, d, 0, d);
    TwoTicks(c, t1, t2, true, NO_TIMERS);
    TwoTicks(c, t1, t2, false, NO_TIMERS);
  }

  /** The negation of a timer: losing sensors can fire it exactly when the timer
      asks for time and what it times can be lost while it holds. */
  lemma NegatedTimerExactly(c: Cond, q: Cond)
    requires Negated(c, q)
    ensures NeverFiredByLoss(c) <==> !(Required(q).value > 0 && CanBeLost(q))
  {
    if Required(q).value > 0 && CanBeLost(q) {
      var worse, better :| WorseWorld(worse, better) && LostWhileTrue(q, worse, better);
      var ticks := LossFiresNegation(c, q, worse, better);
      assert StartsClean(NO_TIMERS, ticks[0].at);
    } else {
      forall ticks: seq<Tick>, ts | Ticks(ticks) && ticks != [] && StartsClean(ts, ticks[0].at) && Verdict(c, ticks, true, ts).True?
        ensures Verdict(c, ticks, false, ts).True?
      {
        if CanBeLost(q) {
          var t, earlier := ticks[|ticks| - 1], ticks[..|ticks| - 1];
          NegatedCredits(c, q, earlier, true, ts);
          NegatedCredits(c, q, earlier, false, ts);
          TimelessNegatedTick(c, t, q, Watch(c, earlier, true, ts), Watch(c, earlier, false, ts));
        } else {
          NegatedBehind(c, q, ticks, ts);
        }
      }
    }
  }

  // ---------------------------------------------------------------------
  // Concrete conditions that a loss fires.

  function Leaf(fact: string, dwell: Dwell): Cond {
    Cond(Numeric, fact, Some(0.0), None, None, "", "", [], "", "", dwell, [])
  }

  function Joined(kind: Kind, cs: seq<Cond>): Cond {
    Cond(kind, "", None, None, None, "", "", [], "", "", NoDwell, cs)
  }

  const MAINS := Leaf("mains", NoDwell)
  const LOW := Leaf("low", For("5s", Some(5 * SECOND)))

  function Gauge(level: Option<real>): Fact {
    if level.Some? then Fact(Num(level.value), Good, 0) else Fact(Num(1.0), Stale, 0)
  }

  const SHOW: Value -> string := v => ""
  const TEMPLATE: (string, int) -> Trilean := (e, at) => Unavailable

  /** Two facts, either of them possibly lost. */
  function Seen(mains: Option<real>, low: Option<real>): World {
    World(Readings(map["mains" := Gauge(mains), "low" := Gauge(low)], map[]), SHOW, TEMPLATE)
  }

  function Sees(level: Option<real>): Trilean {
    if level.None? then Unavailable else FromBool(level.value > 0.0)
  }

  lemma LeafSays(mains: Option<real>, low: Option<real>)
    ensures Says(Seen(mains, low), MAINS) == Sees(mains) && Says(Seen(mains, low), LOW) == Sees(low)
  {
    var w := Seen(mains, low);
    assert Read(w.readings, "mains") == Gauge(mains) && Read(w.readings, "low") == Gauge(low);
  }

  lemma PairSays(all: bool, mains: Option<real>, low: Option<real>, v: Trilean)
    ensures var c := Joined(if all then All else Any, [MAINS, LOW]);
      && Guard(c, Seen(mains, low), [MAINS]) == Sees(mains)
      && Whole(c, Seen(mains, low), [MAINS], [], v) == if Decides(all, Sees(mains)) then Sees(mains) else Joins(all, Sees(mains), v)
  {
    LeafSays(mains, low);
    assert [MAINS] + [] == [MAINS];
    TogetherStep(all, Seen(mains, low), MAINS, [], if all then True else False);
  }

  /** A timer behind another condition: while that one decides, the timer is not
      sampled; lose it, and the timer starts. */
  lemma LossStartsLaterTimer(all: bool) returns (ticks: seq<Tick>)
    ensures Ticks(ticks) && ticks != []
    ensures var c := Joined(if all then All else Any, [MAINS, LOW]);
      Verdict(c, ticks, true, NO_TIMERS).True? && !Verdict(c, ticks, false, NO_TIMERS).True?
  {
    var c := Joined(if all then All else Any, [MAINS, LOW]);
    var deciding, other := if all then Some(0.0) else Some(1.0), if all then Some(1.0) else Some(0.0);
    assert [MAINS, LOW] == [MAINS] + [LOW] + [];
    LeafSays(None, Some(1.0));
    LeafSays(other, Some(1.0));
    PairSays(all, None, Some(1.0), True);
    PairSays(all, deciding, Some(1.0), True);
    PairSays(all, other, Some(1.0), True);
    PairSays(all, other, Some(1.0), False);
    ticks := LossFires(c, [MAINS], LOW, [], Seen(None, Some(1.0)), Seen(deciding, Some(1.0)), Seen(other, Some(1.0)));
  }

  /** A negated timer: lost for a moment, it starts over, and its negation fires. */
  lemma LossUndoesNegatedTimer() returns (ticks: seq<Tick>)
    ensures Ticks(ticks) && ticks != []
    ensures var c := Joined(Negation, [LOW]);
      Verdict(c, ticks, true, NO_TIMERS).True? && !Verdict(c, ticks, false, NO_TIMERS).True?
  {
    LeafSays(None, Some(1.0));
    LeafSays(None, None);
    ticks := LossFiresNegation(Joined(Negation, [LOW]), LOW, Seen(None, None), Seen(None, Some(1.0)));
  }
}

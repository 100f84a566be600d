/** Explain previews Evaluate: at one instant they give the same answer for
    every tree, and neither changes what the other would say next. */
module Explaining {
  import opened Facts
  import opened Conditions

  /** No timer holds negative credit. */
  ghost predicate CreditsHold(live: map<Cond, Tracker>) {
    forall c | c in live :: live[c].credited >= 0
  }

  // ---------------------------------------------------------------------
  // Folding past an absorbing value changes nothing.

  lemma {:induction false} FalseAbsorbs(w: World, cs: seq<Cond>, live: map<Cond, Tracker>, now: int)
    ensures PreviewAll(w, cs, live, now, False) == False
  {
    if cs != [] {
      FalseAbsorbs(w, cs[1..], live, now);
    }
  }

  lemma {:induction false} TrueAbsorbs(w: World, cs: seq<Cond>, live: map<Cond, Tracker>, now: int)
    ensures PreviewAny(w, cs, live, now, True) == True
  {
    if cs != [] {
      TrueAbsorbs(w, cs[1..], live, now);
    }
  }

  // ---------------------------------------------------------------------
  // Timers that read alike.

  /** At `now`, replacing timer `c` alone goes unnoticed by Explain. */
  ghost predicate Unnoticed(w: World, live: map<Cond, Tracker>, live': map<Cond, Tracker>, c: Cond, now: int) {
    && (forall k | k != c :: (k in live <==> k in live') && (k in live ==> live[k] == live'[k]))
    && (PreviewInstant(w, c, live, now).True? && c.dwell.For? && c.dwell.parsed.Some? && c.dwell.parsed.value > 0 ==>
        ((c in live && Elapsed(live[c], now) >= c.dwell.parsed.value) <==>
         (c in live' && Elapsed(live'[c], now) >= c.dwell.parsed.value)))
  }

  lemma {:induction false} PreviewUnmoved(w: World, k: Cond, live: map<Cond, Tracker>, live': map<Cond, Tracker>, c: Cond, now: int)
    requires Unnoticed(w, live, live', c, now)
    ensures Preview(w, k, live, now) == Preview(w, k, live', now)
    ensures PreviewInstant(w, k, live, now) == PreviewInstant(w, k, live', now)
    decreases k, 1
  {
    match Inferred(k)
    case All => PreviewAllUnmoved(w, k.conditions, live, live', c, now, True);
    case Any => PreviewAnyUnmoved(w, k.conditions, live, live', c, now, False);
    case Negation =>
      if k.conditions != [] {
        PreviewUnmoved(w, k.conditions[0], live, live', c, now);
      }
    case _ =>
  }

  lemma {:induction false} PreviewAllUnmoved(w: World, cs: seq<Cond>, live: map<Cond, Tracker>, live': map<Cond, Tracker>,
                                             c: Cond, now: int, acc: Trilean)
    requires Unnoticed(w, live, live', c, now)
    ensures PreviewAll(w, cs, live, now, acc) == PreviewAll(w, cs, live', now, acc)
    decreases cs, 0
  {
    if cs != [] {
      PreviewUnmoved(w, cs[0], live, live', c, now);
      PreviewAllUnmoved(w, cs[1..], live, live', c, now, And(acc, Preview(w, cs[0], live, now)));
    }
  }

  lemma {:induction false} PreviewAnyUnmoved(w: World, cs: seq<Cond>, live: map<Cond, Tracker>, live': map<Cond, Tracker>,
                                             c: Cond, now: int, acc: Trilean)
    requires Unnoticed(w, live, live', c, now)
    ensures PreviewAny(w, cs, live, now, acc) == PreviewAny(w, cs, live', now, acc)
    decreases cs, 0
  {
    if cs != [] {
      PreviewUnmoved(w, cs[0], live, live', c, now);
      PreviewAnyUnmoved(w, cs[1..], live, live', c, now, Or(acc, Preview(w, cs[0], live, now)));
    }
  }

  // ---------------------------------------------------------------------
  // One timer step at `now`.

  /** applyDwell answers what Explain would, and leaves the timer reading the same. */
  lemma ApplyDwellPreviewed(w: World, c: Cond, ts: Timers, now: int)
    requires CreditsHold(ts.live) && Required(c).Some?
    ensures var r := ApplyDwell(ts, c, PreviewInstant(w, c, ts.live, now), Required(c).value, now);
      && r.0 == Preview(w, c, ts.live, now)
      && CreditsHold(r.1.live)
      && Unnoticed(w, ts.live, r.1.live, c, now)
  {
  }

  /** Everything Explain can say at `now` is the same under both sets of timers. */
  ghost predicate SameNow(w: World, live: map<Cond, Tracker>, live': map<Cond, Tracker>, now: int) {
    forall k :: Preview(w, k, live, now) == Preview(w, k, live', now)
             && PreviewInstant(w, k, live, now) == PreviewInstant(w, k, live', now)
  }

  lemma DwellLeavesSame(w: World, c: Cond, ts: Timers, now: int)
    requires CreditsHold(ts.live) && Required(c).Some?
    ensures var r := ApplyDwell(ts, c, PreviewInstant(w, c, ts.live, now), Required(c).value, now);
      SameNow(w, ts.live, r.1.live, now)
  {
    var r := ApplyDwell(ts, c, PreviewInstant(w, c, ts.live, now), Required(c).value, now);
    ApplyDwellPreviewed(w, c, ts, now);
    forall k ensures Preview(w, k, ts.live, now) == Preview(w, k, r.1.live, now)
             && PreviewInstant(w, k, ts.live, now) == PreviewInstant(w, k, r.1.live, now)
    {
      PreviewUnmoved(w, k, ts.live, r.1.live, c, now);
    }
  }

  // ---------------------------------------------------------------------
  // The whole evaluator.

  /** Explain's result is exactly what Evaluate would return at that instant, and
      after Evaluate has run every condition still explains the same way. */
  lemma {:induction false} ExplainPreviewsEvaluate(w: World, c: Cond, ts: Timers, now: int)
    requires CreditsHold(ts.live)
    ensures var r := Eval(w, c, ts, now);
      && r.0 == Preview(w, c, ts.live, now)
      && CreditsHold(r.1.live)
      && SameNow(w, ts.live, r.1.live, now)
    decreases c, 1
  {
    InnerPreviewed(w, c, ts, now);
    if Required(c).Some? {
      var (v, ts') := EvalInner(w, c, ts, now);
      ApplyDwellPreviewed(w, c, ts', now);
      DwellLeavesSame(w, c, ts', now);
    }
  }

  lemma {:induction false} InnerPreviewed(w: World, c: Cond, ts: Timers, now: int)
    requires CreditsHold(ts.live)
    ensures var r := EvalInner(w, c, ts, now);
      && r.0 == PreviewInstant(w, c, ts.live, now)
      && CreditsHold(r.1.live)
      && SameNow(w, ts.live, r.1.live, now)
    decreases c, 0
  {
    match Inferred(c)
    case All => AllPreviewed(w, c.conditions, ts, now, True);
    case Any => AnyPreviewed(w, c.conditions, ts, now, False);
    case Negation =>
      if c.conditions != [] {
        ExplainPreviewsEvaluate(w, c.conditions[0], ts, now);
      }
    case _ =>
  }

  lemma {:induction false} AllPreviewed(w: World, cs: seq<Cond>, ts: Timers, now: int, acc: Trilean)
    requires CreditsHold(ts.live)
    ensures var r := EvalAll(w, cs, ts, now, acc);
      && r.0 == PreviewAll(w, cs, ts.live, now, acc)
      && CreditsHold(r.1.live)
      && SameNow(w, ts.live, r.1.live, now)
    decreases cs
  {
    if cs != [] {
      var (v, ts') := Eval(w, cs[0], ts, now);
      var acc' := And(acc, v);
      ExplainPreviewsEvaluate(w, cs[0], ts, now);
      if acc'.False? {
        FalseAbsorbs(w, cs[1..], ts.live, now);
      } else {
        AllPreviewed(w, cs[1..], ts', now, acc');
        AllSame(w, cs[1..], ts.live, ts'.live, now, acc');
      }
    }
  }

  lemma {:induction false} AnyPreviewed(w: World, cs: seq<Cond>, ts: Timers, now: int, acc: Trilean)
    requires CreditsHold(ts.live)
    ensures var r := EvalAny(w, cs, ts, now, acc);
      && r.0 == PreviewAny(w, cs, ts.live, now, acc)
      && CreditsHold(r.1.live)
      && SameNow(w, ts.live, r.1.live, now)
    decreases cs
  {
    if cs != [] {
      var (v, ts') := Eval(w, cs[0], ts, now);
      var acc' := Or(acc, v);
      ExplainPreviewsEvaluate(w, cs[0], ts, now);
      if acc'.True? {
        TrueAbsorbs(w, cs[1..], ts.live, now);
      } else {
        AnyPreviewed(w, cs[1..], ts', now, acc');
        AnySame(w, cs[1..], ts.live, ts'.live, now, acc');
      }
    }
  }

  lemma {:induction false} AllSame(w: World, cs: seq<Cond>, live: map<Cond, Tracker>, live': map<Cond, Tracker>, now: int, acc: Trilean)
    requires SameNow(w, live, live', now)
    ensures PreviewAll(w, cs, live, now, acc) == PreviewAll(w, cs, live', now, acc)
  {
    if cs != [] {
      AllSame(w, cs[1..], live, live', now, And(acc, Preview(w, cs[0], live, now)));
    }
  }

  lemma {:induction false} AnySame(w: World, cs: seq<Cond>, live: map<Cond, Tracker>, live': map<Cond, Tracker>, now: int, acc: Trilean)
    requires SameNow(w, live, live', now)
    ensures PreviewAny(w, cs, live, now, acc) == PreviewAny(w, cs, live', now, acc)
  {
    if cs != [] {
      AnySame(w, cs[1..], live, live', now, Or(acc, Preview(w, cs[0], live, now)));
    }
  }

  /** Evaluating twice at one instant answers twice the same. */
  lemma EvaluateTwice(w: World, c: Cond, ts: Timers, now: int)
    requires CreditsHold(ts.live)
    ensures Eval(w, c, Eval(w, c, ts, now).1, now).0 == Eval(w, c, ts, now).0
  {
    ExplainPreviewsEvaluate(w, c, ts, now);
    ExplainPreviewsEvaluate(w, c, Eval(w, c, ts, now).1, now);
  }
}

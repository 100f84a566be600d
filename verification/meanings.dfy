/** What conditions mean, said without the evaluator: leaves over one reading, and
    trees over the answers of their parts. */
module Meanings {
  import opened Options
  import opened Facts
  import opened Conditions
  import opened Explaining

  /** No `for:` that Evaluate would act on. */
  predicate Untimed(c: Cond) {
    c.dwell.NoDwell? || c.dwell.parsed == None || c.dwell.parsed == Some(0)
  }

  /** The number a fact can be relied on for. */
  predicate GoodNumber(w: World, c: Cond, n: real) {
    c.fact in w.readings.facts && w.readings.facts[c.fact].quality == Good && w.readings.facts[c.fact].value == Num(n)
  }

  /** A fact with a value that can be relied on. */
  predicate GoodValue(w: World, c: Cond, v: Value) {
    c.fact in w.readings.facts && w.readings.facts[c.fact].quality == Good && w.readings.facts[c.fact].value == v && v != Nil
  }

  predicate NumericHolds(c: Cond, n: real) {
    && (c.above.Some? ==> n > c.above.value)
    && (c.below.Some? ==> n < c.below.value)
    && (c.equals.Some? ==> c.equals.value == Num(n))
  }

  /** A numeric condition is True exactly on a good number above, below and equal
      to what it asks for; it is Unavailable exactly without a good number, or when
      the bounds hold and it asks for equality with something that is no number. */
  lemma NumericExactly(w: World, c: Cond, ts: Timers, now: int)
    requires Inferred(c).Numeric? && Untimed(c)
    ensures Eval(w, c, ts, now).1 == ts
    ensures Eval(w, c, ts, now).0.True? <==> exists n :: GoodNumber(w, c, n) && NumericHolds(c, n)
    ensures Eval(w, c, ts, now).0.Unavailable? <==>
      || (forall n :: !GoodNumber(w, c, n))
      || (c.equals.Some? && !c.equals.value.Num? && exists n :: GoodNumber(w, c, n) && NumericHolds(c.(equals := None), n))
  {
    var f := Read(w.readings, c.fact);
    if f.quality.Good? && f.value.Num? {
      assert GoodNumber(w, c, f.value.n);
      assert NumericHolds(c, f.value.n) ==> Eval(w, c, ts, now).0.True?;
      assert forall n :: GoodNumber(w, c, n) ==> n == f.value.n;
    } else {
      assert forall n :: !GoodNumber(w, c, n);
    }
  }

  /** `part` is in the value: a member of a list, or a stretch of a text. */
  ghost predicate Contains(v: Value, part: string) {
    match v
    case Words(ws) => exists i | 0 <= i < |ws| :: ws[i] == part
    case Items(items) => exists i | 0 <= i < |items| :: items[i] == Some(part)
    case Text(s) => exists before, after :: s == before + part + after
    case _ => false
  }

  predicate Listable(v: Value) {
    v.Words? || v.Items? || v.Text?
  }

  lemma OccursIsContains(part: string, s: string)
    ensures Occurs(part, s) <==> Contains(Text(s), part)
  {
    if Occurs(part, s) {
      var i :| 0 <= i <= |s| && part <= s[i..];
      assert s == s[..i] + part + s[i + |part|..];
    }
    if before, after :| s == before + part + after {
      assert part <= s[|before|..];
    }
  }

  /** `contains:` is True exactly when a good list or text contains what it names,
      and Unavailable exactly without a good value of such a kind. */
  lemma ContainsExactly(w: World, c: Cond, ts: Timers, now: int)
    requires Inferred(c).State? && Untimed(c) && c.contains != ""
    ensures Eval(w, c, ts, now).1 == ts
    ensures Eval(w, c, ts, now).0.True? <==> exists v :: GoodValue(w, c, v) && Contains(v, c.contains)
    ensures Eval(w, c, ts, now).0.Unavailable? <==> forall v | GoodValue(w, c, v) :: !Listable(v)
  {
    var f := Read(w.readings, c.fact);
    if f.quality.Good? && !f.value.Nil? {
      assert GoodValue(w, c, f.value);
      assert forall v :: GoodValue(w, c, v) ==> v == f.value;
      if f.value.Text? {
        OccursIsContains(c.contains, f.value.s);
      }
    } else {
      assert forall v :: !GoodValue(w, c, v);
    }
  }

  /** What `is:`, `is_not:` and `in:`, in that order of precedence, ask of how the
      value prints. */
  predicate ShownHolds(c: Cond, shown: string) {
    if c.is_ != "" then shown == c.is_
    else if c.isNot != "" then shown != c.isNot
    else exists i | 0 <= i < |c.oneOf| :: c.oneOf[i] == shown
  }

  /** The other forms of a state condition are True exactly when the printed good
      value is, is not, or is among what they name; they are Unavailable exactly
      without a good value, or when they name nothing. */
  lemma ShownExactly(w: World, c: Cond, ts: Timers, now: int)
    requires Inferred(c).State? && Untimed(c) && c.contains == ""
    ensures Eval(w, c, ts, now).1 == ts
    ensures Eval(w, c, ts, now).0.True? <==> exists v :: GoodValue(w, c, v) && ShownHolds(c, w.show(v))
    ensures Eval(w, c, ts, now).0.Unavailable? <==>
      (forall v :: !GoodValue(w, c, v)) || (c.is_ == "" && c.isNot == "" && c.oneOf == [])
  {
    var f := Read(w.readings, c.fact);
    if f.quality.Good? && !f.value.Nil? {
      assert GoodValue(w, c, f.value);
      assert forall v :: GoodValue(w, c, v) ==> v == f.value;
    } else {
      assert forall v :: !GoodValue(w, c, v);
    }
  }

  /** What a condition is, where it does not say: a template if it has a value, else
      a comparison if it has a fact and a bound, else a state if it has a fact, else
      always True. The constants and what is not recognised answer by themselves. */
  lemma KindsAreInferred(w: World, c: Cond, ts: Timers, now: int)
    requires Untimed(c)
    ensures c.kind == Unspecified && c.value != "" ==> Eval(w, c, ts, now) == (w.template(c.value, now), ts)
    ensures c.kind == Unspecified && c.value == "" && c.fact != "" ==>
      if c.above != None || c.below != None || c.equals != None then Inferred(c) == Numeric else Inferred(c) == State
    ensures c.kind == Unspecified && c.value == "" && c.fact == "" ==> Eval(w, c, ts, now) == (True, ts)
    ensures c.kind != Unspecified ==> Inferred(c) == c.kind
    ensures c.kind == Always ==> Eval(w, c, ts, now) == (True, ts)
    ensures c.kind == Never ==> Eval(w, c, ts, now) == (False, ts)
    ensures c.kind.Unrecognised? ==> Eval(w, c, ts, now) == (Unavailable, ts)
    ensures c.kind == Template ==> Eval(w, c, ts, now) == (if c.value == "" then Unavailable else w.template(c.value, now), ts)
  {
  }

  // ---------------------------------------------------------------------
  // Trees.

  /** What a part would answer if it were evaluated on its own. */
  function Alone(w: World, c: Cond, ts: Timers, now: int): Trilean {
    Eval(w, c, ts, now).0
  }

  lemma {:induction false} AllFolds(w: World, cs: seq<Cond>, live: map<Cond, Tracker>, now: int, acc: Trilean)
    ensures PreviewAll(w, cs, live, now, acc).True? <==> acc.True? && forall i | 0 <= i < |cs| :: Preview(w, cs[i], live, now).True?
    ensures PreviewAll(w, cs, live, now, acc).False? <==> acc.False? || exists i | 0 <= i < |cs| :: Preview(w, cs[i], live, now).False?
  {
    if cs != [] {
      assert cs == [cs[0]] + cs[1..];
      AllFolds(w, cs[1..], live, now, And(acc, Preview(w, cs[0], live, now)));
    }
  }

  lemma {:induction false} AnyFolds(w: World, cs: seq<Cond>, live: map<Cond, Tracker>, now: int, acc: Trilean)
    ensures PreviewAny(w, cs, live, now, acc).True? <==> acc.True? || exists i | 0 <= i < |cs| :: Preview(w, cs[i], live, now).True?
    ensures PreviewAny(w, cs, live, now, acc).False? <==> acc.False? && forall i | 0 <= i < |cs| :: Preview(w, cs[i], live, now).False?
  {
    if cs != [] {
      assert cs == [cs[0]] + cs[1..];
      AnyFolds(w, cs[1..], live, now, Or(acc, Preview(w, cs[0], live, now)));
    }
  }

  lemma AloneIsPreview(w: World, c: Cond, ts: Timers, now: int)
    requires CreditsHold(ts.live)
    ensures Alone(w, c, ts, now) == Preview(w, c, ts.live, now)
  {
    ExplainPreviewsEvaluate(w, c, ts, now);
  }

  /** `and` is True exactly when every part is, and False exactly when some part is,
      wherever evaluation stops and whatever timers the parts have. */
  lemma AndExactly(w: World, c: Cond, ts: Timers, now: int)
    requires Inferred(c).All? && Untimed(c) && CreditsHold(ts.live)
    ensures Eval(w, c, ts, now).0.True? <==> forall i | 0 <= i < |c.conditions| :: Alone(w, c.conditions[i], ts, now).True?
    ensures Eval(w, c, ts, now).0.False? <==> exists i | 0 <= i < |c.conditions| :: Alone(w, c.conditions[i], ts, now).False?
  {
    AloneIsPreview(w, c, ts, now);
    AllFolds(w, c.conditions, ts.live, now, True);
    forall i | 0 <= i < |c.conditions| ensures Alone(w, c.conditions[i], ts, now) == Preview(w, c.conditions[i], ts.live, now) {
      AloneIsPreview(w, c.conditions[i], ts, now);
    }
  }

  /** `or` is True exactly when some part is, and False exactly when every part is. */
  lemma OrExactly(w: World, c: Cond, ts: Timers, now: int)
    requires Inferred(c).Any? && Untimed(c) && CreditsHold(ts.live)
    ensures Eval(w, c, ts, now).0.True? <==> exists i | 0 <= i < |c.conditions| :: Alone(w, c.conditions[i], ts, now).True?
    ensures Eval(w, c, ts, now).0.False? <==> forall i | 0 <= i < |c.conditions| :: Alone(w, c.conditions[i], ts, now).False?
  {
    AloneIsPreview(w, c, ts, now);
    AnyFolds(w, c.conditions, ts.live, now, False);
    forall i | 0 <= i < |c.conditions| ensures Alone(w, c.conditions[i], ts, now) == Preview(w, c.conditions[i], ts.live, now) {
      AloneIsPreview(w, c.conditions[i], ts, now);
    }
  }

  /** `not` turns its first part around and knows nothing without one. */
  lemma NotExactly(w: World, c: Cond, ts: Timers, now: int)
    requires Inferred(c).Negation? && Untimed(c)
    ensures Eval(w, c, ts, now).0.True? <==> c.conditions != [] && Alone(w, c.conditions[0], ts, now).False?
    ensures Eval(w, c, ts, now).0.False? <==> c.conditions != [] && Alone(w, c.conditions[0], ts, now).True?
  {
  }

  /** With a `for:` of some length, True exactly when the inside is True now and the
      timer's credit with the time since its run began reaches that length; and
      Unavailable exactly when the inside is. */
  lemma TimedExactly(w: World, c: Cond, ts: Timers, now: int)
    requires c.dwell.For? && c.dwell.parsed.Some? && c.dwell.parsed.value > 0 && CreditsHold(ts.live)
    ensures var inside := EvalInner(w, c, ts, now).0;
      && (Eval(w, c, ts, now).0.Unavailable? <==> inside.Unavailable?)
      && (Eval(w, c, ts, now).0.True? <==>
          && inside.True? && c in ts.live
          && var t := ts.live[c];
            t.credited + (if t.started.Some? && t.started.value < now then now - t.started.value else 0) >= c.dwell.parsed.value)
  {
    ExplainPreviewsEvaluate(w, c, ts, now);
    InnerPreviewed(w, c, ts, now);
  }
}

/** The evaluator object: Evaluate and Explain with the loops and the shared
    timers of internal/conditions. */
module Evaluators {
  import opened Options
  import opened Facts
  import opened Conditions
  import opened Explaining
  import opened Dwelling

  function Name(t: Trilean): string {
    match t
    case True => "true"
    case False => "false"
    case Unavailable => "unavailable"
  }

  function ParseTrilean(s: string): Trilean {
    if s == "true" then True else if s == "false" then False else Unavailable
  }

  lemma NamesParse(t: Trilean)
    ensures ParseTrilean(Name(t)) == t
  {
    assert "unavailable"[0] != "true"[0] && "unavailable"[0] != "false"[0];
  }

  datatype DwellProgress = DwellProgress(required: int, elapsed: int, tracked: bool)

  /** What the API shows for one condition. */
  datatype Explanation = Explanation(
    kind: Kind,
    result: string,
    instant: string,
    dwell: Option<DwellProgress>,
    conditions: seq<Explanation>)

  /** Progress toward a `for:` clause, as of `now`. */
  function Progress(c: Cond, instant: Trilean, live: map<Cond, Tracker>, now: int): Option<DwellProgress> {
    if c.dwell.For? && c.dwell.parsed.Some? && c.dwell.parsed.value > 0 then
      Some(DwellProgress(c.dwell.parsed.value,
                         if c in live && instant.True? then Elapsed(live[c], now) else 0,
                         c in live))
    else None
  }

  /** The children Explain visits: all of them, where Evaluate may stop early. */
  function Visited(c: Cond): (cs: seq<Cond>)
    ensures |cs| <= |c.conditions| && cs == c.conditions[..|cs|]
  {
    match Inferred(c)
    case All => c.conditions
    case Any => c.conditions
    case Negation => if c.conditions == [] then [] else c.conditions[..1]
    case _ => []
  }

  /** The whole account of a tree, read off the timers. */
  function Explained(w: World, c: Cond, live: map<Cond, Tracker>, now: int): Explanation
    decreases c
  {
    var instant := PreviewInstant(w, c, live, now);
    Explanation(Inferred(c), Name(Preview(w, c, live, now)), Name(instant), Progress(c, instant, live, now),
                seq(|Visited(c)|, i requires 0 <= i < |Visited(c)| => Explained(w, c.conditions[i], live, now)))
  }

  class Evaluator {
    var live: map<Cond, Tracker>
    var saved: map<Cond, Record>
    var attached: bool

    ghost function State(): Timers
      reads this
    {
      Timers(live, saved, attached)
    }

    constructor ()
      ensures State() == Timers(map[], map[], false)
    {
      live, saved, attached := map[], map[], false;
    }

    /** Attaches the dwell store and restores every row it holds; a timer without a
        row stays as it was. */
    method SetDwellStore(records: map<Cond, Record>)
      modifies this
      ensures attached && saved == records
      ensures forall c | c in records :: CellOf(State(), c) == RestartCell(Cell(None, Some(records[c])), true)
      ensures forall c | c !in records :: CellOf(State(), c) == Cell(CellOf(old(State()), c).live, None)
    {
      attached, saved := true, records;
      var todo := records.Keys;
      while todo != {}
        invariant attached && saved == records && todo <= records.Keys
        invariant forall c | c !in records || c in todo :: CellOf(State(), c).live == CellOf(old(State()), c).live
        invariant forall c | c in records && c !in todo ::
          c in live && live[c] == Tracker(None, records[c].elapsed, records[c].satisfied, 0, None)
        decreases |todo|
      {
        var c :| c in todo;
        live := live[c := Tracker(None, records[c].elapsed, records[c].satisfied, 0, None)];
        todo := todo - {c};
      }
    }

    method ResetDwell(c: Cond)
      modifies this
      ensures CellOf(State(), c).live.None? && (attached ==> CellOf(State(), c) == ResetCell())
      ensures forall k | k != c :: CellOf(State(), k) == CellOf(old(State()), k)
      ensures attached == old(attached) && (!attached ==> saved == old(saved))
    {
      live := live - {c};
      if attached {
        saved := saved - {c};
      }
    }

    method Persist(c: Cond, t: Tracker)
      modifies this
      ensures State() == WithCell(old(State()), c, Persisted(CellOf(old(State()), c), attached, t))
    {
      if attached {
        saved := saved[c := Record(Elapsed(t, t.lastSeen), t.satisfied)];
        live := live[c := t.(lastPersisted := Some(t.lastSeen))];
      } else {
        live := live[c := t];
        if c !in saved {
          assert saved - {c} == saved;
        } else {
          assert saved[c := saved[c]] == saved;
        }
      }
    }

    method KeepLive(c: Cond, t: Tracker)
      modifies this
      ensures State() == WithCell(old(State()), c, CellOf(old(State()), c).(live := Some(t)))
    {
      live := live[c := t];
      if c !in saved {
        assert saved - {c} == saved;
      } else {
        assert saved[c := saved[c]] == saved;
      }
    }

    /** applyDwell: folds an instantaneous result into the condition's timer. */
    method FoldDwell(c: Cond, current: Trilean, required: int, now: int) returns (r: Trilean)
      modifies this
      ensures (r, State()) == ApplyDwell(old(State()), c, current, required, now)
    {
      var t := Tracker(None, 0, false, now, None);
      if c in live {
        t := live[c].(lastSeen := now);
      }
      if !current.True? {
        var changed := t.started.Some? || t.credited != 0 || t.satisfied;
        t := t.(started := None, credited := 0, satisfied := false);
        if changed {
          Persist(c, t);
        } else {
          KeepLive(c, t);
        }
        r := if current.Unavailable? then Unavailable else False;
        return;
      }
      if t.started.None? {
        t := t.(started := Some(now));
      }
      var satisfied := Elapsed(t, now) >= required;
      if satisfied != t.satisfied {
        Persist(c, t.(satisfied := satisfied));
      } else if t.lastPersisted.Some? && now - t.lastPersisted.value < DWELL_PERSIST_INTERVAL {
        KeepLive(c, t);
      } else {
        Persist(c, t);
      }
      r := FromBool(satisfied);
    }

    /** Evaluate: the tree is walked, and the timers it reaches are advanced. */
    method Evaluate(w: World, c: Cond, now: int) returns (r: Trilean)
      modifies this
      ensures (r, State()) == Eval(w, c, old(State()), now)
      decreases c, 1
    {
      r := EvaluateInner(w, c, now);
      if Required(c).Some? {
        r := FoldDwell(c, r, Required(c).value, now);
      }
    }

    method EvaluateInner(w: World, c: Cond, now: int) returns (r: Trilean)
      modifies this
      ensures (r, State()) == EvalInner(w, c, old(State()), now)
      decreases c, 0
    {
      match Inferred(c)
      case All =>
        r := True;
        var i := 0;
        while i < |c.conditions|
          invariant 0 <= i <= |c.conditions| && !r.False?
          invariant EvalAll(w, c.conditions[i..], State(), now, r) == EvalAll(w, c.conditions, old(State()), now, True)
        {
          var v := Evaluate(w, c.conditions[i], now);
          r := And(r, v);
          assert c.conditions[i..][1..] == c.conditions[i + 1..];
          if r.False? {
            return;
          }
          i := i + 1;
        }
      case Any =>
        r := False;
        var i := 0;
        while i < |c.conditions|
          invariant 0 <= i <= |c.conditions| && !r.True?
          invariant EvalAny(w, c.conditions[i..], State(), now, r) == EvalAny(w, c.conditions, old(State()), now, False)
        {
          var v := Evaluate(w, c.conditions[i], now);
          r := Or(r, v);
          assert c.conditions[i..][1..] == c.conditions[i + 1..];
          if r.True? {
            return;
          }
          i := i + 1;
        }
      case Negation =>
        if |c.conditions| == 0 {
          r := Unavailable;
        } else {
          r := Evaluate(w, c.conditions[0], now);
          r := Not(r);
        }
      case _ =>
        r := EvalLeaf(w, c, now);
    }

    /** explainDwell: reads the timer the policy loop keeps. */
    method ExplainDwell(c: Cond, instant: Trilean, required: int, now: int) returns (dwell: DwellProgress, result: Trilean)
      requires c.dwell.For? && c.dwell.parsed == Some(required) && required > 0
      ensures Some(dwell) == Progress(c, instant, live, now)
      ensures result == if instant.True? then FromBool(c in live && Elapsed(live[c], now) >= required) else instant
    {
      var tracked := c in live;
      var elapsed := if tracked then Elapsed(live[c], now) else 0;
      if !instant.True? {
        return DwellProgress(required, 0, tracked), instant;
      }
      dwell := DwellProgress(required, elapsed, tracked);
      result := FromBool(tracked && elapsed >= required);
    }

    /** The children's accounts, and the two folds over their results. */
    method ExplainChildren(w: World, c: Cond, now: int) returns (children: seq<Explanation>, both: Trilean, either: Trilean)
      requires Inferred(c).All? || Inferred(c).Any?
      ensures children == Explained(w, c, live, now).conditions
      ensures both == PreviewAll(w, c.conditions, live, now, True)
      ensures either == PreviewAny(w, c.conditions, live, now, False)
      decreases c, 0
    {
      children, both, either := [], True, False;
      var i := 0;
      while i < |c.conditions|
        invariant 0 <= i <= |c.conditions|
        invariant children == Explained(w, c, live, now).conditions[..i]
        invariant PreviewAll(w, c.conditions[i..], live, now, both) == PreviewAll(w, c.conditions, live, now, True)
        invariant PreviewAny(w, c.conditions[i..], live, now, either) == PreviewAny(w, c.conditions, live, now, False)
      {
        var child := Explain(w, c.conditions[i], now);
        children := children + [child];
        NamesParse(Preview(w, c.conditions[i], live, now));
        both := And(both, ParseTrilean(child.result));
        either := Or(either, ParseTrilean(child.result));
        assert c.conditions[i..][1..] == c.conditions[i + 1..];
        i := i + 1;
      }
    }

    /** Explain: the same tree, every child visited, no timer touched. */
    method Explain(w: World, c: Cond, now: int) returns (ex: Explanation)
      ensures ex == Explained(w, c, live, now)
      decreases c, 1
    {
      var instant := Unavailable;
      var children: seq<Explanation> := [];
      match Inferred(c) {
        case All =>
          var shown, both, either := ExplainChildren(w, c, now);
          children, instant := shown, both;
        case Any =>
          var shown, both, either := ExplainChildren(w, c, now);
          children, instant := shown, either;
        case Negation =>
          if |c.conditions| > 0 {
            var child := Explain(w, c.conditions[0], now);
            children := [child];
            NamesParse(Preview(w, c.conditions[0], live, now));
            instant := Not(ParseTrilean(child.result));
          }
        case _ =>
          instant := EvalLeaf(w, c, now);
      }
      var result, dwell := instant, None;
      if c.dwell.For? && c.dwell.parsed.Some? && c.dwell.parsed.value > 0 {
        var d, r := ExplainDwell(c, instant, c.dwell.parsed.value, now);
        result, dwell := r, Some(d);
      }
      ex := Explanation(Inferred(c), Name(result), Name(instant), dwell, children);
    }
  }

  /** The result Explain shows is the one Evaluate would return at that instant. */
  lemma ShownResultIsEvaluated(w: World, c: Cond, ts: Timers, now: int)
    requires CreditsHold(ts.live)
    ensures ParseTrilean(Explained(w, c, ts.live, now).result) == Eval(w, c, ts, now).0
  {
    NamesParse(Preview(w, c, ts.live, now));
    ExplainPreviewsEvaluate(w, c, ts, now);
  }

  /** The progress Explain shows tells the result: complete exactly when the condition
      is True, nothing while its inside is not, and otherwise the timer's credit with
      the time its run has lasted. Every part shown is what that part alone comes to. */
  lemma ProgressDecides(w: World, c: Cond, ts: Timers, now: int)
    requires CreditsHold(ts.live)
    ensures var ex := Explained(w, c, ts.live, now);
      && (ex.dwell.Some? <==> c.dwell.For? && c.dwell.parsed.Some? && c.dwell.parsed.value > 0)
      && (ex.dwell.Some? ==>
          var p := ex.dwell.value;
          && p.required == c.dwell.parsed.value && (p.tracked <==> c in ts.live)
          && (ex.result == "true" <==> ex.instant == "true" && p.tracked && p.elapsed >= p.required)
          && (ex.instant != "true" || !p.tracked ==> p.elapsed == 0)
          && (ex.instant == "true" && p.tracked ==>
              var t := ts.live[c];
              p.elapsed == t.credited + if t.started.Some? && t.started.value < now then now - t.started.value else 0))
      && (ex.dwell.None? ==> ex.result == ex.instant)
      && forall i | 0 <= i < |ex.conditions| :: i < |c.conditions| && ex.conditions[i].result == Name(Eval(w, c.conditions[i], ts, now).0)
  {
    var ex := Explained(w, c, ts.live, now);
    forall i | 0 <= i < |ex.conditions| ensures i < |c.conditions| && ex.conditions[i].result == Name(Eval(w, c.conditions[i], ts, now).0) {
      ExplainPreviewsEvaluate(w, c.conditions[i], ts, now);
    }
    NamesDiffer();
  }

  lemma NamesDiffer()
    ensures Name(True) == "true" && Name(False) != "true" && Name(Unavailable) != "true"
  {
    assert Name(False)[0] != "true"[0] && Name(Unavailable)[0] != "true"[0];
  }
}

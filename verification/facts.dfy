/** internal/facts: three-valued logic, readings and their freshness. */
module Facts {
  import opened Options

  datatype Trilean = Unavailable | False | True

  function And(a: Trilean, b: Trilean): Trilean {
    if a.False? || b.False? then False
    else if a.Unavailable? || b.Unavailable? then Unavailable
    else True
  }

  function Or(a: Trilean, b: Trilean): Trilean {
    if a.True? || b.True? then True
    else if a.Unavailable? || b.Unavailable? then Unavailable
    else False
  }

  function Not(a: Trilean): Trilean {
    match a
    case True => False
    case False => True
    case Unavailable => Unavailable
  }

  function FromBool(b: bool): Trilean {
    if b then True else False
  }

  /** `a` says no more than `b`: the same answer, or none. */
  predicate Vaguer(a: Trilean, b: Trilean) {
    a.Unavailable? || a == b
  }

  datatype Quality = Unknown | Stale | Good

  /** What a source reports. `Items` is a list decoded from JSON, whose
      non-string members are None. */
  datatype Value =
    | Nil
    | Num(n: real)
    | Flag(b: bool)
    | Text(s: string)
    | Words(ws: seq<string>)
    | Items(items: seq<Option<string>>)

  datatype Fact = Fact(value: Value, quality: Quality, updatedAt: int)

  /** Facts by key, and each source's poll interval in nanoseconds. */
  datatype Readings = Readings(facts: map<string, Fact>, polls: map<string, int>)

  const SECOND := 1_000_000_000
  const STALENESS_FACTOR := 2
  const MIN_POLL_INTERVAL := SECOND

  function Read(r: Readings, key: string): Fact {
    if key in r.facts then r.facts[key] else Fact(Nil, Unknown, 0)
  }

  /** Only a good, present value may decide anything. */
  predicate Usable(f: Fact) {
    f.quality.Good? && !f.value.Nil?
  }

  /** The segment before the first dot names the source. */
  function SourceFromKey(key: string): string {
    if key == [] || key[0] == '.' then [] else [key[0]] + SourceFromKey(key[1..])
  }

  function Updated(r: Readings, key: string, value: Value, t: int): Readings {
    if key in r.facts then r.(facts := r.facts[key := Fact(value, Good, t)]) else r
  }

  /** A fact is stale once its source has been silent for two poll intervals. */
  function Judged(f: Fact, interval: int, now: int): Quality {
    var floor := if interval < MIN_POLL_INTERVAL then MIN_POLL_INTERVAL else interval;
    if f.quality.Unknown? then Unknown
    else if now - f.updatedAt > floor * STALENESS_FACTOR then Stale
    else Good
  }

  function RefreshedFact(r: Readings, key: string, now: int): Fact
    requires key in r.facts
  {
    var f := r.facts[key];
    var source := SourceFromKey(key);
    if source in r.polls then f.(quality := Judged(f, r.polls[source], now)) else f
  }

  function Refreshed(r: Readings, now: int): Readings {
    r.(facts := map key | key in r.facts :: RefreshedFact(r, key, now))
  }

  /** The same readings, some of them no longer usable. */
  ghost predicate Degraded(worse: Readings, better: Readings) {
    forall key :: Read(worse, key) == Read(better, key) || !Usable(Read(worse, key))
  }

  /** Once refreshed, a source that stays silent can only lose its facts: no
      later refresh makes a reading usable that was not, or changes a value. */
  lemma SilenceOnlyDegrades(r: Readings, t1: int, t2: int)
    requires t1 <= t2
    ensures Degraded(Refreshed(r, t2), Refreshed(r, t1))
    ensures Refreshed(Refreshed(r, t1), t2) == Refreshed(r, t2)
  {
    forall key ensures Read(Refreshed(r, t2), key) == Read(Refreshed(r, t1), key) || !Usable(Read(Refreshed(r, t2), key)) {
      if key in r.facts {
        assert Read(Refreshed(r, t1), key) == RefreshedFact(r, key, t1);
        assert Read(Refreshed(r, t2), key) == RefreshedFact(r, key, t2);
      }
    }
    forall key | key in r.facts ensures RefreshedFact(Refreshed(r, t1), key, t2) == RefreshedFact(r, key, t2) {
      assert Refreshed(r, t1).facts[key] == RefreshedFact(r, key, t1);
    }
    assert Refreshed(Refreshed(r, t1), t2).facts == Refreshed(r, t2).facts;
  }

  /** What happens to a store over time. */
  datatype Use = Reports(key: string, value: Value, at: int) | Refreshes(at: int)

  function Used(r: Readings, uses: seq<Use>): Readings {
    if uses == [] then r
    else
      var before, u := Used(r, uses[..|uses| - 1]), uses[|uses| - 1];
      match u
      case Reports(key, value, at) => Updated(before, key, value, at)
      case Refreshes(at) => Refreshed(before, at)
  }

  lemma {:induction false} LastReportStays(r: Readings, key: string, uses: seq<Use>)
    requires key in r.facts && forall u | u in uses && u.Reports? :: u.key != key
    ensures var r' := Used(r, uses);
      && r'.polls == r.polls && key in r'.facts
      && r'.facts[key].value == r.facts[key].value && r'.facts[key].updatedAt == r.facts[key].updatedAt
      && (r'.facts[key].quality.Unknown? <==> r.facts[key].quality.Unknown?)
  {
    if uses != [] {
      LastReportStays(r, key, uses[..|uses| - 1]);
    }
  }

  /** Whatever else is reported and refreshed in between: a fact last reported at
      `t` keeps that value, and a refresh at `now` finds it stale exactly when it has
      been silent for more than two poll intervals of its source, counted as at
      least a second each. One that was never reported stays unknown. */
  lemma StaleExactly(r: Readings, key: string, value: Value, t: int, uses: seq<Use>, now: int)
    requires key in r.facts && SourceFromKey(key) in r.polls && forall u | u in uses && u.Reports? :: u.key != key
    ensures var interval := r.polls[SourceFromKey(key)];
      Read(Used(Updated(r, key, value, t), uses + [Refreshes(now)]), key) ==
      Fact(value, if now - t > 2 * interval && now - t > 2_000_000_000 then Stale else Good, t)
    ensures r.facts[key].quality.Unknown? ==> Read(Used(r, uses + [Refreshes(now)]), key).quality.Unknown?
  {
    assert (uses + [Refreshes(now)])[..|uses|] == uses;
    LastReportStays(Updated(r, key, value, t), key, uses);
    LastReportStays(r, key, uses);
  }

  /** internal/facts' Store. */
  class Store {
    var facts: map<string, Fact>
    var polls: map<string, int>

    ghost function Contents(): Readings
      reads this
    {
      Readings(facts, polls)
    }

    constructor ()
      ensures Contents() == Readings(map[], map[])
    {
      facts, polls := map[], map[];
    }

    /** Declares a source's facts; one already known keeps its reading. */
    method RegisterSource(source: string, interval: int, names: seq<string>)
      modifies this
      ensures polls == old(polls)[source := interval]
      ensures facts.Keys == old(facts).Keys + set name | name in names :: source + "." + name
      ensures forall key | key in facts ::
        facts[key] == if key in old(facts) then old(facts)[key] else Fact(Nil, Unknown, 0)
    {
      polls := polls[source := interval];
      for i := 0 to |names|
        invariant polls == old(polls)[source := interval]
        invariant facts.Keys == old(facts).Keys + set name | name in names[..i] :: source + "." + name
        invariant forall key | key in facts ::
          facts[key] == if key in old(facts) then old(facts)[key] else Fact(Nil, Unknown, 0)
      {
        assert names[..i + 1] == names[..i] + [names[i]];
        var key := source + "." + names[i];
        if key !in facts {
          facts := facts[key := Fact(Nil, Unknown, 0)];
        }
      }
      assert names[..|names|] == names;
    }

    method Update(key: string, value: Value, t: int)
      modifies this
      ensures Contents() == Updated(old(Contents()), key, value, t)
    {
      if key in facts {
        facts := facts[key := Fact(value, Good, t)];
      }
    }

    /** Walks a copy of the fact table, as the daemon does every few seconds. */
    method RefreshQuality(now: int)
      modifies this
      ensures Contents() == Refreshed(old(Contents()), now)
    {
      ghost var before := Contents();
      var todo := facts.Keys;
      while todo != {}
        invariant polls == before.polls && facts.Keys == before.facts.Keys && todo <= facts.Keys
        invariant forall key | key in todo :: facts[key] == before.facts[key]
        invariant forall key | key in facts && key !in todo :: facts[key] == RefreshedFact(before, key, now)
        decreases |todo|
      {
        var key :| key in todo;
        var source := SourceFromKey(key);
        if source in polls && !facts[key].quality.Unknown? {
          var interval := if polls[source] < MIN_POLL_INTERVAL then MIN_POLL_INTERVAL else polls[source];
          var quality := if now - facts[key].updatedAt > interval * STALENESS_FACTOR then Stale else Good;
          facts := facts[key := facts[key].(quality := quality)];
        }
        todo := todo - {key};
      }
      assert facts == Refreshed(before, now).facts;
    }
  }
}

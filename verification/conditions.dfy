/** internal/conditions: condition trees, their dwell timers, and what
    evaluating one means. */
module Conditions {
  import opened Options
  import opened Facts

  datatype Kind =
    | Unspecified
    | Numeric
    | State
    | All
    | Any
    | Negation
    | Template
    | Always
    | Never
    | Unrecognised(name: string)

  /** A `for:` clause: its text, and the duration it parses to if it does. */
  datatype Dwell = NoDwell | For(text: string, parsed: Option<int>)

  datatype Cond = Cond(
    kind: Kind,
    fact: string,
    above: Option<real>,
    below: Option<real>,
    equals: Option<Value>,
    is_: string,
    isNot: string,
    oneOf: seq<string>,
    contains: string,
    value: string,
    dwell: Dwell,
    conditions: seq<Cond>)

  /** What a condition can see: the readings, how a value prints, and what a
      template expression yields at an instant. */
  datatype World = World(readings: Readings, show: Value -> string, template: (string, int) -> Trilean)

  function Inferred(c: Cond): Kind {
    if !c.kind.Unspecified? then c.kind
    else if c.value != "" then Template
    else if c.fact != "" then
      if c.above.Some? || c.below.Some? || c.equals.Some? then Numeric else State
    else Always
  }

  /** The duration Evaluate hands to applyDwell, if any. */
  function Required(c: Cond): Option<int> {
    if c.dwell.For? && c.dwell.parsed.Some? && c.dwell.parsed.value != 0 then c.dwell.parsed else None
  }

  // ---------------------------------------------------------------------
  // Leaves.

  function EvalNumeric(w: World, c: Cond): Trilean {
    var f := Read(w.readings, c.fact);
    if !Usable(f) || !f.value.Num? then Unavailable
    else if c.above.Some? && f.value.n <= c.above.value then False
    else if c.below.Some? && f.value.n >= c.below.value then False
    else if c.equals.Some? && !c.equals.value.Num? then Unavailable
    else if c.equals.Some? && f.value.n != c.equals.value.n then False
    else True
  }

  /** `sub` occurs in `s`, as strings.Contains has it. */
  predicate Occurs(sub: string, s: string) {
    exists i | 0 <= i <= |s| :: sub <= s[i..]
  }

  function EvalState(w: World, c: Cond): Trilean {
    var f := Read(w.readings, c.fact);
    if !Usable(f) then Unavailable
    else if c.contains != "" then
      match f.value
      case Words(ws) => FromBool(c.contains in ws)
      case Items(items) => FromBool(Some(c.contains) in items)
      case Text(s) => FromBool(Occurs(c.contains, s))
      case _ => Unavailable
    else
      var shown := w.show(f.value);
      if c.is_ != "" then FromBool(shown == c.is_)
      else if c.isNot != "" then FromBool(shown != c.isNot)
      else if c.oneOf != [] then FromBool(shown in c.oneOf)
      else Unavailable
  }

  function EvalLeaf(w: World, c: Cond, now: int): Trilean {
    match Inferred(c)
    case Numeric => EvalNumeric(w, c)
    case State => EvalState(w, c)
    case Template => if c.value == "" then Unavailable else w.template(c.value, now)
    case Always => True
    case Never => False
    case _ => Unavailable
  }

  // ---------------------------------------------------------------------
  // Dwell timers. A timer belongs to a condition tree: conditionKey hashes the
  // whole tree, so equal trees share one timer.

  datatype Tracker = Tracker(started: Option<int>, credited: int, satisfied: bool, lastSeen: int, lastPersisted: Option<int>)

  datatype Record = Record(elapsed: int, satisfied: bool)

  /** One condition's timer in memory and its row in the dwell store. */
  datatype Cell = Cell(live: Option<Tracker>, saved: Option<Record>)

  const DWELL_PERSIST_INTERVAL := 30 * SECOND

  function Elapsed(t: Tracker, now: int): int {
    match t.started
    case None => t.credited
    case Some(s) => t.credited + if now < s then 0 else now - s
  }

  function Persisted(x: Cell, attached: bool, t: Tracker): Cell {
    if attached
    then Cell(Some(t.(lastPersisted := Some(t.lastSeen))), Some(Record(Elapsed(t, t.lastSeen), t.satisfied)))
    else x.(live := Some(t))
  }

  function PersistedIfDue(x: Cell, attached: bool, t: Tracker, now: int): Cell {
    if t.lastPersisted.Some? && now - t.lastPersisted.value < DWELL_PERSIST_INTERVAL
    then x.(live := Some(t))
    else Persisted(x, attached, t)
  }

  function Opened(x: Cell, now: int): Tracker {
    match x.live
    case None => Tracker(None, 0, false, now, None)
    case Some(t) => t.(lastSeen := now)
  }

  /** applyDwell on one timer: the answer and the timer afterwards. */
  function Observe(x: Cell, attached: bool, v: Trilean, required: int, now: int): (Trilean, Cell) {
    var t := Opened(x, now);
    if !v.True? then
      var changed := t.started.Some? || t.credited != 0 || t.satisfied;
      var t' := t.(started := None, credited := 0, satisfied := false);
      (if v.Unavailable? then Unavailable else False,
       if changed then Persisted(x, attached, t') else x.(live := Some(t')))
    else
      var t' := if t.started.None? then t.(started := Some(now)) else t;
      var satisfied := Elapsed(t', now) >= required;
      (FromBool(satisfied),
       if satisfied != t'.satisfied then Persisted(x, attached, t'.(satisfied := satisfied))
       else PersistedIfDue(x, attached, t', now))
  }

  /** All timers, and the dwell store's rows; `attached` says there is a store. */
  datatype Timers = Timers(live: map<Cond, Tracker>, saved: map<Cond, Record>, attached: bool)

  function CellOf(ts: Timers, c: Cond): Cell {
    Cell(if c in ts.live then Some(ts.live[c]) else None,
         if c in ts.saved then Some(ts.saved[c]) else None)
  }

  function WithCell(ts: Timers, c: Cond, x: Cell): Timers {
    ts.(live := if x.live.Some? then ts.live[c := x.live.value] else ts.live - {c},
        saved := if x.saved.Some? then ts.saved[c := x.saved.value] else ts.saved - {c})
  }

  function ApplyDwell(ts: Timers, c: Cond, v: Trilean, required: int, now: int): (Trilean, Timers) {
    var (answer, x) := Observe(CellOf(ts, c), ts.attached, v, required, now);
    (answer, WithCell(ts, c, x))
  }

  // ---------------------------------------------------------------------
  // Evaluate. The loops of evaluateAnd and evaluateOr stop early, so a nested
  // timer is sampled only when it is reached.

  function Eval(w: World, c: Cond, ts: Timers, now: int): (Trilean, Timers)
    decreases c, 1
  {
    var (v, ts') := EvalInner(w, c, ts, now);
    match Required(c)
    case None => (v, ts')
    case Some(required) => ApplyDwell(ts', c, v, required, now)
  }

  function EvalInner(w: World, c: Cond, ts: Timers, now: int): (Trilean, Timers)
    decreases c, 0
  {
    match Inferred(c)
    case All => EvalAll(w, c.conditions, ts, now, True)
    case Any => EvalAny(w, c.conditions, ts, now, False)
    case Negation =>
      if c.conditions == [] then (Unavailable, ts)
      else
        var (v, ts') := Eval(w, c.conditions[0], ts, now);
        (Not(v), ts')
    case _ => (EvalLeaf(w, c, now), ts)
  }

  function EvalAll(w: World, cs: seq<Cond>, ts: Timers, now: int, acc: Trilean): (Trilean, Timers)
    decreases cs
  {
    if cs == [] then (acc, ts)
    else
      var (v, ts') := Eval(w, cs[0], ts, now);
      var acc' := And(acc, v);
      if acc'.False? then (False, ts') else EvalAll(w, cs[1..], ts', now, acc')
  }

  function EvalAny(w: World, cs: seq<Cond>, ts: Timers, now: int, acc: Trilean): (Trilean, Timers)
    decreases cs
  {
    if cs == [] then (acc, ts)
    else
      var (v, ts') := Eval(w, cs[0], ts, now);
      var acc' := Or(acc, v);
      if acc'.True? then (True, ts') else EvalAny(w, cs[1..], ts', now, acc')
  }

  // ---------------------------------------------------------------------
  // What Explain reports: the same tree read without touching a timer, and
  // without stopping early.

  function Preview(w: World, c: Cond, live: map<Cond, Tracker>, now: int): Trilean
    decreases c, 1
  {
    var v := PreviewInstant(w, c, live, now);
    if c.dwell.For? && c.dwell.parsed.Some? && c.dwell.parsed.value > 0 && v.True?
    then FromBool(c in live && Elapsed(live[c], now) >= c.dwell.parsed.value)
    else v
  }

  function PreviewInstant(w: World, c: Cond, live: map<Cond, Tracker>, now: int): Trilean
    decreases c, 0
  {
    match Inferred(c)
    case All => PreviewAll(w, c.conditions, live, now, True)
    case Any => PreviewAny(w, c.conditions, live, now, False)
    case Negation => if c.conditions == [] then Unavailable else Not(Preview(w, c.conditions[0], live, now))
    case _ => EvalLeaf(w, c, now)
  }

  function PreviewAll(w: World, cs: seq<Cond>, live: map<Cond, Tracker>, now: int, acc: Trilean): Trilean
    decreases cs
  {
    if cs == [] then acc
    else PreviewAll(w, cs[1..], live, now, And(acc, Preview(w, cs[0], live, now)))
  }

  function PreviewAny(w: World, cs: seq<Cond>, live: map<Cond, Tracker>, now: int, acc: Trilean): Trilean
    decreases cs
  {
    if cs == [] then acc
    else PreviewAny(w, cs[1..], live, now, Or(acc, Preview(w, cs[0], live, now)))
  }
}

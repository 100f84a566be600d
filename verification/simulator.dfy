/** internal/simulate: replaying a timeline of fact changes against a plan. */
module Simulator {
  import opened Options
  import opened Facts
  import opened Conditions
  import opened Evaluators
  import opened Plans

  datatype SimStage = SimStage(name: string, clients: Refs, when: Cond, ponr: bool, hold: bool, timeout: int)

  datatype SimPlan = SimPlan(name: string, trigger: Cond, abort: Option<Cond>, stages: seq<SimStage>, gate: Cond)

  datatype TimelineEvent = TimelineEvent(at: int, fact: string, value: Value)

  datatype Timeline = Timeline(duration: int, step: int, events: seq<TimelineEvent>)

  datatype Event = Event(at: int, stage: string, detail: string, clients: seq<string>)

  datatype Result = Result(
    triggers: seq<Event>,
    stages: seq<Event>,
    aborts: seq<Event>,
    ponr: seq<Event>,
    wakeGates: seq<Event>,
    skipped: seq<Event>,
    shutdownOrder: seq<string>,
    notShutDown: seq<string>,
    completed: bool)

  /** What surrounds the plan: the clients, each source's poll interval, how values
      print and what a template yields on given readings. */
  datatype Setting = Setting(
    fleet: Fleet,
    poll: string -> int,
    show: Value -> string,
    template: Readings -> ((string, int) -> Trilean))

  const SKIPPED := "entry condition not met within wait_timeout"

  // ---------------------------------------------------------------------
  // Facts over simulated time.

  /** A list of strings arrives from JSON as a list of anything. */
  function Normalised(v: Value): Value {
    if v.Items? && (forall i | 0 <= i < |v.items| :: v.items[i].Some?)
    then Words(seq(|v.items|, i requires 0 <= i < |v.items| => v.items[i].value)) else v
  }

  /** What holds after the first events: an event sets its fact from here on, a
      null silences it. */
  function Holding(events: seq<TimelineEvent>): map<string, Value> {
    if events == [] then map[]
    else
      var before, e := Holding(events[..|events| - 1]), events[|events| - 1];
      if e.value.Nil? then before - {e.fact} else before[e.fact := Normalised(e.value)]
  }

  /** Every fact that holds is reported again at `now`; the rest age. */
  function Reported(r: Readings, current: map<string, Value>, now: int): Readings {
    r.(facts := map key | key in r.facts :: if key in current then Fact(current[key], Good, now) else r.facts[key])
  }

  method Report(store: Store, current: map<string, Value>, now: int)
    modifies store
    ensures store.Contents() == Refreshed(Reported(old(store.Contents()), current, now), now)
  {
    ghost var before := store.Contents();
    var todo := current.Keys;
    while todo != {}
      invariant todo <= current.Keys && store.polls == before.polls && store.facts.Keys == before.facts.Keys
      invariant forall key | key in before.facts ::
        store.facts[key] == if key in current && key !in todo then Fact(current[key], Good, now) else before.facts[key]
      decreases |todo|
    {
      var key :| key in todo;
      store.Update(key, current[key], now);
      todo := todo - {key};
    }
    assert store.facts == Reported(before, current, now).facts;
    store.RefreshQuality(now);
  }

  /** The key has a source and a name. */
  predicate Qualified(key: string) {
    0 < |SourceFromKey(key)| < |key| - 1
  }

  /** Every fact the timeline touches, with nothing reported yet. */
  function Declared(events: seq<TimelineEvent>, poll: string -> int): Readings {
    Readings(map key | key in FactKeys(events) :: Fact(Nil, Unknown, 0), map source | source in Sources(events) :: poll(source))
  }

  function FactKeys(events: seq<TimelineEvent>): set<string> {
    set e | e in events :: e.fact
  }

  function Sources(events: seq<TimelineEvent>): set<string> {
    set e | e in events :: SourceFromKey(e.fact)
  }

  lemma OneMoreDeclared(events: seq<TimelineEvent>, e: TimelineEvent)
    ensures FactKeys(events + [e]) == FactKeys(events) + {e.fact}
    ensures Sources(events + [e]) == Sources(events) + {SourceFromKey(e.fact)}
  {
    assert forall x :: x in events + [e] <==> x in events || x == e;
  }

  lemma SplitsAtDot(key: string)
    requires Qualified(key)
    ensures SourceFromKey(key) + "." + key[|SourceFromKey(key)| + 1..] == key
  {
    SourceBeforeDot(key);
  }

  lemma {:induction false} SourceBeforeDot(key: string)
    ensures SourceFromKey(key) <= key
    ensures |SourceFromKey(key)| < |key| ==> key[|SourceFromKey(key)|] == '.'
  {
    if key != [] && key[0] != '.' {
      SourceBeforeDot(key[1..]);
    }
  }

  /** Only declared facts, none of them read, each source with its interval. */
  ghost predicate Blank(r: Readings, keys: set<string>, sources: set<string>, poll: string -> int) {
    && r.facts.Keys == keys && (forall key | key in keys :: r.facts[key] == Fact(Nil, Unknown, 0))
    && r.polls.Keys == sources && forall source | source in sources :: r.polls[source] == poll(source)
  }

  method DeclareFact(store: Store, key: string, poll: string -> int, ghost keys: set<string>, ghost sources: set<string>)
    requires Qualified(key) && Blank(store.Contents(), keys, sources, poll)
    modifies store
    ensures Blank(store.Contents(), keys + {key}, sources + {SourceFromKey(key)}, poll)
  {
    var source := SourceFromKey(key);
    SplitsAtDot(key);
    store.RegisterSource(source, poll(source), [key[|source| + 1..]]);
  }

  /** Declares the timeline's facts; None if a key is not qualified. */
  method BuildStore(events: seq<TimelineEvent>, poll: string -> int) returns (r: Option<Store>)
    ensures r.Some? <==> forall e | e in events :: Qualified(e.fact)
    ensures r.Some? ==> fresh(r.value) && r.value.Contents() == Declared(events, poll)
  {
    var store := new Store();
    for i := 0 to |events|
      invariant forall e | e in events[..i] :: Qualified(e.fact)
      invariant fresh(store) && Blank(store.Contents(), FactKeys(events[..i]), Sources(events[..i]), poll)
    {
      var key := events[i].fact;
      if !Qualified(key) {
        return None;
      }
      assert events[..i + 1] == events[..i] + [events[i]];
      OneMoreDeclared(events[..i], events[i]);
      DeclareFact(store, key, poll, FactKeys(events[..i]), Sources(events[..i]));
    }
    assert events[..|events|] == events;
    assert store.facts == Declared(events, poll).facts && store.polls == Declared(events, poll).polls;
    return Some(store);
  }

  // ---------------------------------------------------------------------
  // What a result should account for.

  /** How one stage was passed: dispatched or given up, and when. */
  datatype Passed = Passed(ran: bool, at: int)

  function StageEvent(fleet: Fleet, stage: SimStage, p: Passed): Event {
    Event(p.at, stage.name, if p.ran then "" else SKIPPED, Resolved(fleet, stage.clients))
  }

  /** The passed stages that ran, or those that did not, in plan order. */
  function Picked(fleet: Fleet, stages: seq<SimStage>, done: seq<Passed>, ran: bool): seq<Event>
    requires |done| <= |stages|
  {
    if done == [] then []
    else
      var n := |done| - 1;
      Picked(fleet, stages, done[..n], ran) + if done[n].ran == ran then [StageEvent(fleet, stages[n], done[n])] else []
  }

  function AllClients(es: seq<Event>): seq<string> {
    if es == [] then [] else AllClients(es[..|es| - 1]) + es[|es| - 1].clients
  }

  /** The first stage that ran past the point of no return. */
  function Crossing(stages: seq<SimStage>, done: seq<Passed>): seq<Event>
    requires |done| <= |stages|
  {
    if done == [] then []
    else
      var n := |done| - 1;
      var earlier := Crossing(stages, done[..n]);
      if earlier == [] && done[n].ran && stages[n].ponr then [Event(done[n].at, stages[n].name, "", [])] else earlier
  }

  /** When the wait for stage `i` began. */
  function Since(done: seq<Passed>, trigger: int, i: int): int
    requires 0 <= i <= |done|
  {
    if i == 0 then trigger else done[i - 1].at
  }

  predicate StageTimedOut(stage: SimStage, elapsed: int, since: int) {
    !stage.hold && elapsed - since >= stage.timeout
  }

  /** Stages are passed one at a time after the trigger, and only a stage that
      does not hold and has waited its timeout is given up. */
  predicate PassedInTime(stages: seq<SimStage>, done: seq<Passed>, trigger: int) {
    |done| <= |stages| && forall i | 0 <= i < |done| :: InTime(stages[i], done[i], Since(done, trigger, i))
  }

  predicate InTime(stage: SimStage, p: Passed, since: int) {
    since < p.at && (!p.ran ==> StageTimedOut(stage, p.at, since))
  }

  /** The result is exactly what passing the stages `done`, from a trigger at
      `trigger`, leaves behind. */
  predicate Accounts(fleet: Fleet, plan: SimPlan, r: Result, done: seq<Passed>, trigger: int) {
    && PassedInTime(plan.stages, done, trigger)
    && r.triggers == [Event(trigger, "", plan.name, [])]
    && r.stages == Picked(fleet, plan.stages, done, true)
    && r.skipped == Picked(fleet, plan.stages, done, false)
    && r.shutdownOrder == AllClients(r.stages)
    && r.notShutDown == AllClients(r.skipped)
    && r.ponr == Crossing(plan.stages, done)
  }

  /** An abort comes alone, before any crossing and after every stage event. */
  predicate AbortFits(plan: SimPlan, r: Result, done: seq<Passed>, trigger: int) {
    r.aborts == [] ||
    (&& |r.aborts| == 1 && plan.abort.Some? && r.ponr == []
     && r.aborts[0].at > trigger && forall p | p in done :: p.at < r.aborts[0].at)
  }

  /** The gate is passed at most once, after everything else, and only by a
      sequence that was called off or has passed all its stages. */
  predicate GateFits(plan: SimPlan, r: Result, done: seq<Passed>) {
    && r.completed == (r.wakeGates != []) && |r.wakeGates| <= 1
    && (r.completed ==>
        && (r.aborts != [] || |done| == |plan.stages|)
        && (forall a | a in r.aborts :: a.at <= r.wakeGates[0].at)
        && forall p | p in done :: p.at <= r.wakeGates[0].at)
  }

  const NOTHING := Result([], [], [], [], [], [], [], [], false)

  /** The accounting of a finished simulation. */
  ghost predicate Consistent(fleet: Fleet, plan: SimPlan, r: Result) {
    r == NOTHING ||
    exists done, trigger ::
      Accounts(fleet, plan, r, done, trigger) && AbortFits(plan, r, done, trigger) && GateFits(plan, r, done)
  }

  // ---------------------------------------------------------------------
  // One tick.

  datatype Progress = Progress(
    result: Result,
    triggered: bool,
    aborted: bool,
    crossed: bool,
    currentStage: nat,
    enteredAt: int)

  const FRESH := Progress(NOTHING, false, false, false, 0, 0)

  /** A plan that has not triggered only looks at its trigger. */
  function Triggering(plan: SimPlan, v: Progress, at: int, t: Trilean): Progress {
    if !t.True? then v
    else v.(triggered := true, enteredAt := at,
            result := v.result.(triggers := v.result.triggers + [Event(at, "", plan.name, [])]))
  }

  function Aborting(plan: SimPlan, v: Progress, at: int): Progress {
    v.(aborted := true, result := v.result.(aborts := v.result.aborts + [Event(at, "", plan.name, [])]))
  }

  function AfterPassing(fleet: Fleet, r: Result, stage: SimStage, p: Passed): Result {
    var e := StageEvent(fleet, stage, p);
    if p.ran then
      r.(stages := r.stages + [e], shutdownOrder := r.shutdownOrder + e.clients,
         ponr := if stage.ponr && r.ponr == [] then r.ponr + [Event(p.at, stage.name, "", [])] else r.ponr)
    else r.(skipped := r.skipped + [e], notShutDown := r.notShutDown + e.clients)
  }

  /** The variables after passing the current stage. */
  function PassedOn(fleet: Fleet, plan: SimPlan, v: Progress, p: Passed): Progress
    requires v.currentStage < |plan.stages|
  {
    var stage := plan.stages[v.currentStage];
    v.(result := AfterPassing(fleet, v.result, stage, p), crossed := v.crossed || (p.ran && stage.ponr),
       currentStage := v.currentStage + 1, enteredAt := p.at)
  }

  /** Everything that changes while the simulation runs. */
  datatype Sim = Sim(readings: Readings, timers: Timers, v: Progress, eventIdx: nat, finished: bool)

  /** The abort condition is asked until the point of no return. */
  function AbortPart(plan: SimPlan, w: World, v: Progress, ts: Timers, at: int, now: int): (Progress, Timers) {
    if v.aborted || v.crossed || plan.abort.None? then (v, ts)
    else
      var (a, ts') := Eval(w, plan.abort.value, ts, now);
      (if a.True? then Aborting(plan, v, at) else v, ts')
  }

  /** The current stage runs when its condition holds, or is given up in time. */
  function StagePart(fleet: Fleet, plan: SimPlan, w: World, v: Progress, ts: Timers, at: int, now: int): (Progress, Timers) {
    if v.aborted || v.currentStage >= |plan.stages| then (v, ts)
    else
      var stage := plan.stages[v.currentStage];
      var (when, ts') := Eval(w, stage.when, ts, now);
      (if when.True? then PassedOn(fleet, plan, v, Passed(true, at))
       else if StageTimedOut(stage, at, v.enteredAt) then PassedOn(fleet, plan, v, Passed(false, at))
       else v,
       ts')
  }

  /** The gate is asked once the shutdown is over, one way or the other. */
  function GatePart(plan: SimPlan, w: World, v: Progress, ts: Timers, at: int, now: int): (Progress, Timers, bool) {
    if !v.aborted && v.currentStage < |plan.stages| then (v, ts, false)
    else
      var (g, ts') := Eval(w, plan.gate, ts, now);
      if !g.True? then (v, ts', false)
      else (v.(result := v.result.(wakeGates := v.result.wakeGates + [Event(at, "", plan.name, [])], completed := true)), ts', true)
  }

  /** What the plan does in one tick. */
  function Acted(fleet: Fleet, plan: SimPlan, w: World, v: Progress, ts: Timers, at: int, now: int): (Progress, Timers, bool) {
    if !v.triggered then
      var (t, ts') := Eval(w, plan.trigger, ts, now);
      (Triggering(plan, v, at, t), ts', false)
    else
      var (v1, ts1) := AbortPart(plan, w, v, ts, at, now);
      var (v2, ts2) := StagePart(fleet, plan, w, v1, ts1, at, now);
      GatePart(plan, w, v2, ts2, at, now)
  }

  /** How many events are due by `at`. */
  function Due(events: seq<TimelineEvent>, from: nat, at: int): (n: nat)
    requires from <= |events|
    ensures from <= n <= |events|
    decreases |events| - from
  {
    if from < |events| && events[from].at <= at then Due(events, from + 1, at) else from
  }

  function WorldOf(setting: Setting, r: Readings): World {
    World(r, setting.show, setting.template(r))
  }

  function Ticked(setting: Setting, plan: SimPlan, events: seq<TimelineEvent>, base: int, s: Sim, at: int): Sim
    requires s.eventIdx <= |events|
  {
    var now, n := base + at, Due(events, s.eventIdx, at);
    var readings := Refreshed(Reported(s.readings, Holding(events[..n]), now), now);
    var w := WorldOf(setting, readings);
    var (v, ts, finished) := Acted(setting.fleet, plan, w, s.v, s.timers, at, now);
    Sim(readings, ts, v, n, finished)
  }

  function Started(setting: Setting, timeline: Timeline): Sim {
    Sim(Declared(timeline.events, setting.poll), Timers(map[], map[], false), FRESH, 0, false)
  }

  /** The result of ticking on from `at`. */
  function Replayed(setting: Setting, plan: SimPlan, timeline: Timeline, base: int, s: Sim, at: int): Result
    requires timeline.step > 0 && s.eventIdx <= |timeline.events|
    decreases timeline.duration - at
  {
    if at > timeline.duration then s.v.result
    else
      var s' := Ticked(setting, plan, timeline.events, base, s, at);
      if s'.finished then s'.v.result else Replayed(setting, plan, timeline, base, s', at + timeline.step)
  }

  // ---------------------------------------------------------------------
  // The simulation as the program runs it.

  /** Applies the timeline events due by `at`. */
  method ApplyDue(events: seq<TimelineEvent>, from: nat, held: map<string, Value>, at: int)
    returns (next: nat, current: map<string, Value>)
    requires from <= |events| && held == Holding(events[..from])
    ensures next == Due(events, from, at) && current == Holding(events[..next])
  {
    next, current := from, held;
    while next < |events| && events[next].at <= at
      invariant from <= next <= |events| && current == Holding(events[..next])
      invariant Due(events, next, at) == Due(events, from, at)
    {
      var e := events[next];
      assert events[..next + 1][..next] == events[..next];
      current := if e.value.Nil? then current - {e.fact} else current[e.fact := Normalised(e.value)];
      next := next + 1;
    }
  }

  method Dispatch(fleet: Fleet, plan: SimPlan, v: Progress, at: int) returns (v': Progress)
    requires v.currentStage < |plan.stages| && (v.crossed <==> v.result.ponr != [])
    ensures v' == PassedOn(fleet, plan, v, Passed(true, at))
  {
    var stage := plan.stages[v.currentStage];
    var r, crossed := v.result, v.crossed;
    if stage.ponr && !crossed {
      crossed := true;
      r := r.(ponr := r.ponr + [Event(at, stage.name, "", [])]);
    }
    var clients := ResolveClientRefs(fleet, stage.clients);
    r := r.(stages := r.stages + [Event(at, stage.name, "", clients)], shutdownOrder := r.shutdownOrder + clients);
    v' := v.(result := r, crossed := crossed, currentStage := v.currentStage + 1, enteredAt := at);
  }

  method GiveUp(fleet: Fleet, plan: SimPlan, v: Progress, at: int) returns (v': Progress)
    requires v.currentStage < |plan.stages|
    ensures v' == PassedOn(fleet, plan, v, Passed(false, at))
  {
    var stage, r := plan.stages[v.currentStage], v.result;
    var clients := ResolveClientRefs(fleet, stage.clients);
    r := r.(skipped := r.skipped + [Event(at, stage.name, SKIPPED, clients)], notShutDown := r.notShutDown + clients);
    v' := v.(result := r, currentStage := v.currentStage + 1, enteredAt := at);
  }

  method AbortTurn(plan: SimPlan, v: Progress, evaluator: Evaluator, w: World, at: int, now: int) returns (v': Progress)
    modifies evaluator
    ensures (v', evaluator.State()) == AbortPart(plan, w, v, old(evaluator.State()), at, now)
  {
    v' := v;
    if !v.aborted && !v.crossed && plan.abort.Some? {
      var a := evaluator.Evaluate(w, plan.abort.value, now);
      if a == True {
        v' := v.(aborted := true, result := v.result.(aborts := v.result.aborts + [Event(at, "", plan.name, [])]));
      }
    }
  }

  method StageTurn(fleet: Fleet, plan: SimPlan, v: Progress, evaluator: Evaluator, w: World, at: int, now: int)
    returns (v': Progress)
    requires v.crossed <==> v.result.ponr != []
    modifies evaluator
    ensures (v', evaluator.State()) == StagePart(fleet, plan, w, v, old(evaluator.State()), at, now)
  {
    v' := v;
    if !v.aborted && v.currentStage < |plan.stages| {
      var stage := plan.stages[v.currentStage];
      var when := evaluator.Evaluate(w, stage.when, now);
      if when == True {
        v' := Dispatch(fleet, plan, v, at);
      } else if StageTimedOut(stage, at, v.enteredAt) {
        v' := GiveUp(fleet, plan, v, at);
      }
    }
  }

  method GateTurn(plan: SimPlan, v: Progress, evaluator: Evaluator, w: World, at: int, now: int)
    returns (v': Progress, finished: bool)
    modifies evaluator
    ensures (v', evaluator.State(), finished) == GatePart(plan, w, v, old(evaluator.State()), at, now)
  {
    v', finished := v, false;
    if v.aborted || v.currentStage >= |plan.stages| {
      var g := evaluator.Evaluate(w, plan.gate, now);
      if g == True {
        var r := v.result;
        v' := v.(result := r.(wakeGates := r.wakeGates + [Event(at, "", plan.name, [])], completed := true));
        finished := true;
      }
    }
  }

  method Act(fleet: Fleet, plan: SimPlan, v: Progress, evaluator: Evaluator, w: World, at: int, now: int)
    returns (v': Progress, finished: bool)
    requires v.crossed <==> v.result.ponr != []
    modifies evaluator
    ensures (v', evaluator.State(), finished) == Acted(fleet, plan, w, v, old(evaluator.State()), at, now)
    ensures v'.crossed <==> v'.result.ponr != []
  {
    v', finished := v, false;
    if !v.triggered {
      var t := evaluator.Evaluate(w, plan.trigger, now);
      if t == True {
        v' := v.(triggered := true, enteredAt := at,
                 result := v.result.(triggers := v.result.triggers + [Event(at, "", plan.name, [])]));
      }
    } else {
      v' := AbortTurn(plan, v, evaluator, w, at, now);
      v' := StageTurn(fleet, plan, v', evaluator, w, at, now);
      v', finished := GateTurn(plan, v', evaluator, w, at, now);
    }
  }

  /** One tick: the due events, the reports, then the plan. */
  method Tick(setting: Setting, plan: SimPlan, events: seq<TimelineEvent>, base: int, store: Store, evaluator: Evaluator,
              v: Progress, from: nat, held: map<string, Value>, at: int)
    returns (v': Progress, next: nat, current: map<string, Value>, finished: bool)
    requires from <= |events| && held == Holding(events[..from]) && (v.crossed <==> v.result.ponr != [])
    modifies store, evaluator
    ensures next <= |events| && current == Holding(events[..next]) && (v'.crossed <==> v'.result.ponr != [])
    ensures Sim(store.Contents(), evaluator.State(), v', next, finished) ==
      Ticked(setting, plan, events, base, Sim(old(store.Contents()), old(evaluator.State()), v, from, false), at)
  {
    var now := base + at;
    next, current := ApplyDue(events, from, held, at);
    Report(store, current, now);
    var w := WorldOf(setting, Readings(store.facts, store.polls));
    v', finished := Act(setting.fleet, plan, v, evaluator, w, at, now);
  }

  /** The replay: it ends for every plan and every timeline with a positive step,
      fails only on an unqualified fact, and otherwise reports what ticking through
      the timeline amounts to, consistently. */
  method Run(setting: Setting, plan: SimPlan, timeline: Timeline, base: int) returns (outcome: Option<Result>)
    requires timeline.step > 0
    ensures outcome.Some? <==> forall e | e in timeline.events :: Qualified(e.fact)
    ensures outcome.Some? ==>
      outcome.value == Replayed(setting, plan, timeline, base, Started(setting, timeline), 0)
  {
    var built := BuildStore(timeline.events, setting.poll);
    if built.None? {
      return None;
    }
    var store := built.value;
    var evaluator := new Evaluator();
    var v, at := FRESH, 0;
    var eventIdx: nat := 0;
    var current: map<string, Value> := map[];
    ghost var whole := Replayed(setting, plan, timeline, base, Started(setting, timeline), 0);
    while at <= timeline.duration
      invariant eventIdx <= |timeline.events| && current == Holding(timeline.events[..eventIdx])
      invariant fresh(store) && fresh(evaluator) && (v.crossed <==> v.result.ponr != [])
      invariant Replayed(setting, plan, timeline, base, Sim(store.Contents(), evaluator.State(), v, eventIdx, false), at) == whole
      decreases timeline.duration - at
    {
      var finished;
      v, eventIdx, current, finished :=
        Tick(setting, plan, timeline.events, base, store, evaluator, v, eventIdx, current, at);
      if finished {
        return Some(v.result);
      }
      at := at + timeline.step;
    }
    outcome := Some(v.result);
  }
}

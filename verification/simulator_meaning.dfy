/** Why a replay reports what it reports: every trigger, stage, abort and gate is
    traced to what its condition said, tick by tick, on what the timeline says the
    sources reported. */
module SimulatorMeaning {
  import opened Options
  import opened Facts
  import opened Conditions
  import opened Explaining
  import opened Plans
  import opened SensorLoss
  import opened Simulator
  import opened SimulatorTheorems

  // ---------------------------------------------------------------------
  // Looks.

  /** What the stage being waited for said. */
  datatype Wait = Wait(i: nat, when: Trilean)

  /** One tick: which conditions were asked, and what they said. */
  datatype Look = Look(at: int, trigger: Option<Trilean>, abort: Option<Trilean>, stage: Option<Wait>, gate: Option<Trilean>)

  predicate Sensible(plan: SimPlan, look: Look) {
    (look.abort.Some? ==> plan.abort.Some?) && (look.stage.Some? ==> look.stage.value.i < |plan.stages|)
  }

  /** What the store holds after these ticks: a fact is reported at each tick at
      which the timeline has it hold a value, and ages otherwise. */
  function Sensed(setting: Setting, events: seq<TimelineEvent>, base: int, looks: seq<Look>): Readings {
    if looks == [] then Declared(events, setting.poll)
    else
      SensedNext(Sensed(setting, events, base, looks[..|looks| - 1]), events, base, looks[|looks| - 1].at)
  }

  function SensedNext(r: Readings, events: seq<TimelineEvent>, base: int, at: int): Readings {
    Refreshed(Reported(r, Holding(events[..Due(events, 0, at)]), base + at), base + at)
  }

  function Asking(asked: bool, w: World, c: Cond, ts: Timers, now: int): Timers {
    if asked then Eval(w, c, ts, now).1 else ts
  }

  /** The timers after the questions of one tick, in the order they are asked. */
  function AfterTrigger(plan: SimPlan, w: World, ts: Timers, look: Look, now: int): Timers {
    Asking(look.trigger.Some?, w, plan.trigger, ts, now)
  }

  function AfterAbort(plan: SimPlan, w: World, ts: Timers, look: Look, now: int): Timers
    requires Sensible(plan, look)
  {
    var ts1 := AfterTrigger(plan, w, ts, look, now);
    if look.abort.Some? then Eval(w, plan.abort.value, ts1, now).1 else ts1
  }

  function AfterStage(plan: SimPlan, w: World, ts: Timers, look: Look, now: int): Timers
    requires Sensible(plan, look)
  {
    var ts2 := AfterAbort(plan, w, ts, look, now);
    if look.stage.Some? then Eval(w, plan.stages[look.stage.value.i].when, ts2, now).1 else ts2
  }

  function AfterLook(plan: SimPlan, w: World, ts: Timers, look: Look, now: int): Timers
    requires Sensible(plan, look)
  {
    Asking(look.gate.Some?, w, plan.gate, AfterStage(plan, w, ts, look, now), now)
  }

  /** Every answer of the tick is what its condition evaluates to there. */
  predicate Genuine(plan: SimPlan, w: World, ts: Timers, look: Look, now: int) {
    && Sensible(plan, look)
    && (look.trigger.Some? ==> look.trigger.value == Eval(w, plan.trigger, ts, now).0)
    && (look.abort.Some? ==> look.abort.value == Eval(w, plan.abort.value, AfterTrigger(plan, w, ts, look, now), now).0)
    && (look.stage.Some? ==>
        look.stage.value.when == Eval(w, plan.stages[look.stage.value.i].when, AfterAbort(plan, w, ts, look, now), now).0)
    && (look.gate.Some? ==> look.gate.value == Eval(w, plan.gate, AfterStage(plan, w, ts, look, now), now).0)
  }

  const NO_DWELL := Timers(map[], map[], false)

  /** The timers after these ticks. */
  function Dwelt(setting: Setting, plan: SimPlan, events: seq<TimelineEvent>, base: int, looks: seq<Look>): Timers {
    if looks == [] then NO_DWELL
    else
      var ts, look := Dwelt(setting, plan, events, base, looks[..|looks| - 1]), looks[|looks| - 1];
      if Sensible(plan, look) then AfterLook(plan, WorldOf(setting, Sensed(setting, events, base, looks)), ts, look, base + look.at) else ts
  }

  /** The `k`-th tick, on what the timeline and the ticks before it imply. */
  ghost predicate GenuineAt(setting: Setting, plan: SimPlan, events: seq<TimelineEvent>, base: int, looks: seq<Look>, k: int)
    requires 0 <= k < |looks|
  {
    Genuine(plan, WorldOf(setting, Sensed(setting, events, base, looks[..k + 1])),
            Dwelt(setting, plan, events, base, looks[..k]), looks[k], base + looks[k].at)
  }

  // ---------------------------------------------------------------------
  // What a result must look like, given the answers.

  /** How many stages were passed before `t`. */
  function StageAt(done: seq<Passed>, t: int): nat {
    if done == [] then 0 else if done[|done| - 1].at < t then |done| else StageAt(done[..|done| - 1], t)
  }

  predicate Happened(es: seq<Event>, t: int) {
    exists i | 0 <= i < |es| :: es[i].at == t
  }

  predicate HappenedBefore(es: seq<Event>, t: int) {
    exists i | 0 <= i < |es| :: es[i].at < t
  }

  /** The abort condition is asked from the trigger on, until it holds or a stage
      past the point of no return has run; an abort is reported exactly at the tick
      at which it holds. */
  predicate AbortTold(plan: SimPlan, r: Result, look: Look) {
    && (look.abort.Some? <==> plan.abort.Some? && !HappenedBefore(r.aborts, look.at) && !HappenedBefore(r.ponr, look.at))
    && (look.abort == Some(True) <==> Happened(r.aborts, look.at))
  }

  /** The stage whose turn it is is asked until an abort; it runs exactly at the tick
      at which its condition holds, and is given up exactly at the one at which it
      does not and the wait has timed out. */
  predicate StageTold(plan: SimPlan, r: Result, done: seq<Passed>, trigger: int, look: Look) {
    var i := StageAt(done, look.at);
    && i <= |done|
    && (look.stage.Some? <==> i < |plan.stages| && !Happened(r.aborts, look.at) && !HappenedBefore(r.aborts, look.at))
    && (look.stage.Some? ==>
        var v := look.stage.value.when;
        && look.stage.value.i == i
        && (v.True? <==> i < |done| && done[i] == Passed(true, look.at))
        && (!v.True? && StageTimedOut(plan.stages[i], look.at, Since(done, trigger, i)) <==>
            i < |done| && done[i] == Passed(false, look.at)))
  }

  /** The gate is asked once there has been an abort or every stage has been passed;
      the replay completes exactly at the tick at which it holds. */
  predicate GateTold(plan: SimPlan, r: Result, done: seq<Passed>, look: Look) {
    && (look.gate.Some? <==>
        || Happened(r.aborts, look.at) || HappenedBefore(r.aborts, look.at)
        || (|done| == |plan.stages| && forall i | 0 <= i < |done| :: done[i].at <= look.at))
    && (look.gate == Some(True) <==> Happened(r.wakeGates, look.at))
  }

  /** Until it holds for the first time only the trigger is asked, and it is reported
      exactly then. */
  predicate Told(plan: SimPlan, r: Result, done: seq<Passed>, trigger: int, look: Look) {
    if r.triggers == [] || look.at <= trigger then
      && look.trigger.Some? && look.abort.None? && look.stage.None? && look.gate.None?
      && (look.trigger.value.True? <==> r.triggers != [] && look.at == trigger)
    else look.trigger.None? && AbortTold(plan, r, look) && StageTold(plan, r, done, trigger, look) && GateTold(plan, r, done, look)
  }

  /** The ticks are one step apart from the start. */
  predicate Clocked(looks: seq<Look>, step: int) {
    (looks != [] ==> looks[0].at == 0) && forall k | 0 < k < |looks| :: looks[k].at == looks[k - 1].at + step
  }

  /** They go on to the end of the timeline, or to the tick that completes it. */
  predicate Covers(looks: seq<Look>, timeline: Timeline, r: Result) {
    if looks == [] then timeline.duration < 0
    else
      var last := looks[|looks| - 1];
      last.at <= timeline.duration && (last.gate == Some(True) || last.at + timeline.step > timeline.duration)
  }

  // ---------------------------------------------------------------------
  // What was told stays true as the result grows.

  /** From one result to another only with what happens from `t` on. */
  predicate GrowsFrom(es: seq<Event>, es': seq<Event>, t: int) {
    es <= es' && forall i | |es| <= i < |es'| :: es'[i].at >= t
  }

  predicate DoneFrom(done: seq<Passed>, done': seq<Passed>, t: int) {
    done' == done || (|done'| == |done| + 1 && done == done'[..|done|] && done'[|done|].at >= t)
  }

  predicate Later(r: Result, done: seq<Passed>, trigger: int, r': Result, done': seq<Passed>, trigger': int, t: int) {
    && (if r.triggers == [] then r'.triggers != [] ==> trigger' >= t else r'.triggers != [] && trigger' == trigger)
    && GrowsFrom(r.aborts, r'.aborts, t) && GrowsFrom(r.ponr, r'.ponr, t) && GrowsFrom(r.wakeGates, r'.wakeGates, t)
    && DoneFrom(done, done', t)
  }

  lemma HappenedStays(es: seq<Event>, es': seq<Event>, t: int, s: int)
    requires GrowsFrom(es, es', t) && s < t
    ensures Happened(es', s) <==> Happened(es, s)
    ensures HappenedBefore(es', s) <==> HappenedBefore(es, s)
  {
    if Happened(es, s) {
      var i :| 0 <= i < |es| && es[i].at == s;
      assert es'[i].at == s;
    }
    if HappenedBefore(es, s) {
      var i :| 0 <= i < |es| && es[i].at < s;
      assert es'[i].at < s;
    }
  }

  lemma ToldStays(plan: SimPlan, r: Result, done: seq<Passed>, trigger: int, r': Result, done': seq<Passed>, trigger': int, t: int, look: Look)
    requires Told(plan, r, done, trigger, look) && Later(r, done, trigger, r', done', trigger', t) && look.at < t
    requires |done'| <= |plan.stages|
    ensures Told(plan, r', done', trigger', look)
  {
    HappenedStays(r.aborts, r'.aborts, t, look.at);
    HappenedStays(r.ponr, r'.ponr, t, look.at);
    HappenedStays(r.wakeGates, r'.wakeGates, t, look.at);
    if r.triggers != [] && look.at > trigger && done' != done {
      var p := done'[|done|];
      assert done' == done + [p];
      StageStays(plan, r, done, trigger, r', p, t, look);
      GateStays(plan, r, done, r', p, t, look);
    }
  }

  lemma StageStays(plan: SimPlan, r: Result, done: seq<Passed>, trigger: int, r': Result, p: Passed, t: int, look: Look)
    requires StageTold(plan, r, done, trigger, look) && look.at < t <= p.at
    requires Happened(r'.aborts, look.at) <==> Happened(r.aborts, look.at)
    requires HappenedBefore(r'.aborts, look.at) <==> HappenedBefore(r.aborts, look.at)
    ensures StageTold(plan, r', done + [p], trigger, look)
  {
    assert (done + [p])[..|done|] == done;
    assert Since(done + [p], trigger, StageAt(done, look.at)) == Since(done, trigger, StageAt(done, look.at));
  }

  lemma GateStays(plan: SimPlan, r: Result, done: seq<Passed>, r': Result, p: Passed, t: int, look: Look)
    requires GateTold(plan, r, done, look) && look.at < t <= p.at && |done| < |plan.stages|
    requires Happened(r'.aborts, look.at) <==> Happened(r.aborts, look.at)
    requires HappenedBefore(r'.aborts, look.at) <==> HappenedBefore(r.aborts, look.at)
    requires Happened(r'.wakeGates, look.at) <==> Happened(r.wakeGates, look.at)
    ensures GateTold(plan, r', done + [p], look)
  {
    assert (done + [p])[|done|] == p;
  }

  // ---------------------------------------------------------------------
  // One tick.

  function LookOf(fleet: Fleet, plan: SimPlan, w: World, v: Progress, ts: Timers, at: int, now: int): Look {
    if !v.triggered then Look(at, Some(Eval(w, plan.trigger, ts, now).0), None, None, None)
    else
      var (v1, ts1) := AbortPart(plan, w, v, ts, at, now);
      var (v2, ts2) := StagePart(fleet, plan, w, v1, ts1, at, now);
      Look(at, None,
           if !v.aborted && !v.crossed && plan.abort.Some? then Some(Eval(w, plan.abort.value, ts, now).0) else None,
           if !v1.aborted && v1.currentStage < |plan.stages|
           then Some(Wait(v1.currentStage, Eval(w, plan.stages[v1.currentStage].when, ts1, now).0)) else None,
           if v2.aborted || v2.currentStage >= |plan.stages| then Some(Eval(w, plan.gate, ts2, now).0) else None)
  }

  lemma LookIsGenuine(fleet: Fleet, plan: SimPlan, w: World, v: Progress, ts: Timers, at: int, now: int)
    ensures var look := LookOf(fleet, plan, w, v, ts, at, now);
      && Genuine(plan, w, ts, look, now)
      && AfterLook(plan, w, ts, look, now) == Acted(fleet, plan, w, v, ts, at, now).1
  {
  }

  lemma AllDoneBefore(r: Result, done: seq<Passed>, trigger: int, t: int)
    requires AllBefore(r, done, trigger, t)
    ensures StageAt(done, t) == |done| && forall i | 0 <= i < |done| :: done[i].at < t
  {
    if done != [] {
      assert done[|done| - 1] in done;
    }
  }

  lemma {:induction false} CrossingTimes(stages: seq<SimStage>, done: seq<Passed>, t: int)
    requires |done| <= |stages| && forall i | 0 <= i < |done| :: done[i].at < t
    ensures forall i | 0 <= i < |Crossing(stages, done)| :: Crossing(stages, done)[i].at < t
  {
    if done != [] {
      CrossingTimes(stages, done[..|done| - 1], t);
    }
  }

  lemma CrossedEarlier(plan: SimPlan, r: Result, done: seq<Passed>, trigger: int, t: int)
    requires AllBefore(r, done, trigger, t) && |done| <= |plan.stages| && r.ponr == Crossing(plan.stages, done)
    ensures forall i | 0 <= i < |r.ponr| :: r.ponr[i].at < t
  {
    AllDoneBefore(r, done, trigger, t);
    CrossingTimes(plan.stages, done, t);
  }

  /** The aborts after a tick, against those before it. */
  lemma AbortsNow(plan: SimPlan, w: World, v: Progress, ts: Timers, at: int, now: int, aborts: seq<Event>)
    requires (v.aborted <==> v.result.aborts != []) && forall i | 0 <= i < |v.result.aborts| :: v.result.aborts[i].at < at
    requires aborts == AbortPart(plan, w, v, ts, at, now).0.result.aborts
    ensures GrowsFrom(v.result.aborts, aborts, at)
    ensures HappenedBefore(aborts, at) <==> v.aborted
    ensures Happened(aborts, at) <==>
      !v.aborted && !v.crossed && plan.abort.Some? && Eval(w, plan.abort.value, ts, now).0.True?
    ensures AbortPart(plan, w, v, ts, at, now).0.aborted <==> Happened(aborts, at) || HappenedBefore(aborts, at)
  {
    if v.aborted {
      assert aborts[0].at < at;
    } else if aborts != [] {
      assert aborts[0].at == at;
    }
  }

  /** The abort part of a tick. */
  lemma AbortTells(fleet: Fleet, plan: SimPlan, w: World, v: Progress, ts: Timers, at: int, now: int,
                   done: seq<Passed>, trigger: int, r': Result)
    requires Ticking(fleet, plan, v, done, trigger, at) && v.triggered
    requires r'.aborts == AbortPart(plan, w, v, ts, at, now).0.result.aborts && GrowsFrom(v.result.ponr, r'.ponr, at)
    ensures AbortTold(plan, r', LookOf(fleet, plan, w, v, ts, at, now))
    ensures GrowsFrom(v.result.aborts, r'.aborts, at)
    ensures AbortPart(plan, w, v, ts, at, now).0.aborted <==> Happened(r'.aborts, at) || HappenedBefore(r'.aborts, at)
  {
    assert forall i | 0 <= i < |v.result.aborts| :: v.result.aborts[i] in v.result.aborts && v.result.aborts[i].at < at;
    CrossedEarlier(plan, v.result, done, trigger, at);
    PonrBefore(v.result.ponr, r'.ponr, at);
    AbortsNow(plan, w, v, ts, at, now, r'.aborts);
  }

  lemma PonrBefore(es: seq<Event>, es': seq<Event>, t: int)
    requires GrowsFrom(es, es', t) && forall i | 0 <= i < |es| :: es[i].at < t
    ensures HappenedBefore(es', t) <==> es != []
  {
    if es != [] {
      assert es'[0].at < t;
    }
  }

  /** The stage part of a tick. */
  lemma StageTells(fleet: Fleet, plan: SimPlan, w: World, v: Progress, ts: Timers, at: int, now: int,
                   done: seq<Passed>, trigger: int, r': Result)
    requires Ticking(fleet, plan, v, done, trigger, at) && v.triggered
    requires var v1 := AbortPart(plan, w, v, ts, at, now).0;
      v1.aborted <==> Happened(r'.aborts, at) || HappenedBefore(r'.aborts, at)
    ensures var (v1, ts1) := AbortPart(plan, w, v, ts, at, now);
      var done' := DoneAfter(plan, w, v1, ts1, at, now, done);
      && StageTold(plan, r', done', trigger, LookOf(fleet, plan, w, v, ts, at, now))
      && DoneFrom(done, done', at) && forall i | 0 <= i < |done'| :: done'[i].at <= at
  {
    var (v1, ts1) := AbortPart(plan, w, v, ts, at, now);
    var done' := DoneAfter(plan, w, v1, ts1, at, now, done);
    AllDoneBefore(v.result, done, trigger, at);
    if done' != done {
      assert done'[..|done|] == done;
      assert Since(done', trigger, |done|) == Since(done, trigger, |done|);
    }
  }

  lemma StageGrows(fleet: Fleet, plan: SimPlan, w: World, v: Progress, ts: Timers, at: int, now: int)
    ensures var v2 := StagePart(fleet, plan, w, v, ts, at, now).0;
      && v2.result.aborts == v.result.aborts && v2.result.wakeGates == v.result.wakeGates && v2.result.triggers == v.result.triggers
      && GrowsFrom(v.result.ponr, v2.result.ponr, at) && v2.aborted == v.aborted
  {
  }

  lemma AbortGrows(plan: SimPlan, w: World, v: Progress, ts: Timers, at: int, now: int)
    ensures var v1 := AbortPart(plan, w, v, ts, at, now).0;
      && v1.result.ponr == v.result.ponr && v1.result.wakeGates == v.result.wakeGates && v1.result.triggers == v.result.triggers
      && v1.currentStage == v.currentStage && v1.enteredAt == v.enteredAt && v1.triggered == v.triggered
  {
  }

  /** What a tick adds to the result. */
  lemma ActGrows(fleet: Fleet, plan: SimPlan, w: World, v: Progress, ts: Timers, at: int, now: int)
    requires v.triggered
    ensures var r' := Acted(fleet, plan, w, v, ts, at, now).0.result;
      && r'.aborts == AbortPart(plan, w, v, ts, at, now).0.result.aborts
      && r'.triggers == v.result.triggers && GrowsFrom(v.result.ponr, r'.ponr, at)
  {
    var (v1, ts1) := AbortPart(plan, w, v, ts, at, now);
    AbortGrows(plan, w, v, ts, at, now);
    StageGrows(fleet, plan, w, v1, ts1, at, now);
  }

  /** A tick after the trigger. */
  lemma TurnTells(fleet: Fleet, plan: SimPlan, w: World, v: Progress, ts: Timers, at: int, now: int,
                  done: seq<Passed>, trigger: int, done': seq<Passed>)
    requires Ticking(fleet, plan, v, done, trigger, at) && v.triggered && |done'| <= |plan.stages|
    requires var (v1, ts1) := AbortPart(plan, w, v, ts, at, now); done' == DoneAfter(plan, w, v1, ts1, at, now, done)
    ensures var v' := Acted(fleet, plan, w, v, ts, at, now).0;
      && Told(plan, v'.result, done', trigger, LookOf(fleet, plan, w, v, ts, at, now))
      && Later(v.result, done, trigger, v'.result, done', trigger, at)
  {
    var r' := Acted(fleet, plan, w, v, ts, at, now).0.result;
    ActGrows(fleet, plan, w, v, ts, at, now);
    AbortTells(fleet, plan, w, v, ts, at, now, done, trigger, r');
    StageTells(fleet, plan, w, v, ts, at, now, done, trigger, r');
    PassedNow(fleet, plan, w, v, ts, at, now, done, trigger, r', done');
    GateTells(fleet, plan, w, v, ts, at, now, done', r');
  }

  lemma PassedNow(fleet: Fleet, plan: SimPlan, w: World, v: Progress, ts: Timers, at: int, now: int,
                  done: seq<Passed>, trigger: int, r': Result, done': seq<Passed>)
    requires Ticking(fleet, plan, v, done, trigger, at) && v.triggered
    requires var (v1, ts1) := AbortPart(plan, w, v, ts, at, now); done' == DoneAfter(plan, w, v1, ts1, at, now, done)
    ensures var (v1, ts1) := AbortPart(plan, w, v, ts, at, now);
      var v2 := StagePart(fleet, plan, w, v1, ts1, at, now).0;
      v2.currentStage == |done'| && v2.aborted == v1.aborted
  {
    AbortGrows(plan, w, v, ts, at, now);
  }

  lemma GateTells(fleet: Fleet, plan: SimPlan, w: World, v: Progress, ts: Timers, at: int, now: int, done': seq<Passed>, r': Result)
    requires v.triggered && v.result.wakeGates == [] && r' == Acted(fleet, plan, w, v, ts, at, now).0.result
    requires |done'| <= |plan.stages| && forall i | 0 <= i < |done'| :: done'[i].at <= at
    requires var (v1, ts1) := AbortPart(plan, w, v, ts, at, now);
      var v2 := StagePart(fleet, plan, w, v1, ts1, at, now).0;
      && v2.currentStage == |done'|
      && (v2.aborted <==> Happened(r'.aborts, at) || HappenedBefore(r'.aborts, at))
    ensures GateTold(plan, r', done', LookOf(fleet, plan, w, v, ts, at, now))
    ensures GrowsFrom(v.result.wakeGates, r'.wakeGates, at)
  {
    var (v1, ts1) := AbortPart(plan, w, v, ts, at, now);
    AbortGrows(plan, w, v, ts, at, now);
    StageGrows(fleet, plan, w, v1, ts1, at, now);
    if r'.wakeGates != [] {
      assert r'.wakeGates[0].at == at;
    }
  }

  // ---------------------------------------------------------------------
  // Whole replays.

  lemma {:induction false} DueOn(events: seq<TimelineEvent>, from: nat, a: int, b: int)
    requires from <= |events| && a <= b
    ensures Due(events, Due(events, from, a), b) == Due(events, from, b)
    decreases |events| - from
  {
    if from < |events| && events[from].at <= a {
      DueOn(events, from + 1, a, b);
    }
  }

  /** The simulation has come to `at`, and `looks` tell how. */
  ghost predicate SoFar(setting: Setting, plan: SimPlan, timeline: Timeline, base: int, s: Sim, at: int, looks: seq<Look>) {
    && s.readings == Sensed(setting, timeline.events, base, looks) && s.timers == Dwelt(setting, plan, timeline.events, base, looks)
    && s.eventIdx <= |timeline.events| && Due(timeline.events, s.eventIdx, at) == Due(timeline.events, 0, at)
    && Clocked(looks, timeline.step)
    && (if looks == [] then at == 0 else at == looks[|looks| - 1].at + timeline.step && looks[|looks| - 1].at <= timeline.duration)
    && AllGenuine(setting, plan, timeline.events, base, looks) && forall k | 0 <= k < |looks| :: looks[k].at < at
  }

  ghost predicate AllGenuine(setting: Setting, plan: SimPlan, events: seq<TimelineEvent>, base: int, looks: seq<Look>) {
    forall k | 0 <= k < |looks| :: GenuineAt(setting, plan, events, base, looks, k)
  }

  ghost predicate AllTold(plan: SimPlan, r: Result, done: seq<Passed>, trigger: int, looks: seq<Look>) {
    forall k | 0 <= k < |looks| :: Told(plan, r, done, trigger, looks[k])
  }

  lemma SensedOn(setting: Setting, events: seq<TimelineEvent>, base: int, looks: seq<Look>, look: Look)
    ensures Sensed(setting, events, base, looks + [look]) == SensedNext(Sensed(setting, events, base, looks), events, base, look.at)
  {
    assert (looks + [look])[..|looks|] == looks;
  }

  lemma DweltOn(setting: Setting, plan: SimPlan, events: seq<TimelineEvent>, base: int, looks: seq<Look>, look: Look)
    requires Sensible(plan, look)
    ensures Dwelt(setting, plan, events, base, looks + [look]) ==
      AfterLook(plan, WorldOf(setting, Sensed(setting, events, base, looks + [look])), Dwelt(setting, plan, events, base, looks), look, base + look.at)
  {
    assert (looks + [look])[..|looks|] == looks;
  }

  lemma StillGenuine(setting: Setting, plan: SimPlan, events: seq<TimelineEvent>, base: int, looks: seq<Look>, look: Look, k: nat)
    requires k < |looks| && GenuineAt(setting, plan, events, base, looks, k)
    ensures GenuineAt(setting, plan, events, base, looks + [look], k)
  {
    assert (looks + [look])[..k + 1] == looks[..k + 1] && (looks + [look])[..k] == looks[..k];
  }

  lemma NewestGenuine(setting: Setting, plan: SimPlan, events: seq<TimelineEvent>, base: int, looks: seq<Look>, look: Look)
    requires Genuine(plan, WorldOf(setting, SensedNext(Sensed(setting, events, base, looks), events, base, look.at)),
                     Dwelt(setting, plan, events, base, looks), look, base + look.at)
    ensures GenuineAt(setting, plan, events, base, looks + [look], |looks|)
  {
    SensedOn(setting, events, base, looks, look);
    assert (looks + [look])[..|looks| + 1] == looks + [look] && (looks + [look])[..|looks|] == looks;
  }

  lemma OneMoreGenuine(setting: Setting, plan: SimPlan, events: seq<TimelineEvent>, base: int, looks: seq<Look>, look: Look)
    requires AllGenuine(setting, plan, events, base, looks)
    requires Genuine(plan, WorldOf(setting, SensedNext(Sensed(setting, events, base, looks), events, base, look.at)),
                     Dwelt(setting, plan, events, base, looks), look, base + look.at)
    ensures AllGenuine(setting, plan, events, base, looks + [look])
  {
    forall k | 0 <= k < |looks + [look]| ensures GenuineAt(setting, plan, events, base, looks + [look], k) {
      if k < |looks| {
        assert GenuineAt(setting, plan, events, base, looks, k);
        StillGenuine(setting, plan, events, base, looks, look, k);
      } else {
        NewestGenuine(setting, plan, events, base, looks, look);
      }
    }
  }

  lemma OneMoreLook(setting: Setting, plan: SimPlan, timeline: Timeline, base: int, s: Sim, at: int, looks: seq<Look>, look: Look, s': Sim)
    requires SoFar(setting, plan, timeline, base, s, at, looks) && timeline.step > 0 && at <= timeline.duration && look.at == at
    requires s'.readings == SensedNext(s.readings, timeline.events, base, at) && s'.eventIdx == Due(timeline.events, 0, at)
    requires Genuine(plan, WorldOf(setting, s'.readings), s.timers, look, base + at)
    requires s'.timers == AfterLook(plan, WorldOf(setting, s'.readings), s.timers, look, base + at)
    ensures SoFar(setting, plan, timeline, base, s', at + timeline.step, looks + [look])
  {
    SensedOn(setting, timeline.events, base, looks, look);
    DweltOn(setting, plan, timeline.events, base, looks, look);
    DueOn(timeline.events, 0, at, at + timeline.step);
    OneMoreGenuine(setting, plan, timeline.events, base, looks, look);
  }

  lemma OneMoreTold(plan: SimPlan, r: Result, done: seq<Passed>, trigger: int, r': Result, done': seq<Passed>, trigger': int,
                    looks: seq<Look>, look: Look)
    requires AllTold(plan, r, done, trigger, looks) && Told(plan, r', done', trigger', look)
    requires Later(r, done, trigger, r', done', trigger', look.at) && |done'| <= |plan.stages|
    requires forall k | 0 <= k < |looks| :: looks[k].at < look.at
    ensures AllTold(plan, r', done', trigger', looks + [look])
  {
    forall k | 0 <= k < |looks| ensures Told(plan, r', done', trigger', looks[k]) {
      ToldStays(plan, r, done, trigger, r', done', trigger', look.at, looks[k]);
    }
  }

  /** Before the trigger. */
  lemma TriggerTells(fleet: Fleet, plan: SimPlan, w: World, v: Progress, ts: Timers, at: int, now: int)
    requires v == FRESH
    ensures var (v', ts', finished) := Acted(fleet, plan, w, v, ts, at, now);
      var look := LookOf(fleet, plan, w, v, ts, at, now);
      && Told(plan, v'.result, [], at, look) && Later(v.result, [], at, v'.result, [], at, at)
      && !finished && look.gate.None?
  {
  }

  /** The gate alone ends a replay. */
  lemma GateEnds(fleet: Fleet, plan: SimPlan, w: World, v: Progress, ts: Timers, at: int, now: int)
    requires v.triggered
    ensures Acted(fleet, plan, w, v, ts, at, now).2 <==> LookOf(fleet, plan, w, v, ts, at, now).gate == Some(True)
  {
  }

  /** One tick, told. */
  lemma TickTells(fleet: Fleet, plan: SimPlan, w: World, v: Progress, ts: Timers, at: int, now: int, done: seq<Passed>, trigger: int)
    returns (done': seq<Passed>, trigger': int)
    requires Ticking(fleet, plan, v, done, trigger, at)
    ensures var (v', ts', finished) := Acted(fleet, plan, w, v, ts, at, now);
      var look := LookOf(fleet, plan, w, v, ts, at, now);
      && |done'| <= |plan.stages| && Told(plan, v'.result, done', trigger', look)
      && Later(v.result, done, trigger, v'.result, done', trigger', at)
      && (v'.result.triggers != [] ==> Accounts(fleet, plan, v'.result, done', trigger'))
      && (finished <==> look.gate == Some(True))
      && (!finished ==> Ticking(fleet, plan, v', done', trigger', at + 1))
  {
    done', trigger' := ActPasses(fleet, plan, w, v, ts, at, now, done, trigger);
    AccountedNow(fleet, plan, w, v, ts, at, now, done', trigger');
    if v.triggered {
      TurnTells(fleet, plan, w, v, ts, at, now, done, trigger, done');
      GateEnds(fleet, plan, w, v, ts, at, now);
    } else {
      TriggerTells(fleet, plan, w, v, ts, at, now);
    }
  }

  lemma AccountedNow(fleet: Fleet, plan: SimPlan, w: World, v: Progress, ts: Timers, at: int, now: int, done': seq<Passed>, trigger': int)
    requires var (v', ts', finished) := Acted(fleet, plan, w, v, ts, at, now);
      && (finished ==> Accounts(fleet, plan, v'.result, done', trigger'))
      && (!finished ==> Ticking(fleet, plan, v', done', trigger', at + 1))
    ensures var v' := Acted(fleet, plan, w, v, ts, at, now).0;
      |done'| <= |plan.stages| && (v'.result.triggers != [] ==> Accounts(fleet, plan, v'.result, done', trigger'))
  {
  }

  ghost predicate TickedOn(setting: Setting, plan: SimPlan, timeline: Timeline, base: int, s': Sim, at: int,
                           done': seq<Passed>, trigger': int, looks: seq<Look>, look: Look)
  {
    && SoFar(setting, plan, timeline, base, s', at + timeline.step, looks + [look])
    && AllTold(plan, s'.v.result, done', trigger', looks + [look])
    && (s'.v.result.triggers != [] ==> Accounts(setting.fleet, plan, s'.v.result, done', trigger'))
    && (s'.finished <==> look.gate == Some(True))
    && (!s'.finished ==> Ticking(setting.fleet, plan, s'.v, done', trigger', at + 1))
  }

  lemma SimLooks(setting: Setting, plan: SimPlan, timeline: Timeline, base: int, s: Sim, at: int, looks: seq<Look>, s': Sim)
    requires timeline.step > 0 && SoFar(setting, plan, timeline, base, s, at, looks) && at <= timeline.duration
    requires s'.readings == SensedNext(s.readings, timeline.events, base, at) && s'.eventIdx == Due(timeline.events, 0, at)
    requires s'.timers == Acted(setting.fleet, plan, WorldOf(setting, s'.readings), s.v, s.timers, at, base + at).1
    ensures SoFar(setting, plan, timeline, base, s', at + timeline.step,
                  looks + [LookOf(setting.fleet, plan, WorldOf(setting, s'.readings), s.v, s.timers, at, base + at)])
  {
    var w, now := WorldOf(setting, s'.readings), base + at;
    var look := LookOf(setting.fleet, plan, w, s.v, s.timers, at, now);
    LookIsGenuine(setting.fleet, plan, w, s.v, s.timers, at, now);
    OneMoreLook(setting, plan, timeline, base, s, at, looks, look, s');
  }

  /** The same for a tick of the whole simulation, which leads to `s'`. */
  lemma SimTells(setting: Setting, plan: SimPlan, timeline: Timeline, base: int, s: Sim, at: int,
                 done: seq<Passed>, trigger: int, looks: seq<Look>, s': Sim) returns (look: Look, done': seq<Passed>, trigger': int)
    requires timeline.step > 0 && SoFar(setting, plan, timeline, base, s, at, looks) && at <= timeline.duration
    requires Ticking(setting.fleet, plan, s.v, done, trigger, at) && AllTold(plan, s.v.result, done, trigger, looks)
    requires s'.readings == SensedNext(s.readings, timeline.events, base, at) && s'.eventIdx == Due(timeline.events, 0, at)
    requires (s'.v, s'.timers, s'.finished) == Acted(setting.fleet, plan, WorldOf(setting, s'.readings), s.v, s.timers, at, base + at)
    ensures TickedOn(setting, plan, timeline, base, s', at, done', trigger', looks, look)
  {
    var w, now := WorldOf(setting, s'.readings), base + at;
    look := LookOf(setting.fleet, plan, w, s.v, s.timers, at, now);
    SimLooks(setting, plan, timeline, base, s, at, looks, s');
    done', trigger' := TickTells(setting.fleet, plan, w, s.v, s.timers, at, now, done, trigger);
    OneMoreTold(plan, s.v.result, done, trigger, s'.v.result, done', trigger', looks, look);
  }

  lemma TickedTo(setting: Setting, plan: SimPlan, events: seq<TimelineEvent>, base: int, s: Sim, at: int) returns (s': Sim)
    requires s.eventIdx <= |events| && Due(events, s.eventIdx, at) == Due(events, 0, at)
    ensures s' == Ticked(setting, plan, events, base, s, at)
    ensures s'.readings == SensedNext(s.readings, events, base, at) && s'.eventIdx == Due(events, 0, at)
    ensures (s'.v, s'.timers, s'.finished) == Acted(setting.fleet, plan, WorldOf(setting, s'.readings), s.v, s.timers, at, base + at)
  {
    s' := Ticked(setting, plan, events, base, s, at);
  }

  /** The simulation has come to `at` and is not over. */
  ghost predicate Telling(setting: Setting, plan: SimPlan, timeline: Timeline, base: int, s: Sim, at: int,
                          done: seq<Passed>, trigger: int, looks: seq<Look>)
  {
    && SoFar(setting, plan, timeline, base, s, at, looks)
    && Ticking(setting.fleet, plan, s.v, done, trigger, at) && AllTold(plan, s.v.result, done, trigger, looks)
  }

  lemma TellsOn(setting: Setting, plan: SimPlan, timeline: Timeline, base: int, s': Sim, at: int,
                done: seq<Passed>, trigger: int, looks: seq<Look>, look: Look)
    requires timeline.step > 0 && TickedOn(setting, plan, timeline, base, s', at, done, trigger, looks, look)
    ensures if s'.finished then Tells(setting, plan, timeline, base, s'.v.result, looks + [look], done, trigger)
      else Telling(setting, plan, timeline, base, s', at + timeline.step, done, trigger, looks + [look])
  {
    if s'.finished {
      Finished(setting, plan, timeline, base, s', at + timeline.step, done, trigger, looks + [look]);
    } else {
      TimePasses(setting.fleet, plan, s'.v, done, trigger, at + 1, at + timeline.step);
    }
  }

  lemma {:induction false} RestIsTold(setting: Setting, plan: SimPlan, timeline: Timeline, base: int, s: Sim, at: int,
                                      done: seq<Passed>, trigger: int, looks: seq<Look>)
    returns (looks': seq<Look>, done': seq<Passed>, trigger': int)
    requires timeline.step > 0 && s.eventIdx <= |timeline.events|
    requires Telling(setting, plan, timeline, base, s, at, done, trigger, looks)
    ensures Tells(setting, plan, timeline, base, Replayed(setting, plan, timeline, base, s, at), looks', done', trigger')
    decreases timeline.duration - at
  {
    if at > timeline.duration {
      looks', done', trigger' := looks, done, trigger;
      NothingMore(setting, plan, timeline, base, s, at, done, trigger, looks);
    } else {
      var s' := TickedTo(setting, plan, timeline.events, base, s, at);
      var look, d, t := SimTells(setting, plan, timeline, base, s, at, done, trigger, looks, s');
      TellsOn(setting, plan, timeline, base, s', at, d, t, looks, look);
      looks', done', trigger' := looks + [look], d, t;
      if !s'.finished {
        looks', done', trigger' := RestIsTold(setting, plan, timeline, base, s', at + timeline.step, done', trigger', looks');
      }
    }
  }

  lemma NothingMore(setting: Setting, plan: SimPlan, timeline: Timeline, base: int, s: Sim, at: int,
                    done: seq<Passed>, trigger: int, looks: seq<Look>)
    requires SoFar(setting, plan, timeline, base, s, at, looks) && at > timeline.duration
    requires Ticking(setting.fleet, plan, s.v, done, trigger, at) && AllTold(plan, s.v.result, done, trigger, looks)
    ensures Tells(setting, plan, timeline, base, s.v.result, looks, done, trigger)
  {
  }

  lemma Finished(setting: Setting, plan: SimPlan, timeline: Timeline, base: int, s: Sim, at: int,
                 done: seq<Passed>, trigger: int, looks: seq<Look>)
    requires SoFar(setting, plan, timeline, base, s, at, looks) && looks != [] && looks[|looks| - 1].gate == Some(True)
    requires s.v.result.triggers != [] ==> Accounts(setting.fleet, plan, s.v.result, done, trigger)
    requires AllTold(plan, s.v.result, done, trigger, looks)
    ensures Tells(setting, plan, timeline, base, s.v.result, looks, done, trigger)
  {
  }

  /** `looks` are the ticks of the whole replay, every answer in them is what its
      condition evaluates to on what the timeline implies, and the result is what
      the answers make it. */
  ghost predicate Tells(setting: Setting, plan: SimPlan, timeline: Timeline, base: int, r: Result,
                        looks: seq<Look>, done: seq<Passed>, trigger: int)
  {
    && Clocked(looks, timeline.step) && Covers(looks, timeline, r)
    && AllGenuine(setting, plan, timeline.events, base, looks)
    && AllTold(plan, r, done, trigger, looks)
    && (r.triggers != [] ==> Accounts(setting.fleet, plan, r, done, trigger))
  }

  /** Every replay is told by its conditions: the trigger fires at the first tick at
      which it holds; a stage runs at the first tick of its wait at which its `when`
      holds and is given up at the first at which that does not and the wait has
      timed out; an abort comes at the first tick at which its condition holds before
      the point of no return; and the replay completes at the first tick, once it
      may, at which the gate holds. */
  lemma ReplayIsTold(setting: Setting, plan: SimPlan, timeline: Timeline, base: int)
    returns (looks: seq<Look>, done: seq<Passed>, trigger: int)
    requires timeline.step > 0
    ensures Tells(setting, plan, timeline, base, Replayed(setting, plan, timeline, base, Started(setting, timeline), 0), looks, done, trigger)
  {
    looks, done, trigger := RestIsTold(setting, plan, timeline, base, Started(setting, timeline), 0, [], 0, []);
  }

  // ---------------------------------------------------------------------
  // Reading it off, stage by stage.

  lemma {:induction false} StageAtIs(done: seq<Passed>, t: int, i: nat)
    requires i <= |done| && (i > 0 ==> done[i - 1].at < t) && forall j | i <= j < |done| :: t <= done[j].at
    ensures StageAt(done, t) == i
  {
    if i < |done| {
      StageAtIs(done[..|done| - 1], t, i);
    }
  }

  lemma WaitingIs(stages: seq<SimStage>, done: seq<Passed>, trigger: int, t: int, i: nat)
    requires PassedInTime(stages, done, trigger) && i <= |done|
    requires Since(done, trigger, i) < t && (i < |done| ==> t <= done[i].at)
    ensures StageAt(done, t) == i
  {
    forall j | i <= j < |done| ensures t <= done[j].at {
      PassedLater(stages, done, trigger, i, j);
    }
    StageAtIs(done, t, i);
  }

  lemma {:induction false} PassedLater(stages: seq<SimStage>, done: seq<Passed>, trigger: int, i: nat, j: nat)
    requires PassedInTime(stages, done, trigger) && i <= j < |done|
    ensures done[i].at <= done[j].at
    decreases j - i
  {
    if i < j {
      PassedLater(stages, done, trigger, i, j - 1);
      assert InTime(stages[j], done[j], Since(done, trigger, j));
    }
  }

  lemma {:induction false} WaitsAfterTrigger(stages: seq<SimStage>, done: seq<Passed>, trigger: int, i: nat)
    requires PassedInTime(stages, done, trigger) && i <= |done|
    ensures trigger <= Since(done, trigger, i)
  {
    if i > 0 {
      WaitsAfterTrigger(stages, done, trigger, i - 1);
      assert InTime(stages[i - 1], done[i - 1], Since(done, trigger, i - 1));
    }
  }

  /** At every tick of the wait for stage `i`, its condition was asked. It was True at
      none before the last, and at the last exactly if the stage ran; where it was
      not, the stage was given up exactly when its wait had timed out. */
  lemma StageRunsExactly(setting: Setting, plan: SimPlan, timeline: Timeline, base: int, r: Result,
                         looks: seq<Look>, done: seq<Passed>, trigger: int, i: nat, k: nat)
    requires Tells(setting, plan, timeline, base, r, looks, done, trigger) && r.triggers != []
    requires k < |looks| && i < |plan.stages| && i <= |done|
    requires Since(done, trigger, i) < looks[k].at && (i < |done| ==> looks[k].at <= done[i].at)
    requires !Happened(r.aborts, looks[k].at) && !HappenedBefore(r.aborts, looks[k].at)
    ensures looks[k].stage.Some? && looks[k].stage.value.i == i
    ensures looks[k].stage.value.when.True? <==> i < |done| && done[i].ran && done[i].at == looks[k].at
    ensures i < |done| && !done[i].ran && done[i].at == looks[k].at <==>
      !looks[k].stage.value.when.True? && !plan.stages[i].hold && looks[k].at - Since(done, trigger, i) >= plan.stages[i].timeout
  {
    assert Told(plan, r, done, trigger, looks[k]);
    WaitsAfterTrigger(plan.stages, done, trigger, i);
    WaitingIs(plan.stages, done, trigger, looks[k].at, i);
  }

  lemma EvalHolds(w: World, c: Cond, ts: Timers, now: int)
    requires CreditsHold(ts.live)
    ensures CreditsHold(Eval(w, c, ts, now).1.live)
  {
    ExplainPreviewsEvaluate(w, c, ts, now);
  }

  lemma LookHolds(plan: SimPlan, w: World, ts: Timers, look: Look, now: int)
    requires Sensible(plan, look) && CreditsHold(ts.live)
    ensures CreditsHold(AfterTrigger(plan, w, ts, look, now).live) && CreditsHold(AfterAbort(plan, w, ts, look, now).live)
    ensures CreditsHold(AfterStage(plan, w, ts, look, now).live) && CreditsHold(AfterLook(plan, w, ts, look, now).live)
  {
    EvalHolds(w, plan.trigger, ts, now);
    var ts1 := AfterTrigger(plan, w, ts, look, now);
    if look.abort.Some? {
      EvalHolds(w, plan.abort.value, ts1, now);
    }
    var ts2 := AfterAbort(plan, w, ts, look, now);
    if look.stage.Some? {
      EvalHolds(w, plan.stages[look.stage.value.i].when, ts2, now);
    }
    EvalHolds(w, plan.gate, AfterStage(plan, w, ts, look, now), now);
  }

  lemma {:induction false} DweltHolds(setting: Setting, plan: SimPlan, events: seq<TimelineEvent>, base: int, looks: seq<Look>)
    ensures CreditsHold(Dwelt(setting, plan, events, base, looks).live)
  {
    if looks != [] {
      var look := looks[|looks| - 1];
      DweltHolds(setting, plan, events, base, looks[..|looks| - 1]);
      if Sensible(plan, look) {
        LookHolds(plan, WorldOf(setting, Sensed(setting, events, base, looks)),
                  Dwelt(setting, plan, events, base, looks[..|looks| - 1]), look, base + look.at);
      }
    }
  }

  /** Where a condition has no `for:`, what it said is what it says of the readings of
      that tick alone. */
  lemma PlainAnswers(setting: Setting, plan: SimPlan, events: seq<TimelineEvent>, base: int, looks: seq<Look>, k: nat)
    requires k < |looks| && GenuineAt(setting, plan, events, base, looks, k)
    ensures var w, look := WorldOf(setting, Sensed(setting, events, base, looks[..k + 1])), looks[k];
      && (look.trigger.Some? && Plain(plan.trigger) ==> look.trigger.value == Says(w, plan.trigger))
      && (look.abort.Some? && Plain(plan.abort.value) ==> look.abort.value == Says(w, plan.abort.value))
      && (look.stage.Some? && Plain(plan.stages[look.stage.value.i].when) ==>
          look.stage.value.when == Says(w, plan.stages[look.stage.value.i].when))
      && (look.gate.Some? && Plain(plan.gate) ==> look.gate.value == Says(w, plan.gate))
  {
    var w, look := WorldOf(setting, Sensed(setting, events, base, looks[..k + 1])), looks[k];
    var ts, now := Dwelt(setting, plan, events, base, looks[..k]), base + look.at;
    DweltHolds(setting, plan, events, base, looks[..k]);
    LookHolds(plan, w, ts, look, now);
    PlainSays(w, plan.trigger, ts, now);
    if look.abort.Some? {
      PlainSays(w, plan.abort.value, AfterTrigger(plan, w, ts, look, now), now);
    }
    if look.stage.Some? {
      PlainSays(w, plan.stages[look.stage.value.i].when, AfterAbort(plan, w, ts, look, now), now);
    }
    PlainSays(w, plan.gate, AfterStage(plan, w, ts, look, now), now);
  }

  lemma PlainSays(w: World, c: Cond, ts: Timers, now: int)
    requires CreditsHold(ts.live)
    ensures Plain(c) ==> Eval(w, c, ts, now).0 == Says(w, c)
  {
    if Plain(c) {
      SaysAlways(w, c, ts, now);
    }
  }

  // ---------------------------------------------------------------------
  // What the timeline implies.

  /** The events due are the first ones up to the first that is not; in a timeline in
      order, exactly those whose time has come. */
  lemma {:induction false} DueExactly(events: seq<TimelineEvent>, from: nat, at: int)
    requires from <= |events|
    ensures forall i | from <= i < Due(events, from, at) :: events[i].at <= at
    ensures Due(events, from, at) < |events| ==> events[Due(events, from, at)].at > at
    ensures (forall i, j | 0 <= i <= j < |events| :: events[i].at <= events[j].at) ==>
      forall i | from <= i < |events| :: events[i].at <= at <==> i < Due(events, from, at)
    decreases |events| - from
  {
    if from < |events| && events[from].at <= at {
      DueExactly(events, from + 1, at);
    }
  }

  /** A fact holds a value exactly when the last event about it says so. */
  lemma {:induction false} HoldingExactly(events: seq<TimelineEvent>, key: string, i: nat)
    requires i < |events| && events[i].fact == key && forall j | i < j < |events| :: events[j].fact != key
    ensures key in Holding(events) <==> events[i].value != Nil
    ensures key in Holding(events) ==> Holding(events)[key] == Normalised(events[i].value)
  {
    if i < |events| - 1 {
      HoldingExactly(events[..|events| - 1], key, i);
    }
  }

  /** The values the timeline has facts hold at tick `k`. */
  function HeldAt(events: seq<TimelineEvent>, looks: seq<Look>, k: nat): map<string, Value>
    requires k < |looks|
  {
    Holding(events[..Due(events, 0, looks[k].at)])
  }

  lemma {:induction false} SensedKeys(setting: Setting, events: seq<TimelineEvent>, base: int, looks: seq<Look>)
    ensures var r := Sensed(setting, events, base, looks);
      r.facts.Keys == FactKeys(events) && r.polls == Declared(events, setting.poll).polls
  {
    if looks != [] {
      SensedKeys(setting, events, base, looks[..|looks| - 1]);
    }
  }

  lemma Polled(setting: Setting, events: seq<TimelineEvent>, base: int, looks: seq<Look>, key: string)
    requires key in FactKeys(events)
    ensures var r := Sensed(setting, events, base, looks); var source := SourceFromKey(key);
      key in r.facts && source in r.polls && r.polls[source] == setting.poll(source)
  {
    SensedKeys(setting, events, base, looks);
    var e :| e in events && e.fact == key;
    assert SourceFromKey(key) in Sources(events);
  }

  lemma NextRead(r: Readings, events: seq<TimelineEvent>, base: int, at: int, key: string)
    requires key in r.facts
    ensures Read(SensedNext(r, events, base, at), key) ==
      RefreshedFact(Reported(r, Holding(events[..Due(events, 0, at)]), base + at), key, base + at)
  {
  }

  lemma SensedStep(setting: Setting, events: seq<TimelineEvent>, base: int, looks: seq<Look>, key: string)
    requires looks != [] && key in FactKeys(events)
    ensures var n := |looks| - 1; var before, now, held :=
        Sensed(setting, events, base, looks[..n]), base + looks[n].at, HeldAt(events, looks, n);
      && key in before.facts && SourceFromKey(key) in before.polls
      && before.polls[SourceFromKey(key)] == setting.poll(SourceFromKey(key))
      && Read(Sensed(setting, events, base, looks), key) == RefreshedFact(Reported(before, held, now), key, now)
  {
    var n := |looks| - 1;
    Polled(setting, events, base, looks[..n], key);
    NextRead(Sensed(setting, events, base, looks[..n]), events, base, looks[n].at, key);
  }

  /** A fact that holds a value at a tick is read there, good and fresh, with that
      value. */
  lemma HeldIsRead(setting: Setting, events: seq<TimelineEvent>, base: int, looks: seq<Look>, key: string)
    requires looks != [] && key in FactKeys(events) && key in HeldAt(events, looks, |looks| - 1)
    ensures var n := |looks| - 1;
      Read(Sensed(setting, events, base, looks), key) == Fact(HeldAt(events, looks, n)[key], Good, base + looks[n].at)
  {
    SensedStep(setting, events, base, looks, key);
  }

  /** One that last held a value at tick `j` is still read with that value later, as
      stale exactly once it has been silent for more than two of its source's poll
      intervals, counted as at least a second each. */
  lemma {:induction false} SilentIsRead(setting: Setting, events: seq<TimelineEvent>, base: int, looks: seq<Look>, key: string, j: nat)
    requires j < |looks| && key in FactKeys(events) && key in HeldAt(events, looks, j)
    requires forall k | j < k < |looks| :: key !in HeldAt(events, looks, k)
    ensures var age, interval := looks[|looks| - 1].at - looks[j].at, setting.poll(SourceFromKey(key));
      Read(Sensed(setting, events, base, looks), key) ==
      Fact(HeldAt(events, looks, j)[key], if age > 2 * interval && age > 2_000_000_000 then Stale else Good, base + looks[j].at)
    decreases |looks|
  {
    var n := |looks| - 1;
    SensedStep(setting, events, base, looks, key);
    if j == n {
      HeldIsRead(setting, events, base, looks, key);
    } else {
      assert forall k | 0 <= k < n :: HeldAt(events, looks[..n], k) == HeldAt(events, looks, k);
      SilentIsRead(setting, events, base, looks[..n], key, j);
      assert key !in HeldAt(events, looks, n);
    }
  }
}

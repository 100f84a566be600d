/** Every replay accounts for its stages, its aborts and its gate. */
module SimulatorTheorems {
  import opened Facts
  import opened Conditions
  import opened Plans
  import opened Simulator

  // ---------------------------------------------------------------------
  // One stage passed.

  lemma OneMoreInTime(stages: seq<SimStage>, done: seq<Passed>, trigger: int, p: Passed)
    requires PassedInTime(stages, done, trigger) && |done| < |stages|
    requires InTime(stages[|done|], p, Since(done, trigger, |done|))
    ensures PassedInTime(stages, done + [p], trigger)
  {
    var more := done + [p];
    forall i | 0 <= i < |more| ensures InTime(stages[i], more[i], Since(more, trigger, i)) {
      assert Since(more, trigger, i) == Since(done, trigger, i);
    }
  }

  lemma AllClientsGrow(es: seq<Event>, e: Event)
    ensures AllClients(es + [e]) == AllClients(es) + e.clients
  {
    assert (es + [e])[..|es|] == es;
  }

  lemma OneMoreAccounted(fleet: Fleet, plan: SimPlan, r: Result, done: seq<Passed>, trigger: int, p: Passed)
    requires Accounts(fleet, plan, r, done, trigger) && |done| < |plan.stages|
    requires InTime(plan.stages[|done|], p, Since(done, trigger, |done|))
    ensures Accounts(fleet, plan, AfterPassing(fleet, r, plan.stages[|done|], p), done + [p], trigger)
  {
    OneMoreInTime(plan.stages, done, trigger, p);
    assert (done + [p])[..|done|] == done;
    var e := StageEvent(fleet, plan.stages[|done|], p);
    AllClientsGrow(r.stages, e);
    AllClientsGrow(r.skipped, e);
  }

  // ---------------------------------------------------------------------
  // The loop invariant.

  /** The loop's variables against the result so far, when everything recorded
      happened before `until`. */
  ghost predicate Ticking(fleet: Fleet, plan: SimPlan, v: Progress, done: seq<Passed>, trigger: int, until: int) {
    if !v.triggered then v == FRESH && done == []
    else
      && Accounts(fleet, plan, v.result, done, trigger) && AbortFits(plan, v.result, done, trigger)
      && !v.result.completed && v.result.wakeGates == []
      && v.currentStage == |done| && v.enteredAt == Since(done, trigger, |done|)
      && (v.aborted <==> v.result.aborts != []) && (v.crossed <==> v.result.ponr != [])
      && AllBefore(v.result, done, trigger, until)
  }

  predicate AllBefore(r: Result, done: seq<Passed>, trigger: int, until: int) {
    trigger < until && (forall p | p in done :: p.at < until) && forall a | a in r.aborts :: a.at < until
  }

  lemma TimePasses(fleet: Fleet, plan: SimPlan, v: Progress, done: seq<Passed>, trigger: int, until: int, later: int)
    requires Ticking(fleet, plan, v, done, trigger, until) && until <= later
    ensures Ticking(fleet, plan, v, done, trigger, later)
  {
  }

  lemma AbortKeeps(fleet: Fleet, plan: SimPlan, v: Progress, done: seq<Passed>, trigger: int, at: int)
    requires Ticking(fleet, plan, v, done, trigger, at) && v.triggered && !v.aborted && !v.crossed && plan.abort.Some?
    ensures Ticking(fleet, plan, Aborting(plan, v, at), done, trigger, at + 1)
  {
  }

  lemma WaitBegan(r: Result, done: seq<Passed>, trigger: int, until: int)
    requires AllBefore(r, done, trigger, until)
    ensures Since(done, trigger, |done|) < until
  {
    if done != [] {
      assert done[|done| - 1] in done;
    }
  }

  lemma OneMoreBefore(r: Result, done: seq<Passed>, trigger: int, p: Passed)
    requires AllBefore(r, done, trigger, p.at)
    ensures AllBefore(r, done + [p], trigger, p.at + 1)
  {
    assert forall q | q in done + [p] :: q in done || q == p;
  }

  lemma PassingKeeps(fleet: Fleet, plan: SimPlan, v: Progress, done: seq<Passed>, trigger: int, p: Passed)
    requires Ticking(fleet, plan, v, done, trigger, p.at) && v.triggered && !v.aborted && v.currentStage < |plan.stages|
    requires !p.ran ==> StageTimedOut(plan.stages[v.currentStage], p.at, v.enteredAt)
    ensures Ticking(fleet, plan, PassedOn(fleet, plan, v, p), done + [p], trigger, p.at + 1)
  {
    WaitBegan(v.result, done, trigger, p.at);
    OneMoreAccounted(fleet, plan, v.result, done, trigger, p);
    OneMoreBefore(v.result, done, trigger, p);
    var r' := AfterPassing(fleet, v.result, plan.stages[|done|], p);
    assert r'.aborts == [] && r'.wakeGates == [] && !r'.completed;
    assert AllBefore(r', done + [p], trigger, p.at + 1);
    assert Since(done + [p], trigger, |done| + 1) == p.at;
  }

  /** An abort happens now, or the abort part changes nothing. */
  lemma AbortPartKeeps(fleet: Fleet, plan: SimPlan, w: World, v: Progress, ts: Timers, at: int, now: int,
                       done: seq<Passed>, trigger: int)
    requires v.triggered && Ticking(fleet, plan, v, done, trigger, at)
    ensures var v1 := AbortPart(plan, w, v, ts, at, now).0;
      if v1.aborted then v1.triggered && Ticking(fleet, plan, v1, done, trigger, at + 1) else v1 == v
  {
    TimePasses(fleet, plan, v, done, trigger, at, at + 1);
    if !v.aborted && !v.crossed && plan.abort.Some? {
      AbortKeeps(fleet, plan, v, done, trigger, at);
    }
  }

  /** The stages passed after the stage part of a tick. */
  function DoneAfter(plan: SimPlan, w: World, v: Progress, ts: Timers, at: int, now: int, done: seq<Passed>): seq<Passed> {
    if v.aborted || v.currentStage >= |plan.stages| then done
    else
      var stage := plan.stages[v.currentStage];
      if Eval(w, stage.when, ts, now).0.True? then done + [Passed(true, at)]
      else if StageTimedOut(stage, at, v.enteredAt) then done + [Passed(false, at)] else done
  }

  lemma StagePartKeeps(fleet: Fleet, plan: SimPlan, w: World, v: Progress, ts: Timers, at: int, now: int,
                       done: seq<Passed>, trigger: int) returns (done': seq<Passed>)
    requires v.triggered && !v.aborted && Ticking(fleet, plan, v, done, trigger, at)
    ensures var v2 := StagePart(fleet, plan, w, v, ts, at, now).0;
      v2.triggered && Ticking(fleet, plan, v2, done', trigger, at + 1)
    ensures done' == DoneAfter(plan, w, v, ts, at, now, done)
  {
    TimePasses(fleet, plan, v, done, trigger, at, at + 1);
    done' := done;
    if v.currentStage < |plan.stages| {
      var stage := plan.stages[v.currentStage];
      var when := Eval(w, stage.when, ts, now).0;
      if when.True? || StageTimedOut(stage, at, v.enteredAt) {
        var p := Passed(when.True?, at);
        PassingKeeps(fleet, plan, v, done, trigger, p);
        done' := done + [p];
      }
    }
  }

  /** Abort and stage parts together: an abort leaves the stages alone. */
  lemma TurnKeeps(fleet: Fleet, plan: SimPlan, w: World, v: Progress, ts: Timers, at: int, now: int,
                  done: seq<Passed>, trigger: int) returns (done': seq<Passed>)
    requires v.triggered && Ticking(fleet, plan, v, done, trigger, at)
    ensures var (v1, ts1) := AbortPart(plan, w, v, ts, at, now);
      var v2 := StagePart(fleet, plan, w, v1, ts1, at, now).0;
      v2.triggered && Ticking(fleet, plan, v2, done', trigger, at + 1) && done' == DoneAfter(plan, w, v1, ts1, at, now, done)
  {
    done' := done;
    AbortPartKeeps(fleet, plan, w, v, ts, at, now, done, trigger);
    var (v1, ts1) := AbortPart(plan, w, v, ts, at, now);
    if !v1.aborted {
      done' := StagePartKeeps(fleet, plan, w, v1, ts1, at, now, done, trigger);
    }
  }

  lemma GateKeeps(fleet: Fleet, plan: SimPlan, w: World, v: Progress, ts: Timers, at: int, now: int,
                  done: seq<Passed>, trigger: int)
    requires v.triggered && Ticking(fleet, plan, v, done, trigger, at + 1)
    ensures var (v', ts', finished) := GatePart(plan, w, v, ts, at, now);
      && (finished ==> Consistent(fleet, plan, v'.result) && Accounts(fleet, plan, v'.result, done, trigger))
      && (!finished ==> v' == v)
  {
    var (v', ts', finished) := GatePart(plan, w, v, ts, at, now);
    if finished {
      var r := v'.result;
      assert Accounts(fleet, plan, r, done, trigger) && AbortFits(plan, r, done, trigger) && GateFits(plan, r, done);
    }
  }

  lemma ActPasses(fleet: Fleet, plan: SimPlan, w: World, v: Progress, ts: Timers, at: int, now: int,
                 done: seq<Passed>, trigger: int) returns (done': seq<Passed>, trigger': int)
    requires Ticking(fleet, plan, v, done, trigger, at)
    ensures var (v', ts', finished) := Acted(fleet, plan, w, v, ts, at, now);
      && (finished ==> Consistent(fleet, plan, v'.result) && Accounts(fleet, plan, v'.result, done', trigger'))
      && (!finished ==> Ticking(fleet, plan, v', done', trigger', at + 1))
    ensures !v.triggered ==> done' == [] && trigger' == at
    ensures v.triggered ==>
      var (v1, ts1) := AbortPart(plan, w, v, ts, at, now);
      done' == DoneAfter(plan, w, v1, ts1, at, now, done) && trigger' == trigger
  {
    if !v.triggered {
      done', trigger' := [], at;
      assert Ticking(fleet, plan, Triggering(plan, v, at, True), [], at, at + 1);
    } else {
      trigger' := trigger;
      done' := TurnKeeps(fleet, plan, w, v, ts, at, now, done, trigger);
      var (v1, ts1) := AbortPart(plan, w, v, ts, at, now);
      var (v2, ts2) := StagePart(fleet, plan, w, v1, ts1, at, now);
      GateKeeps(fleet, plan, w, v2, ts2, at, now, done', trigger);
    }
  }

  lemma ActKeeps(fleet: Fleet, plan: SimPlan, w: World, v: Progress, ts: Timers, at: int, now: int,
                 done: seq<Passed>, trigger: int) returns (done': seq<Passed>, trigger': int)
    requires Ticking(fleet, plan, v, done, trigger, at)
    ensures var (v', ts', finished) := Acted(fleet, plan, w, v, ts, at, now);
      if finished then Consistent(fleet, plan, v'.result) else Ticking(fleet, plan, v', done', trigger', at + 1)
  {
    done', trigger' := ActPasses(fleet, plan, w, v, ts, at, now, done, trigger);
  }

  lemma TickKeeps(setting: Setting, plan: SimPlan, events: seq<TimelineEvent>, base: int, s: Sim, at: int,
                  done: seq<Passed>, trigger: int) returns (done': seq<Passed>, trigger': int)
    requires s.eventIdx <= |events| && Ticking(setting.fleet, plan, s.v, done, trigger, at)
    ensures var s' := Ticked(setting, plan, events, base, s, at);
      if s'.finished then Consistent(setting.fleet, plan, s'.v.result)
      else Ticking(setting.fleet, plan, s'.v, done', trigger', at + 1)
  {
    var now, n := base + at, Due(events, s.eventIdx, at);
    var w := WorldOf(setting, Refreshed(Reported(s.readings, Holding(events[..n]), now), now));
    done', trigger' := ActKeeps(setting.fleet, plan, w, s.v, s.timers, at, now, done, trigger);
  }

  // ---------------------------------------------------------------------
  // Whole replays.

  lemma {:induction false} RestIsConsistent(setting: Setting, plan: SimPlan, timeline: Timeline, base: int, s: Sim, at: int,
                                            done: seq<Passed>, trigger: int)
    requires timeline.step > 0 && s.eventIdx <= |timeline.events| && Ticking(setting.fleet, plan, s.v, done, trigger, at)
    ensures Consistent(setting.fleet, plan, Replayed(setting, plan, timeline, base, s, at))
    decreases timeline.duration - at
  {
    if at > timeline.duration {
      if s.v.triggered {
        assert GateFits(plan, s.v.result, done);
      }
    } else {
      var done', trigger' := TickKeeps(setting, plan, timeline.events, base, s, at, done, trigger);
      var s' := Ticked(setting, plan, timeline.events, base, s, at);
      if !s'.finished {
        TimePasses(setting.fleet, plan, s'.v, done', trigger', at + 1, at + timeline.step);
        RestIsConsistent(setting, plan, timeline, base, s', at + timeline.step, done', trigger');
      }
    }
  }

  /** The stages passed form a prefix of the plan, each in exactly one of stages
      and skipped and in plan order, one per tick; the two client lists are theirs;
      an abort and a crossing exclude each other, and the abort comes strictly after
      every stage event; the replay is completed exactly when one gate event was
      recorded, and then it was called off or has passed all its stages. */
  lemma ReplayIsConsistent(setting: Setting, plan: SimPlan, timeline: Timeline, base: int)
    requires timeline.step > 0
    ensures Consistent(setting.fleet, plan, Replayed(setting, plan, timeline, base, Started(setting, timeline), 0))
  {
    RestIsConsistent(setting, plan, timeline, base, Started(setting, timeline), 0, [], 0);
  }

  /** How many of the stages before `i` ended the same way as stage `i`. */
  function Place(done: seq<Passed>, i: nat): nat
    requires i < |done|
  {
    CountOf(done[..i], done[i].ran)
  }

  function CountOf(done: seq<Passed>, ran: bool): nat {
    if done == [] then 0 else CountOf(done[..|done| - 1], ran) + if done[|done| - 1].ran == ran then 1 else 0
  }

  lemma {:induction false} PickedCount(fleet: Fleet, stages: seq<SimStage>, done: seq<Passed>, ran: bool)
    requires |done| <= |stages|
    ensures |Picked(fleet, stages, done, ran)| == CountOf(done, ran)
    ensures CountOf(done, true) + CountOf(done, false) == |done|
  {
    if done != [] {
      PickedCount(fleet, stages, done[..|done| - 1], ran);
    }
  }

  /** Every stage passed has its own place in exactly one of the two lists, the
      order there is the plan's, and the lists hold nothing else. */
  lemma EachStageOnce(fleet: Fleet, stages: seq<SimStage>, done: seq<Passed>, i: nat)
    requires i < |done| <= |stages|
    ensures |Picked(fleet, stages, done, true)| + |Picked(fleet, stages, done, false)| == |done|
    ensures var list := Picked(fleet, stages, done, done[i].ran);
      Place(done, i) < |list| && list[Place(done, i)] == StageEvent(fleet, stages[i], done[i])
    ensures forall j | 0 <= j < i && done[j].ran == done[i].ran :: Place(done, j) < Place(done, i)
  {
    PickedCount(fleet, stages, done, true);
    PickedCount(fleet, stages, done, false);
    StageInPlace(fleet, stages, done, i);
    forall j | 0 <= j < i && done[j].ran == done[i].ran ensures Place(done, j) < Place(done, i) {
      CountGrowsPast(done, j, i);
    }
  }

  lemma {:induction false} StageInPlace(fleet: Fleet, stages: seq<SimStage>, done: seq<Passed>, i: nat)
    requires i < |done| <= |stages|
    ensures var list := Picked(fleet, stages, done, done[i].ran);
      Place(done, i) < |list| && list[Place(done, i)] == StageEvent(fleet, stages[i], done[i])
  {
    var n := |done| - 1;
    if i < n {
      StageInPlace(fleet, stages, done[..n], i);
      assert done[..n][..i] == done[..i];
    } else {
      PickedCount(fleet, stages, done[..n], done[n].ran);
    }
  }

  lemma {:induction false} CountGrowsPast(done: seq<Passed>, j: nat, i: nat)
    requires j < i < |done|
    ensures CountOf(done[..j], done[j].ran) < CountOf(done[..i], done[j].ran)
    decreases i
  {
    assert done[..i][..i - 1] == done[..i - 1];
    if j < i - 1 {
      CountGrowsPast(done, j, i - 1);
    }
  }

  /** A crossing is recorded exactly when a stage past the point of no return ran,
      and names the first such stage. */
  lemma {:induction false} CrossingIsFirst(stages: seq<SimStage>, done: seq<Passed>)
    requires |done| <= |stages|
    ensures Crossing(stages, done) == [] <==> forall i | 0 <= i < |done| :: !(done[i].ran && stages[i].ponr)
    ensures Crossing(stages, done) != [] ==>
      exists i | 0 <= i < |done| ::
        && done[i].ran && stages[i].ponr && Crossing(stages, done) == [Event(done[i].at, stages[i].name, "", [])]
        && forall j | 0 <= j < i :: !(done[j].ran && stages[j].ponr)
  {
    if done != [] {
      CrossingIsFirst(stages, done[..|done| - 1]);
    }
  }
}

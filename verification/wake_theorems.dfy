/** What the wake loop guarantees, whatever the transports and probes do. */
module WakeTheorems {
  import opened Plans
  import opened StageOrder
  import opened Waking

  ghost predicate WellTimed(w: Wake) {
    |w.order| <= |w.turns|
  }

  // ---------------------------------------------------------------------
  // One turn.

  predicate SameFor(b: Board, b': Board, x: string) {
    && StateOf(b', x) == StateOf(b, x)
    && (x in b'.since <==> x in b.since)
    && (x in b.since ==> b'.since[x] == b.since[x])
  }

  lemma WithStateIsLocal(b: Board, name: string, s: ClientState, x: string)
    ensures var b' := WithState(b, name, s);
      && (x != name ==> SameFor(b, b', x)) && StateOf(b', name) == s && b'.now == b.now
  {
  }

  lemma WokenIsLocal(b: Board, name: string, t: Turn, x: string)
    ensures var b' := Woken(b, name, t);
      && (x != name ==> SameFor(b, b', x)) && b.now <= b'.now
      && !StateOf(b', name).DownUnverified?
      && (t.end.CameUp? ==> StateOf(b', name).Up?)
  {
    WithStateIsLocal(b, name, Failed, x);
    WithStateIsLocal(b, name, Waking, x);
    var b1 := Slept(WithState(b, name, Waking), t.took);
    WithStateIsLocal(b1, name, Up, x);
    WithStateIsLocal(b1, name, Failed, x);
  }

  /** What a turn does to the client `x`: it touches only its own client, never
      one that is up; it leaves no client unverified that was not so before; and
      the clock moves forward by at least the time slept. */
  lemma StepIsLocal(fleet: Fleet, pre: map<string, ClientState>, b: Board, name: string, t: Turn, stagger: int, x: string)
    ensures var (b', e) := Step(fleet, pre, b, name, t, stagger);
      && (x != name || StateOf(b, x).Up? ==> SameFor(b, b', x))
      && (StateOf(b', x).DownUnverified? ==> SameFor(b, b', x))
      && b.now + e.guardSleep <= b'.now && 0 <= e.guardSleep && b.now <= e.at
      && (e.verdict.Attempted? && t.end.CameUp? ==> StateOf(b', name).Up?)
  {
    var (b', e) := Step(fleet, pre, b, name, t, stagger);
    assert SameFor(b, b, x);
    if e.verdict.DependencyDown? {
      WithStateIsLocal(b, name, Failed, x);
    } else if e.verdict.Attempted? {
      var b1 := Slept(b, e.guardSleep);
      assert SameFor(b, b1, x);
      WokenIsLocal(b1, name, t, x);
    }
  }

  /** `k` is where the fleet first lists the client of turn `n`. */
  predicate Lists(w: Wake, n: nat, k: nat)
    requires n < |w.order|
  {
    k < |w.fleet| && w.fleet[k].name == w.order[n] && forall j | 0 <= j < k :: w.fleet[j].name != w.order[n]
  }

  lemma FindsListed(w: Wake, n: nat, k: nat)
    requires n < |w.order| && Lists(w, n, k)
    ensures Find(w.fleet, w.order[n]) == k
  {
    assert w.fleet[k] in w.fleet;
  }

  /** It is to stay as it was: its policy says so and it was not up beforehand. */
  predicate StaysDown(w: Wake, c: ClientDef, name: string) {
    c.retains && name in w.pre && w.pre[name] != Up
  }

  /** Which clients a turn passes over, and that it changes nothing for them. */
  lemma PassedOverExactly(w: Wake, n: nat)
    requires WellTimed(w) && n < |w.order|
    ensures var name, b, e := w.order[n], BoardAt(w, n), EntryAt(w, n);
      && e.name == name
      && (e.verdict.NotAClient? <==> forall c | c in w.fleet :: c.name != name)
      && (forall k: nat | Lists(w, n, k) ::
          && (e.verdict.AlreadyUp? <==> StateOf(b, name).Up?)
          && (e.verdict.Retained? <==> !StateOf(b, name).Up? && StaysDown(w, w.fleet[k], name)))
      && (e.verdict.NotAClient? || e.verdict.AlreadyUp? || e.verdict.Retained? ==> BoardAt(w, n + 1) == b && e.guardSleep == 0)
  {
    var at := Find(w.fleet, w.order[n]);
    if at >= 0 {
      assert w.fleet[at] in w.fleet;
    }
    forall k: nat | Lists(w, n, k) ensures k == at {
      FindsListed(w, n, k);
    }
  }

  /** A known client that is neither up nor to stay down is sent its wake command
      exactly when every client it depends on is up. Otherwise it is failed on the
      spot and no time passes. */
  lemma AttemptedExactly(w: Wake, n: nat, k: nat)
    requires WellTimed(w) && n < |w.order| && Lists(w, n, k)
    requires !StateOf(BoardAt(w, n), w.order[n]).Up? && !StaysDown(w, w.fleet[k], w.order[n])
    ensures var name, b, b', e := w.order[n], BoardAt(w, n), BoardAt(w, n + 1), EntryAt(w, n);
      && (e.verdict.Attempted? <==> forall i | 0 <= i < |w.fleet[k].dependsOn| :: StateOf(b, w.fleet[k].dependsOn[i]) == Up)
      && (!e.verdict.Attempted? ==>
          e.verdict == DependencyDown && StateOf(b', name) == Failed && b'.now == b.now && e.guardSleep == 0)
  {
    FindsListed(w, n, k);
    WithStateIsLocal(BoardAt(w, n), w.order[n], Failed, "");
  }

  /** How an attempt goes: the command after what is left of the guard period, the
      time the attempt takes, the state it ends in, and the pause before the next
      client. */
  lemma AttemptGoes(w: Wake, n: nat, k: nat)
    requires WellTimed(w) && n < |w.order| && Lists(w, n, k) && EntryAt(w, n).verdict.Attempted?
    ensures var name, b, b', e, t := w.order[n], BoardAt(w, n), BoardAt(w, n + 1), EntryAt(w, n), w.turns[n];
      && e.at == b.now + e.guardSleep
      && (if StateOf(b, name) == DownUnverified
          then
            var left := w.fleet[k].guard - if name in b.since then b.now - b.since[name] else 0;
            e.guardSleep == if left > 0 then left else 0
          else e.guardSleep == 0)
      && b'.now == e.at + (if t.end == NoTransport then 0 else t.took) + (if n + 1 < |w.order| && w.stagger > 0 then w.stagger else 0)
      && StateOf(b', name) == match t.end
                              case NoTransport => Failed
                              case CameUp => Up
                              case NeverCameUp => Failed
                              case Abandoned => ClientState.Waking
  {
    FindsListed(w, n, k);
  }

  lemma {:induction false} ClockAdvances(w: Wake, n: nat)
    requires WellTimed(w) && n <= |w.order|
    ensures w.start.now <= BoardAt(w, n).now
  {
    if n > 0 {
      ClockAdvances(w, n - 1);
      StepIsLocal(w.fleet, w.pre, BoardAt(w, n - 1), w.order[n - 1], w.turns[n - 1], Stagger(w.stagger, n - 1, |w.order|), "");
    }
  }

  // ---------------------------------------------------------------------
  // Guard periods.

  lemma {:induction false} UntouchedUntilReached(w: Wake, n: nat, x: string)
    requires WellTimed(w) && n <= |w.order| && x !in w.order[..n]
    ensures SameFor(w.start, BoardAt(w, n), x)
  {
    if n > 0 {
      assert w.order[..n] == w.order[..n - 1] + [w.order[n - 1]];
      UntouchedUntilReached(w, n - 1, x);
      StepIsLocal(w.fleet, w.pre, BoardAt(w, n - 1), w.order[n - 1], w.turns[n - 1], Stagger(w.stagger, n - 1, |w.order|), x);
    }
  }

  /** A client that could not be confirmed down is woken no earlier than its guard
      period after it settled; if this process did not see it settle, no earlier
      than the guard period after the loop began. */
  lemma GuardIsKept(w: Wake, n: nat)
    requires WellTimed(w) && n < |w.order| && NoRepeats(w.order)
    requires EntryAt(w, n).verdict.Attempted? && StateOf(w.start, w.order[n]).DownUnverified?
    ensures Find(w.fleet, w.order[n]) >= 0
    ensures var name, guard := w.order[n], w.fleet[Find(w.fleet, w.order[n])].guard;
      if name in w.start.since then EntryAt(w, n).at - w.start.since[name] >= guard
      else EntryAt(w, n).at - w.start.now >= guard
  {
    assert w.order[n] !in w.order[..n];
    UntouchedUntilReached(w, n, w.order[n]);
    ClockAdvances(w, n);
  }

  /** Time spent waiting for guard periods in the first `n` turns. */
  function TotalGuardSleep(w: Wake, n: nat): int
    requires n <= |w.order| <= |w.turns|
  {
    if n == 0 then 0 else TotalGuardSleep(w, n - 1) + EntryAt(w, n - 1).guardSleep
  }

  /** This process saw every unverified client settle, before time `t`. */
  ghost predicate SettledBy(b: Board, t: int) {
    forall x | StateOf(b, x).DownUnverified? :: x in b.since && b.since[x] <= t
  }

  /** Guard waits are not cumulative: over the whole loop they add up to no more
      than the largest single guard period. */
  lemma {:induction false} GuardWaitsOverlap(w: Wake, n: nat, largest: int)
    requires WellTimed(w) && n <= |w.order| && SettledBy(w.start, w.start.now)
    requires 0 <= largest && forall c | c in w.fleet :: c.guard <= largest
    ensures 0 <= TotalGuardSleep(w, n) <= largest
    ensures w.start.now + TotalGuardSleep(w, n) <= BoardAt(w, n).now
    ensures SettledBy(BoardAt(w, n), w.start.now)
  {
    if n > 0 {
      GuardWaitsOverlap(w, n - 1, largest);
      var b, name, t, gap := BoardAt(w, n - 1), w.order[n - 1], w.turns[n - 1], Stagger(w.stagger, n - 1, |w.order|);
      StepIsLocal(w.fleet, w.pre, b, name, t, gap, "");
      forall x | StateOf(BoardAt(w, n), x).DownUnverified? ensures x in BoardAt(w, n).since && BoardAt(w, n).since[x] <= w.start.now {
        StepIsLocal(w.fleet, w.pre, b, name, t, gap, x);
      }
    }
  }

  // ---------------------------------------------------------------------
  // Dependencies.

  /** Every reference that is not a tag names a client, as validation demands. */
  ghost predicate RefsKnown(fleet: Fleet, stages: seq<Refs>) {
    forall i, ref | 0 <= i < |stages| && ref in stages[i] && !(TAG <= ref) :: exists c | c in fleet :: c.name == ref
  }

  /** A dependency outside the plan is up already. */
  ghost predicate OutsideDependenciesUp(w: Wake) {
    forall c, d | c in w.fleet && c.name in w.order && d in c.dependsOn :: d in w.order || StateOf(w.start, d).Up?
  }

  /** No client that retains its state was off before the shutdown. */
  ghost predicate NothingRetained(w: Wake) {
    forall c | c in w.fleet && c.retains && c.name in w.order && c.name in w.pre :: w.pre[c.name].Up?
  }

  lemma OrderIsKnown(fleet: Fleet, stages: seq<Refs>, x: string)
    requires StagesFit(fleet, stages) && RefsKnown(fleet, stages) && x in WakeOrder(fleet, stages, [])
    ensures Find(fleet, x) >= 0
  {
    WakeOrderIsSound(fleet, stages);
    var i :| 0 <= i < |stages| && x in Resolved(fleet, stages[i]);
    ResolvedExactly(fleet, stages[i]);
    var ref :| ref in stages[i] && Refers(fleet, ref, x);
  }

  /** Everything reached so far is up, and what was up stays up. */
  ghost predicate UpSoFar(w: Wake, n: nat)
    requires n <= |w.order| <= |w.turns|
  {
    && (forall i | 0 <= i < n :: StateOf(BoardAt(w, n), w.order[i]).Up?)
    && (forall x | StateOf(w.start, x).Up? :: StateOf(BoardAt(w, n), x).Up?)
  }

  lemma DependenciesAlreadyUp(w: Wake, stages: seq<Refs>, n: nat, c: ClientDef)
    requires WellTimed(w) && n < |w.order| && UpSoFar(w, n)
    requires StagesFit(w.fleet, stages) && w.order == WakeOrder(w.fleet, stages, []) && OutsideDependenciesUp(w)
    requires c in w.fleet && c.name == w.order[n]
    ensures DependenciesMet(BoardAt(w, n), c)
  {
    WakeOrderIsSound(w.fleet, stages);
    forall d | d in c.dependsOn ensures StateOf(BoardAt(w, n), d).Up? {
      if d in w.order {
        var k :| 0 <= k < |w.order| && w.order[k] == d;
        assert Before(w.order, d, c.name);
        assert k < n;
      }
    }
  }

  lemma NextIsUp(w: Wake, n: nat)
    requires WellTimed(w) && n < |w.order| && UpSoFar(w, n) && StateOf(BoardAt(w, n + 1), w.order[n]).Up?
    ensures UpSoFar(w, n + 1)
  {
    forall x | StateOf(BoardAt(w, n), x).Up? ensures StateOf(BoardAt(w, n + 1), x).Up? {
      StepIsLocal(w.fleet, w.pre, BoardAt(w, n), w.order[n], w.turns[n], Stagger(w.stagger, n, |w.order|), x);
    }
  }

  lemma TurnSucceeds(fleet: Fleet, pre: map<string, ClientState>, b: Board, name: string, t: Turn, stagger: int)
    requires Find(fleet, name) >= 0 && t.end.CameUp?
    requires var c := fleet[Find(fleet, name)];
      DependenciesMet(b, c) && (c.retains && name in pre ==> pre[name].Up?)
    ensures var (b', e) := Step(fleet, pre, b, name, t, stagger);
      StateOf(b', name).Up? && (e.verdict.AlreadyUp? || e.verdict.Attempted?)
  {
    StepIsLocal(fleet, pre, b, name, t, stagger, name);
  }

  /** The default order of a plan that passed validation, every dependency in the
      plan or up already, nothing retained, and every attempt made ends with the
      client up. */
  ghost predicate WellPlanned(w: Wake, stages: seq<Refs>) {
    && WellTimed(w)
    && StagesFit(w.fleet, stages) && RefsKnown(w.fleet, stages) && w.order == WakeOrder(w.fleet, stages, [])
    && OutsideDependenciesUp(w) && NothingRetained(w)
    && forall i | 0 <= i < |w.order| :: w.turns[i].end.CameUp?
  }

  ghost predicate NotFailed(w: Wake, i: nat)
    requires i < |w.order| <= |w.turns|
  {
    EntryAt(w, i).verdict.AlreadyUp? || EntryAt(w, i).verdict.Attempted?
  }

  lemma TurnKeepsUp(w: Wake, stages: seq<Refs>, n: nat)
    requires WellPlanned(w, stages) && n < |w.order| && UpSoFar(w, n)
    ensures UpSoFar(w, n + 1) && NotFailed(w, n)
  {
    var name := w.order[n];
    OrderIsKnown(w.fleet, stages, name);
    var c := w.fleet[Find(w.fleet, name)];
    assert c in w.fleet;
    DependenciesAlreadyUp(w, stages, n, c);
    TurnSucceeds(w.fleet, w.pre, BoardAt(w, n), name, w.turns[n], Stagger(w.stagger, n, |w.order|));
    NextIsUp(w, n);
  }

  lemma {:induction false} StaysUp(w: Wake, stages: seq<Refs>, n: nat)
    requires WellPlanned(w, stages) && n <= |w.order|
    ensures UpSoFar(w, n)
  {
    if n > 0 {
      StaysUp(w, stages, n - 1);
      TurnKeepsUp(w, stages, n - 1);
    }
  }

  /** In a well-planned wake every client is up when its turn is over, and none is
      failed for an unmet dependency. */
  lemma NoDependencyFails(w: Wake, stages: seq<Refs>)
    requires WellPlanned(w, stages)
    ensures forall i | 0 <= i < |w.order| :: NotFailed(w, i)
    ensures forall i | 0 <= i < |w.order| :: StateOf(BoardAt(w, |w.order|), w.order[i]).Up?
  {
    StaysUp(w, stages, |w.order|);
    forall i | 0 <= i < |w.order| ensures NotFailed(w, i) {
      StaysUp(w, stages, i);
      TurnKeepsUp(w, stages, i);
    }
  }
}

/** How many failures one key can get through the limiter. */
module LimiterBound {
  import opened Options
  import opened Limiters

  /** The latest call for `key` is a check the limiter let through. */
  predicate Cleared(p: Params, tr: seq<Moment>, key: string) {
    if tr == [] then false
    else if tr[|tr| - 1].call.key != key then Cleared(p, tr[..|tr| - 1], key)
    else tr[|tr| - 1].call.Allow? && LastReply(p, tr).Allowed?
  }

  /** Every failure of `key` directly follows a check that let it through. */
  predicate Disciplined(p: Params, tr: seq<Moment>, key: string) {
    tr == [] ||
    var shorter, call := tr[..|tr| - 1], tr[|tr| - 1].call;
    && Disciplined(p, shorter, key)
    && (call == RecordFailure(key) ==> Cleared(p, shorter, key))
  }

  /** A failure of the key, and which failure opened the entry it counts in. */
  datatype Failure = Failure(at: int, start: nat)

  /** The failures of `key` since its last login, in order. */
  function Log(p: Params, tr: seq<Moment>, key: string): seq<Failure> {
    if tr == [] then []
    else
      var shorter, last := tr[..|tr| - 1], tr[|tr| - 1];
      var log, es := Log(p, shorter, key), AfterUnswept(p, shorter);
      if last.call == Reset(key) then []
      else if last.call != RecordFailure(key) then log
      else if key !in es || last.at - es[key].firstFailed > p.window || log == []
      then log + [Failure(last.at, |log|)]
      else log + [Failure(last.at, log[|log| - 1].start)]
  }

  // ---------------------------------------------------------------------
  // The failures fall into runs, one per entry.

  /** Failure `n` lies in a run of at most maxFailures. */
  predicate Placed(p: Params, log: seq<Failure>, n: int)
    requires 0 <= n < |log|
  {
    var s := log[n].start;
    s <= n && n - s < p.maxFailures && log[s].start == s
  }

  /** At `t` the run that failure `q` ends has lapsed: a full run has sat out its
      lockout, a shorter one its window. */
  predicate Apart(p: Params, log: seq<Failure>, q: int, t: int)
    requires 0 <= q < |log|
  {
    var s := log[q].start;
    s <= q && if q - s + 1 >= p.maxFailures then t >= log[q].at + p.lockout else t > log[s].at + p.window
  }

  predicate Begins(p: Params, log: seq<Failure>, n: int)
    requires 0 < n < |log|
  {
    log[n].start == n <==> Apart(p, log, n - 1, log[n].at)
  }

  predicate InOrder(log: seq<Failure>) {
    forall m, n | 0 <= m <= n < |log| :: log[m].at <= log[n].at
  }

  predicate InRuns(p: Params, log: seq<Failure>) {
    && InOrder(log)
    && (forall n | 0 <= n < |log| :: Placed(p, log, n))
    && (forall n | 0 < n < |log| :: Begins(p, log, n))
  }

  /** How the key's entry reflects the latest run. */
  predicate Reflects(p: Params, log: seq<Failure>, es: Entries, key: string, now: int) {
    if log == [] then key !in es
    else
      var q := |log| - 1;
      var s := log[q].start;
      if key in es then
        && s <= q
        && es[key].failures == q - s + 1
        && es[key].firstFailed == log[s].at
        && es[key].lockedUntil == if q - s + 1 >= p.maxFailures then Some(log[q].at + p.lockout) else None
      else Apart(p, log, q, now)
  }

  predicate Accounted(p: Params, log: seq<Failure>, es: Entries, key: string, now: int) {
    InRuns(p, log) && Reflects(p, log, es, key, now) && forall n | 0 <= n < |log| :: log[n].at <= now
  }

  /** One more failure, placed in a run, keeps all failures in runs. */
  lemma OneMore(p: Params, log: seq<Failure>, f: Failure)
    requires InRuns(p, log) && forall n | 0 <= n < |log| :: log[n].at <= f.at
    requires Placed(p, log + [f], |log|) && (|log| > 0 ==> Begins(p, log + [f], |log|))
    ensures InRuns(p, log + [f])
  {
    var more := log + [f];
    forall n | 0 <= n < |more| ensures Placed(p, more, n) && (0 < n ==> Begins(p, more, n)) {
      if n < |log| {
        assert Placed(p, log, n);
        if 0 < n {
          assert Begins(p, log, n) && Placed(p, log, n - 1);
        }
      }
    }
  }

  lemma NewRun(p: Params, log: seq<Failure>, es: Entries, key: string, now: int)
    requires p.maxFailures >= 2 && Accounted(p, log, es, key, now)
    requires log != [] ==> Apart(p, log, |log| - 1, now)
    ensures Accounted(p, log + [Failure(now, |log|)], es[key := Entry(1, now, None)], key, now)
  {
    var f := Failure(now, |log|);
    assert Placed(p, log + [f], |log|);
    assert |log| > 0 ==> Begins(p, log + [f], |log|);
    OneMore(p, log, f);
  }

  lemma RunGrows(p: Params, log: seq<Failure>, es: Entries, key: string, now: int)
    requires p.maxFailures >= 2 && Accounted(p, log, es, key, now)
    requires key in es && es[key].lockedUntil.None? && now - es[key].firstFailed <= p.window
    ensures log != []
    ensures Accounted(p, log + [Failure(now, log[|log| - 1].start)], es[key := Counted(p, es[key], now)], key, now)
  {
    var q := |log| - 1;
    var f := Failure(now, log[q].start);
    assert Placed(p, log, q);
    assert Placed(p, log + [f], q + 1);
    assert Begins(p, log + [f], q + 1);
    OneMore(p, log, f);
  }

  lemma CheckAccounted(p: Params, log: seq<Failure>, es: Entries, key: string, now: int)
    requires p.maxFailures >= 2 && Accounted(p, log, es, key, now)
    ensures var (reply, es') := Checked(p, es, key, now);
      Accounted(p, log, es', key, now) && (reply.Allowed? && key in es' ==> es'[key].lockedUntil.None?)
  {
  }

  lemma Waiting(p: Params, log: seq<Failure>, es: Entries, key: string, t: int, now: int)
    requires Accounted(p, log, es, key, t) && t <= now
    ensures Accounted(p, log, es, key, now)
  {
  }

  lemma OtherKeys(p: Params, es: Entries, call: Call, now: int, key: string)
    requires call.key != key
    ensures var es' := Do(p, es, call, now).1; (key in es' <==> key in es) && (key in es ==> es'[key] == es[key])
  {
  }

  lemma {:induction false} TraceAccounted(p: Params, tr: seq<Moment>, key: string, now: int)
    requires p.maxFailures >= 2 && Ordered(tr) && Disciplined(p, tr, key) && (tr != [] ==> tr[|tr| - 1].at <= now)
    ensures Accounted(p, Log(p, tr, key), AfterUnswept(p, tr), key, now)
    ensures Cleared(p, tr, key) && key in AfterUnswept(p, tr) ==> AfterUnswept(p, tr)[key].lockedUntil.None?
  {
    if tr != [] {
      var shorter, last := tr[..|tr| - 1], tr[|tr| - 1];
      TraceAccounted(p, shorter, key, last.at);
      var log, es := Log(p, shorter, key), AfterUnswept(p, shorter);
      if last.call.key != key {
        OtherKeys(p, es, last.call, last.at, key);
      } else if last.call.Reset? {
        assert Log(p, tr, key) == [] && key !in AfterUnswept(p, tr);
      } else if last.call.Allow? {
        SweepIsUnobservable(p, tr);
        CheckAccounted(p, log, es, key, last.at);
      } else if key in es && last.at - es[key].firstFailed <= p.window {
        RunGrows(p, log, es, key, last.at);
      } else {
        NewRun(p, log, es, key, last.at);
      }
      Waiting(p, Log(p, tr, key), AfterUnswept(p, tr), key, last.at, now);
    }
  }

  /** The arithmetic of runs: 2 * max - 1 failures in a row always contain a gap
      that a lockout or a window had to fill. */
  lemma RunsAreSparse(p: Params, log: seq<Failure>, i: nat)
    requires InRuns(p, log) && p.maxFailures >= 2 && p.lockout >= p.window
    requires i + 2 * p.maxFailures - 2 < |log|
    ensures log[i + 2 * p.maxFailures - 2].at - log[i].at >= p.window
  {
    var n := i + 2 * p.maxFailures - 2;
    var s := log[n].start;
    assert Placed(p, log, n);
    assert s >= i + p.maxFailures - 1;
    assert Begins(p, log, s) && Placed(p, log, s - 1);
    assert log[s].at <= log[n].at;
    var first := log[s - 1].start;
    if i <= first {
      assert log[i].at <= log[first].at <= log[s - 1].at;
    } else {
      assert log[i].at <= log[s - 1].at;
    }
  }

  /** When the key failed, since its last login. */
  function FailureTimes(tr: seq<Moment>, key: string): seq<int> {
    if tr == [] then []
    else
      var times, last := FailureTimes(tr[..|tr| - 1], key), tr[|tr| - 1];
      if last.call == Reset(key) then []
      else if last.call == RecordFailure(key) then times + [last.at] else times
  }

  lemma {:induction false} LogKeepsTimes(p: Params, tr: seq<Moment>, key: string)
    ensures |Log(p, tr, key)| == |FailureTimes(tr, key)|
    ensures forall n | 0 <= n < |Log(p, tr, key)| :: Log(p, tr, key)[n].at == FailureTimes(tr, key)[n]
  {
    if tr != [] {
      LogKeepsTimes(p, tr[..|tr| - 1], key);
    }
  }

  /** When every failure directly follows an allowed check, and no login succeeds in
      between, any 2 * max - 1 consecutive failures of one key, whatever the other keys do
      and whenever the sweep runs, take at least a whole window. A shorter span
      therefore holds at most 2 * max - 2 of them. */
  lemma LimitIsReal(p: Params, tr: seq<Moment>, key: string, i: nat)
    requires Ordered(tr) && Disciplined(p, tr, key)
    requires p.maxFailures >= 2 && p.lockout >= p.window
    requires i + 2 * p.maxFailures - 2 < |FailureTimes(tr, key)|
    ensures FailureTimes(tr, key)[i + 2 * p.maxFailures - 2] - FailureTimes(tr, key)[i] >= p.window
  {
    if tr != [] {
      TraceAccounted(p, tr, key, tr[|tr| - 1].at);
    }
    LogKeepsTimes(p, tr, key);
    RunsAreSparse(p, Log(p, tr, key), i);
  }

  /** The last failure completed a run of at least the limit. */
  predicate LimitReached(p: Params, log: seq<Failure>) {
    log != [] && |log| - log[|log| - 1].start >= p.maxFailures
  }

  /** A check is refused exactly when the failures since the last login end in a run
      that reached the limit, for the length of the lockout after the last of them,
      and the reply says how much of it is left. */
  lemma RefusedExactly(p: Params, tr: seq<Moment>, key: string, now: int)
    requires Ordered(tr) && Disciplined(p, tr, key) && (tr != [] ==> tr[|tr| - 1].at <= now) && p.maxFailures >= 2
    ensures InRuns(p, Log(p, tr, key))
    ensures var log := Log(p, tr, key);
      LastReply(p, tr + [Moment(Allow(key), now)]) ==
      if LimitReached(p, log) && now < log[|log| - 1].at + p.lockout
      then Refused(log[|log| - 1].at + p.lockout - now) else Allowed
  {
    var more := tr + [Moment(Allow(key), now)];
    assert more[..|tr|] == tr;
    TraceAccounted(p, tr, key, now);
    SweepIsUnobservable(p, more);
  }

  /** The key's entry depends only on what was called for it since its last login. */
  lemma {:induction false} LoginStartsOver(p: Params, tr: seq<Moment>, at: int, later: seq<Moment>, key: string)
    ensures var whole, alone := AfterUnswept(p, tr + [Moment(Reset(key), at)] + later), AfterUnswept(p, later);
      (key in whole <==> key in alone) && (key in alone ==> whole[key] == alone[key])
  {
    var whole := tr + [Moment(Reset(key), at)] + later;
    if later == [] {
      assert whole[..|tr|] == tr;
    } else {
      var shorter := later[..|later| - 1];
      assert whole[..|whole| - 1] == tr + [Moment(Reset(key), at)] + shorter;
      LoginStartsOver(p, tr, at, shorter, key);
    }
  }

  lemma LaterIsOrdered(earlier: seq<Moment>, later: seq<Moment>)
    requires Ordered(earlier + later)
    ensures Ordered(later)
  {
    assert forall i | 0 <= i < |later| :: later[i] == (earlier + later)[|earlier| + i];
  }

  lemma AnsweredAlike(p: Params, es: Entries, es': Entries, call: Call, now: int)
    requires (call.key in es <==> call.key in es') && (call.key in es ==> es[call.key] == es'[call.key])
    ensures Do(p, es, call, now).0 == Do(p, es', call, now).0
  {
  }

  lemma AnsweredAfter(p: Params, earlier: seq<Moment>, later: seq<Moment>)
    requires later != []
    ensures var m := later[|later| - 1];
      LastReplyUnswept(p, earlier + later) == Do(p, AfterUnswept(p, earlier + later[..|later| - 1]), m.call, m.at).0
  {
    var whole := earlier + later;
    assert whole[..|whole| - 1] == earlier + later[..|later| - 1];
  }

  /** A login clears the key's history: whatever came before it, every later call
      for the key is answered as if the key had never been seen. */
  lemma LoginClears(p: Params, tr: seq<Moment>, at: int, later: seq<Moment>, key: string)
    requires Ordered(tr + [Moment(Reset(key), at)] + later) && later != [] && later[|later| - 1].call.key == key
    ensures LastReply(p, tr + [Moment(Reset(key), at)] + later) == LastReply(p, later)
  {
    var earlier, m := tr + [Moment(Reset(key), at)], later[|later| - 1];
    LaterIsOrdered(earlier, later);
    SweepIsUnobservable(p, earlier + later);
    SweepIsUnobservable(p, later);
    AnsweredAfter(p, earlier, later);
    LoginStartsOver(p, tr, at, later[..|later| - 1], key);
    AnsweredAlike(p, AfterUnswept(p, earlier + later[..|later| - 1]), AfterUnswept(p, later[..|later| - 1]), m.call, m.at);
  }
}

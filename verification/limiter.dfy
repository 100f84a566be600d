/** internal/api/ratelimit.go: the limiter on failed logins. */
module Limiters {
  import opened Options

  datatype Params = Params(maxFailures: int, window: int, lockout: int)

  datatype Entry = Entry(failures: nat, firstFailed: int, lockedUntil: Option<int>)

  type Entries = map<string, Entry>

  datatype Limiter = Limiter(entries: Entries, lastGC: Option<int>)

  const NEW := Limiter(map[], None)

  const GC_INTERVAL := 600_000_000_000

  datatype Call = Allow(key: string) | RecordFailure(key: string) | Reset(key: string)

  datatype Reply = Allowed | Refused(retryAfter: int) | Silent

  // ---------------------------------------------------------------------
  // One call, without the sweep.

  /** A lockout or window that has run out is forgotten at the next check. */
  predicate Lapsed(p: Params, e: Entry, now: int) {
    e.lockedUntil.Some? || now - e.firstFailed > p.window
  }

  predicate Locked(e: Entry, now: int) {
    e.lockedUntil.Some? && now < e.lockedUntil.value
  }

  function Checked(p: Params, es: Entries, key: string, now: int): (Reply, Entries) {
    if key !in es then (Allowed, es)
    else if Locked(es[key], now) then (Refused(es[key].lockedUntil.value - now), es)
    else (Allowed, if Lapsed(p, es[key], now) then es - {key} else es)
  }

  function Counted(p: Params, e: Entry, now: int): Entry {
    e.(failures := e.failures + 1,
       lockedUntil := if e.failures + 1 >= p.maxFailures then Some(now + p.lockout) else e.lockedUntil)
  }

  function Failed(p: Params, es: Entries, key: string, now: int): Entries {
    if key !in es || now - es[key].firstFailed > p.window then es[key := Entry(1, now, None)]
    else es[key := Counted(p, es[key], now)]
  }

  function Do(p: Params, es: Entries, call: Call, now: int): (Reply, Entries) {
    match call
    case Allow(key) => Checked(p, es, key, now)
    case RecordFailure(key) => (Silent, Failed(p, es, key, now))
    case Reset(key) => (Silent, es - {key})
  }

  // ---------------------------------------------------------------------
  // The sweep, which every check may run first.

  predicate Dead(p: Params, e: Entry, now: int) {
    (e.lockedUntil.Some? ==> now > e.lockedUntil.value) && now - e.firstFailed > p.window
  }

  function Swept(p: Params, es: Entries, now: int): Entries {
    map key | key in es && !Dead(p, es[key], now) :: es[key]
  }

  predicate SweepDue(l: Limiter, now: int) {
    l.lastGC.None? || now - l.lastGC.value >= GC_INTERVAL
  }

  function MaybeSwept(p: Params, l: Limiter, now: int): Limiter {
    if SweepDue(l, now) then Limiter(Swept(p, l.entries, now), Some(now)) else l
  }

  function DoSwept(p: Params, l: Limiter, call: Call, now: int): (Reply, Limiter) {
    var l1 := if call.Allow? then MaybeSwept(p, l, now) else l;
    var (reply, es) := Do(p, l1.entries, call, now);
    (reply, l1.(entries := es))
  }

  class FailureLimiter {
    const params: Params
    var entries: Entries
    var lastGC: Option<int>

    ghost function Contents(): Limiter
      reads this
    {
      Limiter(entries, lastGC)
    }

    constructor (params: Params)
      ensures this.params == params && Contents() == NEW
    {
      this.params, entries, lastGC := params, map[], None;
    }

    method CollectGarbage(now: int)
      modifies this
      ensures Contents() == MaybeSwept(params, old(Contents()), now)
    {
      if lastGC.Some? && now - lastGC.value < GC_INTERVAL {
        return;
      }
      lastGC := Some(now);
      ghost var before := entries;
      var todo := entries.Keys;
      while todo != {}
        invariant todo <= entries.Keys && lastGC == Some(now)
        invariant forall k | k in before :: k in entries <==> k in todo || !Dead(params, before[k], now)
        invariant forall k | k in entries :: k in before && entries[k] == before[k]
        decreases |todo|
      {
        var key :| key in todo;
        var e := entries[key];
        todo := todo - {key};
        if (e.lockedUntil.None? || now > e.lockedUntil.value) && now - e.firstFailed > params.window {
          entries := entries - {key};
        }
      }
      assert entries == Swept(params, before, now);
    }

    method Check(key: string, now: int) returns (ok: bool, retryAfter: int)
      modifies this
      ensures var (reply, l) := DoSwept(params, old(Contents()), Allow(key), now);
        Contents() == l && reply == if ok then Allowed else Refused(retryAfter)
    {
      CollectGarbage(now);
      if key !in entries {
        return true, 0;
      }
      var e := entries[key];
      if e.lockedUntil.Some? && now < e.lockedUntil.value {
        return false, e.lockedUntil.value - now;
      }
      if e.lockedUntil.Some? || now - e.firstFailed > params.window {
        entries := entries - {key};
      }
      return true, 0;
    }

    method Fail(key: string, now: int)
      modifies this
      ensures Contents() == DoSwept(params, old(Contents()), RecordFailure(key), now).1
    {
      if key !in entries || now - entries[key].firstFailed > params.window {
        entries := entries[key := Entry(1, now, None)];
        return;
      }
      var e := entries[key];
      e := e.(failures := e.failures + 1);
      if e.failures >= params.maxFailures {
        e := e.(lockedUntil := Some(now + params.lockout));
      }
      entries := entries[key := e];
    }

    method Forget(key: string)
      modifies this
      ensures forall now :: Contents() == DoSwept(params, old(Contents()), Reset(key), now).1
    {
      entries := entries - {key};
    }
  }

  // ---------------------------------------------------------------------
  // Traces.

  datatype Moment = Moment(call: Call, at: int)

  /** The clock does not run backwards. */
  predicate Ordered(tr: seq<Moment>) {
    forall i, j | 0 <= i < j < |tr| :: tr[i].at <= tr[j].at
  }

  /** The limiter after a trace. */
  function After(p: Params, tr: seq<Moment>): Limiter {
    if tr == [] then NEW
    else
      var last := tr[|tr| - 1];
      DoSwept(p, After(p, tr[..|tr| - 1]), last.call, last.at).1
  }

  /** The same, had it never swept. */
  function AfterUnswept(p: Params, tr: seq<Moment>): Entries {
    if tr == [] then map[]
    else
      var last := tr[|tr| - 1];
      Do(p, AfterUnswept(p, tr[..|tr| - 1]), last.call, last.at).1
  }

  /** How the last call of a trace is answered. */
  function LastReply(p: Params, tr: seq<Moment>): Reply
    requires tr != []
  {
    var last := tr[|tr| - 1];
    DoSwept(p, After(p, tr[..|tr| - 1]), last.call, last.at).0
  }

  function LastReplyUnswept(p: Params, tr: seq<Moment>): Reply
    requires tr != []
  {
    var last := tr[|tr| - 1];
    Do(p, AfterUnswept(p, tr[..|tr| - 1]), last.call, last.at).0
  }

  // ---------------------------------------------------------------------
  // The sweep cannot be observed.

  /** What the sweep has removed could not have decided anything any more. */
  ghost predicate Same(p: Params, es: Entries, full: Entries, now: int) {
    forall key ::
      if key in es then key in full && full[key] == es[key]
      else key in full ==> Dead(p, full[key], now)
  }

  lemma SameAfterSweep(p: Params, l: Limiter, full: Entries, now: int)
    requires Same(p, l.entries, full, now)
    ensures Same(p, MaybeSwept(p, l, now).entries, full, now)
  {
  }

  lemma SameAfterCall(p: Params, es: Entries, full: Entries, call: Call, now: int)
    requires Same(p, es, full, now)
    ensures Do(p, es, call, now).0 == Do(p, full, call, now).0
    ensures Same(p, Do(p, es, call, now).1, Do(p, full, call, now).1, now)
  {
  }

  lemma {:induction false} SweptStaysSame(p: Params, tr: seq<Moment>, now: int)
    requires Ordered(tr) && (tr != [] ==> tr[|tr| - 1].at <= now)
    ensures Same(p, After(p, tr).entries, AfterUnswept(p, tr), now)
  {
    if tr != [] {
      var last, shorter := tr[|tr| - 1], tr[..|tr| - 1];
      SweptStaysSame(p, shorter, last.at);
      var l, full := After(p, shorter), AfterUnswept(p, shorter);
      SameAfterSweep(p, l, full, last.at);
      var l1 := if last.call.Allow? then MaybeSwept(p, l, last.at) else l;
      SameAfterCall(p, l1.entries, full, last.call, last.at);
      SameLater(p, After(p, tr).entries, AfterUnswept(p, tr), last.at, now);
    }
  }

  lemma SameLater(p: Params, es: Entries, full: Entries, t: int, now: int)
    requires Same(p, es, full, t) && t <= now
    ensures Same(p, es, full, now)
  {
  }

  /** On every trace, every call is answered as if the sweep did not exist. */
  lemma SweepIsUnobservable(p: Params, tr: seq<Moment>)
    requires Ordered(tr) && tr != []
    ensures LastReply(p, tr) == LastReplyUnswept(p, tr)
  {
    var last, shorter := tr[|tr| - 1], tr[..|tr| - 1];
    SweptStaysSame(p, shorter, last.at);
    var l, full := After(p, shorter), AfterUnswept(p, shorter);
    SameAfterSweep(p, l, full, last.at);
    var l1 := if last.call.Allow? then MaybeSwept(p, l, last.at) else l;
    SameAfterCall(p, l1.entries, full, last.call, last.at);
  }

  // ---------------------------------------------------------------------
  // A limit below two is a limit of two.

  ghost predicate OnceCounted(es: Entries) {
    forall key | key in es :: es[key].failures >= 1
  }

  /** The threshold is only looked at from the second failure on. */
  lemma {:induction false} SmallLimitsAreTwo(p: Params, tr: seq<Moment>)
    requires p.maxFailures <= 2
    ensures After(p, tr) == After(p.(maxFailures := 2), tr) && OnceCounted(After(p, tr).entries)
  {
    if tr != [] {
      SmallLimitsAreTwo(p, tr[..|tr| - 1]);
    }
  }
}

/** runWake's loop: waking the fleet in order, behind dependencies and guard
    periods. */
module Waking {
  import opened Plans

  datatype ClientState = Unknown | Up | ShuttingDown | Down | DownUnverified | Waking | Failed

  /** What the executor knows about its clients, and the clock it reads. */
  datatype Board = Board(states: map<string, ClientState>, since: map<string, int>, now: int)

  function StateOf(b: Board, name: string): ClientState {
    if name in b.states then b.states[name] else Unknown
  }

  /** setClientState: the time is that of the last change. */
  function WithState(b: Board, name: string, s: ClientState): Board {
    b.(states := b.states[name := s],
       since := if name !in b.states || b.states[name] != s then b.since[name := b.now] else b.since)
  }

  /** timeSinceSettled: no credit for a change this process did not see. */
  function SinceSettled(b: Board, name: string): int {
    if name in b.since then b.now - b.since[name] else 0
  }

  function Slept(b: Board, d: int): Board {
    if d > 0 then b.(now := b.now + d) else b
  }

  function Find(fleet: Fleet, name: string): (r: int)
    ensures -1 <= r < |fleet|
    ensures r >= 0 ==> fleet[r].name == name && forall i | 0 <= i < r :: fleet[i].name != name
    ensures r < 0 ==> forall c | c in fleet :: c.name != name
  {
    if fleet == [] then -1
    else if fleet[0].name == name then 0
    else
      var r := Find(fleet[1..], name);
      assert fleet == [fleet[0]] + fleet[1..];
      if r < 0 then -1 else r + 1
  }

  predicate DependenciesMet(b: Board, c: ClientDef) {
    forall d | d in c.dependsOn :: StateOf(b, d).Up?
  }

  /** How wakeClient ends, whatever the transport and the probes did. */
  datatype WakeEnd = NoTransport | CameUp | NeverCameUp | Abandoned

  /** One turn of the loop as the outside world plays it: whether an abort is
      pending at its top, how the attempt ends and how long it takes. */
  datatype Turn = Turn(abort: bool, end: WakeEnd, took: nat)

  datatype Verdict = NotAClient | AlreadyUp | Retained | DependencyDown | Attempted

  /** What the loop did for one client; `at` is when the wake command went out,
      `guardSleep` how long the guard period was waited for. */
  datatype Entry = Entry(name: string, verdict: Verdict, guardSleep: int, at: int)

  function GuardSleep(b: Board, c: ClientDef, name: string): int {
    if StateOf(b, name).DownUnverified? && c.guard - SinceSettled(b, name) > 0
    then c.guard - SinceSettled(b, name) else 0
  }

  /** wakeClient. */
  function Woken(b: Board, name: string, t: Turn): Board {
    if t.end.NoTransport? then WithState(b, name, Failed)
    else
      var b1 := Slept(WithState(b, name, Waking), t.took);
      match t.end
      case CameUp => WithState(b1, name, Up)
      case NeverCameUp => WithState(b1, name, Failed)
      case _ => b1
  }

  /** One turn of the loop that no abort cuts short. */
  function Step(fleet: Fleet, pre: map<string, ClientState>, b: Board, name: string, t: Turn, stagger: int): (Board, Entry) {
    var k := Find(fleet, name);
    if k < 0 then (b, Entry(name, NotAClient, 0, b.now))
    else
      var c := fleet[k];
      if StateOf(b, name).Up? then (b, Entry(name, AlreadyUp, 0, b.now))
      else if c.retains && name in pre && !pre[name].Up? then (b, Entry(name, Retained, 0, b.now))
      else if !DependenciesMet(b, c) then (WithState(b, name, Failed), Entry(name, DependencyDown, 0, b.now))
      else
        var b1 := Slept(b, GuardSleep(b, c, name));
        (Slept(Woken(b1, name, t), stagger), Entry(name, Attempted, GuardSleep(b, c, name), b1.now))
  }

  /** Between two clients, but not after the last. */
  function Stagger(stagger: int, i: nat, n: nat): int {
    if i + 1 < n then stagger else 0
  }

  /** Everything one wake loop is given. */
  datatype Wake = Wake(
    fleet: Fleet,
    pre: map<string, ClientState>,
    start: Board,
    order: seq<string>,
    turns: seq<Turn>,
    stagger: int)

  /** The board before turn `n`. */
  function BoardAt(w: Wake, n: nat): Board
    requires n <= |w.order| <= |w.turns|
  {
    if n == 0 then w.start
    else Step(w.fleet, w.pre, BoardAt(w, n - 1), w.order[n - 1], w.turns[n - 1], Stagger(w.stagger, n - 1, |w.order|)).0
  }

  /** What turn `n` does. */
  function EntryAt(w: Wake, n: nat): Entry
    requires n < |w.order| <= |w.turns|
  {
    Step(w.fleet, w.pre, BoardAt(w, n), w.order[n], w.turns[n], Stagger(w.stagger, n, |w.order|)).1
  }

  /** The first turn that finds an abort pending. */
  function Turns(ts: seq<Turn>, n: nat): (k: nat)
    requires n <= |ts|
    ensures k <= n && (forall i | 0 <= i < k :: !ts[i].abort) && (k < n ==> ts[k].abort)
  {
    if n == 0 then 0
    else
      var k := Turns(ts, n - 1);
      if k < n - 1 || ts[n - 1].abort then k else n
  }

  /** The part of the executor that tracks clients. */
  class Clients {
    var states: map<string, ClientState>
    var since: map<string, int>
    var now: int

    ghost function View(): Board
      reads this
    {
      Board(states, since, now)
    }

    constructor (states: map<string, ClientState>, now: int)
      ensures View() == Board(states, map[], now)
    {
      this.states, this.since, this.now := states, map[], now;
    }

    method SetClientState(name: string, s: ClientState)
      modifies this
      ensures View() == WithState(old(View()), name, s)
    {
      var changed := name !in states || states[name] != s;
      states := states[name := s];
      if changed {
        since := since[name := now];
      }
    }

    method Sleep(d: int)
      modifies this
      ensures View() == Slept(old(View()), d)
    {
      if d > 0 {
        now := now + d;
      }
    }

    method WakeClient(name: string, t: Turn)
      modifies this
      ensures View() == Woken(old(View()), name, t)
    {
      if t.end == NoTransport {
        SetClientState(name, Failed);
        return;
      }
      SetClientState(name, Waking);
      Sleep(t.took);
      if t.end == CameUp {
        SetClientState(name, Up);
      } else if t.end == NeverCameUp {
        SetClientState(name, Failed);
      }
    }

    method DependenciesUp(c: ClientDef) returns (met: bool)
      ensures met <==> DependenciesMet(View(), c)
    {
      for i := 0 to |c.dependsOn|
        invariant forall j | 0 <= j < i :: StateOf(View(), c.dependsOn[j]).Up?
      {
        var d := c.dependsOn[i];
        if d !in states || states[d] != Up {
          assert !StateOf(View(), c.dependsOn[i]).Up?;
          return false;
        }
      }
      return true;
    }

    /** One turn, after the abort check. */
    method WakeTurn(fleet: Fleet, pre: map<string, ClientState>, name: string, t: Turn, stagger: int) returns (e: Entry)
      modifies this
      ensures (View(), e) == Step(fleet, pre, old(View()), name, t, stagger)
    {
      var k := Find(fleet, name);
      if k < 0 {
        return Entry(name, NotAClient, 0, now);
      }
      var c := fleet[k];
      var state := if name in states then states[name] else Unknown;
      if state == Up {
        return Entry(name, AlreadyUp, 0, now);
      }
      if c.retains && name in pre && pre[name] != Up {
        return Entry(name, Retained, 0, now);
      }
      var met := DependenciesUp(c);
      if !met {
        e := Entry(name, DependencyDown, 0, now);
        SetClientState(name, Failed);
        return;
      }
      var waited := 0;
      if state == DownUnverified {
        var settled := if name in since then now - since[name] else 0;
        var remaining := c.guard - settled;
        if remaining > 0 {
          waited := remaining;
          Sleep(remaining);
        }
      }
      e := Entry(name, Attempted, waited, now);
      WakeClient(name, t);
      Sleep(stagger);
    }

    /** The loop. */
    method RunWake(fleet: Fleet, pre: map<string, ClientState>, order: seq<string>, ts: seq<Turn>, stagger: int)
      returns (log: seq<Entry>, aborted: bool)
      requires |order| <= |ts|
      modifies this
      ensures |log| == Turns(ts, |order|) && (aborted <==> |log| < |order|)
      ensures var w := Wake(fleet, pre, old(View()), order, ts, stagger);
        View() == BoardAt(w, |log|) && forall i | 0 <= i < |log| :: log[i] == EntryAt(w, i)
    {
      ghost var w := Wake(fleet, pre, View(), order, ts, stagger);
      log := [];
      for i := 0 to |order|
        invariant |log| == i == Turns(ts, i)
        invariant View() == BoardAt(w, i)
        invariant forall j | 0 <= j < i :: log[j] == EntryAt(w, j)
      {
        if ts[i].abort {
          TurnsStop(ts, i, |order|);
          return log, true;
        }
        var e := WakeTurn(fleet, pre, order[i], ts[i], if i < |order| - 1 then stagger else 0);
        log := log + [e];
      }
      return log, false;
    }
  }

  lemma {:induction false} TurnsStop(ts: seq<Turn>, i: nat, n: nat)
    requires i < n <= |ts| && ts[i].abort && Turns(ts, i) == i
    ensures Turns(ts, n) == i
  {
    if i + 1 < n {
      TurnsStop(ts, i, n - 1);
    }
  }
}

/** The checks that make a plan's stages agree with depends_on, and the wake
    order that follows from them. */
module StageOrder {
  import opened Plans

  /** No client is listed in two stages. */
  predicate Disjoint(ls: seq<seq<string>>) {
    forall i, j, x | 0 <= i < j < |ls| && x in ls[i] :: x !in ls[j]
  }

  /** Where both are in the plan, a dependency goes down strictly after the client
      that depends on it. */
  predicate DependenciesLater(fleet: Fleet, ls: seq<seq<string>>) {
    forall c, d, i, j | c in fleet && d in c.dependsOn && 0 <= i < |ls| && 0 <= j < |ls| && c.name in ls[i] && d in ls[j] ::
      i < j
  }

  predicate StagesFit(fleet: Fleet, stages: seq<Refs>) {
    Disjoint(Lists(fleet, stages)) && DependenciesLater(fleet, Lists(fleet, stages))
  }

  // ---------------------------------------------------------------------
  // The checks.

  datatype StageError =
    | Repeated(client: string, first: nat, again: nat)
    | SameStage(client: string, dep: string)
    | WrongOrder(client: string, stage: nat, dep: string, depStage: nat)

  /** What the client-to-stage map holds after the first `n` stages. */
  ghost predicate Places(at: map<string, nat>, ls: seq<seq<string>>, n: nat)
    requires n <= |ls|
  {
    && (forall x | x in at :: at[x] < n && x in ls[at[x]])
    && (forall k, x | 0 <= k < n && x in ls[k] :: x in at)
  }

  /** No repetition so far means the map gives each client its only stage. */
  ghost predicate PlacesOnly(at: map<string, nat>, ls: seq<seq<string>>, n: nat)
    requires n <= |ls|
  {
    forall k, x | 0 <= k < n && x in ls[k] :: x in at && at[x] == k
  }

  method PlaceStage(at: map<string, nat>, names: seq<string>, i: nat) returns (at': map<string, nat>, errors: seq<StageError>)
    requires NoRepeats(names)
    ensures forall x :: x in at' <==> x in at || x in names
    ensures forall x | x in at' :: at'[x] == if x in names then i else at[x]
    ensures errors == [] <==> forall x | x in names :: x !in at
  {
    at', errors := at, [];
    for j := 0 to |names|
      invariant forall x :: x in at' <==> x in at || x in names[..j]
      invariant forall x | x in at' :: at'[x] == if x in names[..j] then i else at[x]
      invariant errors == [] <==> forall x | x in names[..j] :: x !in at
    {
      var name := names[j];
      assert name !in names[..j];
      assert names[..j + 1] == names[..j] + [name];
      if name in at' {
        errors := errors + [Repeated(name, at'[name], i)];
      }
      at' := at'[name := i];
    }
    assert names[..|names|] == names;
  }

  lemma PlacedMore(at: map<string, nat>, at': map<string, nat>, ls: seq<seq<string>>, i: nat)
    requires i < |ls| && Places(at, ls, i)
    requires forall x :: x in at' <==> x in at || x in ls[i]
    requires forall x | x in at' :: at'[x] == if x in ls[i] then i else at[x]
    ensures Places(at', ls, i + 1)
    ensures PlacesOnly(at, ls, i) && (forall x | x in ls[i] :: x !in at) ==> PlacesOnly(at', ls, i + 1)
    ensures (exists x | x in ls[i] :: x in at) ==> !Disjoint(ls)
  {
  }

  lemma OneStageEach(at: map<string, nat>, ls: seq<seq<string>>)
    requires PlacesOnly(at, ls, |ls|)
    ensures Disjoint(ls)
  {
    forall i, j, x | 0 <= i < j < |ls| && x in ls[i] ensures x !in ls[j] {
      assert at[x] == i;
    }
  }

  method PlaceClients(fleet: Fleet, stages: seq<Refs>) returns (at: map<string, nat>, errors: seq<StageError>)
    ensures errors == [] <==> Disjoint(Lists(fleet, stages))
    ensures errors == [] ==> PlacesOnly(at, Lists(fleet, stages), |stages|) && Places(at, Lists(fleet, stages), |stages|)
  {
    ghost var ls := Lists(fleet, stages);
    at, errors := map[], [];
    for i := 0 to |stages|
      invariant Places(at, ls, i)
      invariant errors == [] ==> PlacesOnly(at, ls, i)
      invariant errors != [] ==> !Disjoint(ls)
    {
      var names := ResolveClientRefs(fleet, stages[i]);
      ResolvedExactly(fleet, stages[i]);
      var at', es := PlaceStage(at, names, i);
      PlacedMore(at, at', ls, i);
      at, errors := at', errors + es;
    }
    if errors == [] {
      OneStageEach(at, ls);
    }
  }

  /** The client's dependencies against the map. */
  predicate Later(at: map<string, nat>, c: ClientDef, d: string) {
    c.name in at && d in at ==> at[c.name] < at[d]
  }

  method CheckDependencies(c: ClientDef, at: map<string, nat>) returns (errors: seq<StageError>)
    ensures errors == [] <==> forall d | d in c.dependsOn :: Later(at, c, d)
  {
    errors := [];
    if c.name !in at {
      return;
    }
    for j := 0 to |c.dependsOn|
      invariant errors == [] <==> forall d | d in c.dependsOn[..j] :: Later(at, c, d)
    {
      var d := c.dependsOn[j];
      assert c.dependsOn[..j + 1] == c.dependsOn[..j] + [d];
      assert (forall e | e in c.dependsOn[..j + 1] :: Later(at, c, e)) <==>
             (forall e | e in c.dependsOn[..j] :: Later(at, c, e)) && Later(at, c, d);
      if d in at {
        if at[c.name] == at[d] {
          errors := errors + [SameStage(c.name, d)];
        }
        if at[c.name] > at[d] {
          errors := errors + [WrongOrder(c.name, at[c.name], d, at[d])];
        }
      }
    }
    assert c.dependsOn[..|c.dependsOn|] == c.dependsOn;
  }

  lemma MapTellsOrder(fleet: Fleet, ls: seq<seq<string>>, at: map<string, nat>)
    requires Places(at, ls, |ls|) && PlacesOnly(at, ls, |ls|)
    ensures DependenciesLater(fleet, ls) <==> forall c, d | c in fleet && d in c.dependsOn :: Later(at, c, d)
  {
    if forall c, d | c in fleet && d in c.dependsOn :: Later(at, c, d) {
      forall c, d, i, j | c in fleet && d in c.dependsOn && 0 <= i < |ls| && 0 <= j < |ls| && c.name in ls[i] && d in ls[j]
        ensures i < j {
        assert Later(at, c, d);
      }
    }
  }

  /** The stage checks for one plan: silent exactly when no client is in two
      stages and every dependency in the plan goes down in a later stage. */
  method ValidateStages(fleet: Fleet, stages: seq<Refs>) returns (errors: seq<StageError>)
    ensures errors == [] <==> StagesFit(fleet, stages)
  {
    var at, repeats := PlaceClients(fleet, stages);
    errors := repeats;
    ghost var ls := Lists(fleet, stages);
    for i := 0 to |fleet|
      invariant errors == [] <==> repeats == [] && forall c, d | c in fleet[..i] && d in c.dependsOn :: Later(at, c, d)
    {
      assert fleet[..i + 1] == fleet[..i] + [fleet[i]];
      var es := CheckDependencies(fleet[i], at);
      errors := errors + es;
    }
    assert fleet[..|fleet|] == fleet;
    if repeats == [] {
      MapTellsOrder(fleet, ls, at);
    }
  }

  // ---------------------------------------------------------------------
  // The wake order.

  function Concat(ls: seq<seq<string>>): seq<string> {
    if ls == [] then [] else Concat(ls[..|ls| - 1]) + ls[|ls| - 1]
  }

  function ConcatReversed(ls: seq<seq<string>>): seq<string> {
    if ls == [] then [] else ls[|ls| - 1] + ConcatReversed(ls[..|ls| - 1])
  }

  /** Explicit wake stages in order, or else the shutdown stages backwards. */
  function WakeOrder(fleet: Fleet, stages: seq<Refs>, wake: seq<Refs>): seq<string> {
    Added([], if wake != [] then Concat(Lists(fleet, wake)) else ConcatReversed(Lists(fleet, stages)))
  }

  lemma ConcatNext(ls: seq<seq<string>>, i: nat)
    requires i < |ls|
    ensures Added([], Concat(ls[..i + 1])) == Added(Added([], Concat(ls[..i])), ls[i])
  {
    assert ls[..i + 1][..i] == ls[..i];
    AddedTogether([], Concat(ls[..i]), ls[i]);
  }

  lemma ReversedNext(order: seq<string>, ls: seq<seq<string>>, i: nat)
    requires i < |ls|
    ensures Added(order, ConcatReversed(ls[..i + 1])) == Added(Added(order, ls[i]), ConcatReversed(ls[..i]))
  {
    assert ls[..i + 1][..i] == ls[..i];
    AddedTogether(order, ls[i], ConcatReversed(ls[..i]));
  }

  method ComputeWakeOrder(fleet: Fleet, stages: seq<Refs>, wake: seq<Refs>) returns (order: seq<string>)
    ensures order == WakeOrder(fleet, stages, wake)
  {
    order := [];
    var seen: set<string> := {};
    if |wake| > 0 {
      ghost var ls := Lists(fleet, wake);
      for i := 0 to |wake|
        invariant order == Added([], Concat(ls[..i])) && forall x :: x in seen <==> x in order
      {
        ConcatNext(ls, i);
        var names := ResolveClientRefs(fleet, wake[i]);
        order, seen := AddUnseen(order, seen, names);
      }
      assert ls[..|wake|] == ls;
      return;
    }
    ghost var ls := Lists(fleet, stages);
    assert ls[..|stages|] == ls;
    for i := |stages| downto 0
      invariant forall x :: x in seen <==> x in order
      invariant Added(order, ConcatReversed(ls[..i])) == Added([], ConcatReversed(ls))
    {
      ReversedNext(order, ls, i);
      var names := ResolveClientRefs(fleet, stages[i]);
      order, seen := AddUnseen(order, seen, names);
    }
  }

  lemma {:induction false} ConcatReversedMember(ls: seq<seq<string>>, x: string)
    ensures x in ConcatReversed(ls) <==> exists l | l in ls :: x in l
  {
    if ls != [] {
      var shorter := ls[..|ls| - 1];
      ConcatReversedMember(shorter, x);
      assert ls == shorter + [ls[|ls| - 1]];
      if x in ConcatReversed(shorter) {
        var l :| l in shorter && x in l;
        assert l in ls;
      }
    }
  }

  lemma NotInTwo(ls: seq<seq<string>>, x: string)
    requires ls != [] && Disjoint(ls) && x in ls[|ls| - 1]
    ensures x !in ConcatReversed(ls[..|ls| - 1])
  {
    var shorter := ls[..|ls| - 1];
    ConcatReversedMember(shorter, x);
    assert forall k | 0 <= k < |shorter| :: shorter[k] == ls[k] && x !in ls[k];
  }

  lemma {:induction false} ReversedNoRepeats(ls: seq<seq<string>>)
    requires Disjoint(ls) && forall i | 0 <= i < |ls| :: NoRepeats(ls[i])
    ensures NoRepeats(ConcatReversed(ls))
  {
    if ls != [] {
      var last, shorter := ls[|ls| - 1], ls[..|ls| - 1];
      ReversedNoRepeats(shorter);
      forall x | x in last ensures x !in ConcatReversed(shorter) {
        NotInTwo(ls, x);
      }
      var whole := ConcatReversed(ls);
      forall i, j | 0 <= i < j < |whole| ensures whole[i] != whole[j] {
        if i < |last| <= j {
          assert whole[i] in last && whole[j] in ConcatReversed(shorter);
        }
      }
    }
  }

  /** Later stages come first. */
  lemma {:induction false} LaterStageFirst(ls: seq<seq<string>>, i: nat, j: nat, a: string, b: string)
    requires Disjoint(ls) && i < j < |ls| && a in ls[i] && b in ls[j]
    ensures Before(ConcatReversed(ls), b, a)
    decreases |ls|
  {
    var last, shorter := ls[|ls| - 1], ls[..|ls| - 1];
    assert a !in last;
    if j == |ls| - 1 {
      NotInTwo(ls, b);
      assert ConcatReversed(ls) == last + ConcatReversed(shorter);
    } else {
      LaterStageFirst(shorter, i, j, a, b);
      assert b !in last;
      var whole, rest := ConcatReversed(ls), ConcatReversed(shorter);
      forall k, m | 0 <= k < |whole| && 0 <= m < |whole| && whole[k] == b && whole[m] == a ensures k < m {
        assert rest[k - |last|] == b && rest[m - |last|] == a;
      }
    }
  }

  /** With the stage checks silent and no explicit wake stages, the wake order has
      no repetition, holds exactly the clients of the shutdown stages, and lists
      every dependency before all that depend on it. */
  lemma WakeOrderIsSound(fleet: Fleet, stages: seq<Refs>)
    requires StagesFit(fleet, stages)
    ensures var order := WakeOrder(fleet, stages, []);
      && NoRepeats(order)
      && (forall x :: x in order <==> exists i | 0 <= i < |stages| :: x in Resolved(fleet, stages[i]))
      && (forall c, d | c in fleet && d in c.dependsOn && c.name in order && d in order :: Before(order, d, c.name))
  {
    var ls := Lists(fleet, stages);
    forall i | 0 <= i < |ls| ensures NoRepeats(ls[i]) {
      ResolvedExactly(fleet, stages[i]);
    }
    ReversedNoRepeats(ls);
    var order := ConcatReversed(ls);
    assert [] + order == order;
    AddedDistinct([], order);
    forall x ensures x in order <==> exists i | 0 <= i < |stages| :: x in Resolved(fleet, stages[i]) {
      InSomeStage(fleet, stages, x);
    }
    forall c, d | c in fleet && d in c.dependsOn && c.name in order && d in order ensures Before(order, d, c.name) {
      InSomeStage(fleet, stages, c.name);
      InSomeStage(fleet, stages, d);
      var i :| 0 <= i < |stages| && c.name in Resolved(fleet, stages[i]);
      var j :| 0 <= j < |stages| && d in Resolved(fleet, stages[j]);
      assert c.name in ls[i] && d in ls[j];
      LaterStageFirst(ls, i, j, c.name, d);
    }
  }

  lemma InSomeStage(fleet: Fleet, stages: seq<Refs>, x: string)
    ensures x in ConcatReversed(Lists(fleet, stages)) <==> exists i | 0 <= i < |stages| :: x in Resolved(fleet, stages[i])
  {
    var ls := Lists(fleet, stages);
    ConcatReversedMember(ls, x);
    if x in ConcatReversed(ls) {
      var l :| l in ls && x in l;
      var i :| 0 <= i < |ls| && ls[i] == l;
      assert x in Resolved(fleet, stages[i]);
    }
    if i :| 0 <= i < |stages| && x in Resolved(fleet, stages[i]) {
      assert ls[i] in ls;
    }
  }
}

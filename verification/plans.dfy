/** Client references, the stage checks of internal/config/validate.go and the
    wake order the executor derives from a plan. */
module Plans {

  /** `guard` is guard_period in nanoseconds; `retains` is wake_policy
      retain_state. */
  datatype ClientDef = ClientDef(name: string, tags: seq<string>, dependsOn: seq<string>, guard: int, retains: bool)

  type Fleet = seq<ClientDef>

  /** The client references of one stage: names, or "tag:" and a tag. */
  type Refs = seq<string>

  // ---------------------------------------------------------------------
  // Lists without repetition.

  predicate NoRepeats(s: seq<string>) {
    forall i, j | 0 <= i < j < |s| :: s[i] != s[j]
  }

  /** Every occurrence of `a` lies before every occurrence of `b`. */
  predicate Before(s: seq<string>, a: string, b: string) {
    forall i, j | 0 <= i < |s| && 0 <= j < |s| && s[i] == a && s[j] == b :: i < j
  }

  /** `names` appended one by one, those already present left out. */
  function Added(acc: seq<string>, names: seq<string>): seq<string> {
    if names == [] then acc
    else
      var r, last := Added(acc, names[..|names| - 1]), names[|names| - 1];
      if last in r then r else r + [last]
  }

  lemma {:induction false} AddedTogether(acc: seq<string>, a: seq<string>, b: seq<string>)
    ensures Added(acc, a + b) == Added(Added(acc, a), b)
  {
    if b == [] {
      assert a + b == a;
    } else {
      AddedTogether(acc, a, b[..|b| - 1]);
      assert (a + b)[..|a + b| - 1] == a + b[..|b| - 1];
    }
  }

  /** First position of `x`. */
  function First(s: seq<string>, x: string): (k: nat)
    requires x in s
    ensures k < |s| && s[k] == x && x !in s[..k]
  {
    if s[0] == x then 0 else First(s[1..], x) + 1
  }

  lemma {:induction false} FirstUnderExtension(s: seq<string>, t: seq<string>, x: string)
    requires x in s
    ensures First(s + t, x) == First(s, x)
  {
    if s[0] != x {
      assert (s + t)[1..] == s[1..] + t;
      FirstUnderExtension(s[1..], t, x);
    }
  }

  /** The list keeps exactly the names given, each once, in order of first
      mention; this determines it. */
  lemma {:induction false} AddedKeepsFirsts(names: seq<string>)
    ensures var r := Added([], names);
      && NoRepeats(r)
      && (forall x :: x in r <==> x in names)
      && (forall i, j | 0 <= i < j < |r| :: First(names, r[i]) < First(names, r[j]))
  {
    if names != [] {
      var shorter, last := names[..|names| - 1], names[|names| - 1];
      AddedKeepsFirsts(shorter);
      var before, r := Added([], shorter), Added([], names);
      assert names == shorter + [last];
      forall x | x in shorter ensures First(names, x) == First(shorter, x) {
        FirstUnderExtension(shorter, [last], x);
      }
      forall i, j | 0 <= i < j < |r| ensures First(names, r[i]) < First(names, r[j]) {
        assert r[i] in before;
        if j == |before| {
          assert First(names, last) == |shorter| by {
            assert forall k | 0 <= k < |shorter| :: names[k] == shorter[k] && shorter[k] in shorter;
          }
        } else {
          assert r[j] == before[j];
        }
      }
    }
  }

  lemma {:induction false} AddedDistinct(acc: seq<string>, names: seq<string>)
    requires NoRepeats(acc + names)
    ensures Added(acc, names) == acc + names
  {
    if names != [] {
      var shorter := names[..|names| - 1];
      assert acc + shorter == (acc + names)[..|acc + names| - 1];
      AddedDistinct(acc, shorter);
      assert names[|names| - 1] == (acc + names)[|acc + names| - 1];
      assert names[|names| - 1] !in acc + shorter;
      assert acc + names == acc + shorter + [names[|names| - 1]];
    }
  }

  method AddUnseen(acc: seq<string>, seen: set<string>, names: seq<string>) returns (r: seq<string>, seen': set<string>)
    requires forall x :: x in seen <==> x in acc
    ensures r == Added(acc, names) && forall x :: x in seen' <==> x in r
  {
    r, seen' := acc, seen;
    for i := 0 to |names|
      invariant r == Added(acc, names[..i]) && forall x :: x in seen' <==> x in r
    {
      assert names[..i + 1][..i] == names[..i];
      if names[i] !in seen' {
        seen' := seen' + {names[i]};
        r := r + [names[i]];
      }
    }
    assert names[..|names|] == names;
  }

  // ---------------------------------------------------------------------
  // Tags.

  const TAG := "tag:"

  function Copies(tags: seq<string>, tag: string, name: string): seq<string> {
    if tags == [] then []
    else Copies(tags[..|tags| - 1], tag, name) + if tags[|tags| - 1] == tag then [name] else []
  }

  /** Clients carrying `tag`, in declaration order. */
  function Tagged(fleet: Fleet, tag: string): seq<string> {
    if fleet == [] then []
    else
      var c := fleet[|fleet| - 1];
      Tagged(fleet[..|fleet| - 1], tag) + Copies(c.tags, tag, c.name)
  }

  lemma {:induction false} CopiesMember(tags: seq<string>, tag: string, name: string, x: string)
    ensures x in Copies(tags, tag, name) <==> x == name && tag in tags
  {
    if tags != [] {
      CopiesMember(tags[..|tags| - 1], tag, name, x);
    }
  }

  lemma {:induction false} TaggedMember(fleet: Fleet, tag: string, x: string)
    ensures x in Tagged(fleet, tag) <==> exists c | c in fleet :: c.name == x && tag in c.tags
  {
    if fleet != [] {
      var c := fleet[|fleet| - 1];
      TaggedMember(fleet[..|fleet| - 1], tag, x);
      CopiesMember(c.tags, tag, c.name, x);
      assert fleet == fleet[..|fleet| - 1] + [c];
    }
  }

  function Lookup(m: map<string, seq<string>>, k: string): seq<string> {
    if k in m then m[k] else []
  }

  /** One tag more. */
  lemma TagAdded(tags: map<string, seq<string>>, tags': map<string, seq<string>>, done: seq<string>, tag: string, name: string, t: string)
    requires Lookup(tags', t) == Lookup(tags, t) + Copies(done, t, name)
    ensures Lookup(tags'[tag := Lookup(tags', tag) + [name]], t) == Lookup(tags, t) + Copies(done + [tag], t, name)
  {
    assert (done + [tag])[..|done|] == done;
    assert Lookup(tags, t) + Copies(done, t, name) + [name] == Lookup(tags, t) + (Copies(done, t, name) + [name]);
  }

  /** Appends the client under each of its tags. */
  method TagClient(tags: map<string, seq<string>>, c: ClientDef) returns (tags': map<string, seq<string>>)
    ensures forall t :: Lookup(tags', t) == Lookup(tags, t) + Copies(c.tags, t, c.name)
  {
    tags' := tags;
    for j := 0 to |c.tags|
      invariant forall t :: Lookup(tags', t) == Lookup(tags, t) + Copies(c.tags[..j], t, c.name)
    {
      forall t ensures Lookup(tags'[c.tags[j] := Lookup(tags', c.tags[j]) + [c.name]], t) ==
                       Lookup(tags, t) + Copies(c.tags[..j + 1], t, c.name)
      {
        TagAdded(tags, tags', c.tags[..j], c.tags[j], c.name, t);
        assert c.tags[..j + 1] == c.tags[..j] + [c.tags[j]];
      }
      tags' := tags'[c.tags[j] := Lookup(tags', c.tags[j]) + [c.name]];
    }
    assert c.tags[..|c.tags|] == c.tags;
  }

  method BuildTagMap(fleet: Fleet) returns (tags: map<string, seq<string>>)
    ensures forall t :: Lookup(tags, t) == Tagged(fleet, t)
  {
    tags := map[];
    for i := 0 to |fleet|
      invariant forall t :: Lookup(tags, t) == Tagged(fleet[..i], t)
    {
      assert fleet[..i + 1][..i] == fleet[..i];
      tags := TagClient(tags, fleet[i]);
    }
    assert fleet[..|fleet|] == fleet;
  }

  // ---------------------------------------------------------------------
  // References.

  function Expand(fleet: Fleet, ref: string): seq<string> {
    if TAG <= ref then Tagged(fleet, ref[|TAG|..]) else [ref]
  }

  function Expansion(fleet: Fleet, refs: Refs): seq<string> {
    if refs == [] then []
    else Expansion(fleet, refs[..|refs| - 1]) + Expand(fleet, refs[|refs| - 1])
  }

  /** The clients a list of references stands for. */
  function Resolved(fleet: Fleet, refs: Refs): seq<string> {
    Added([], Expansion(fleet, refs))
  }

  /** `x` is what `ref` names, or carries the tag it names. */
  ghost predicate Refers(fleet: Fleet, ref: string, x: string) {
    if TAG <= ref then exists c | c in fleet :: c.name == x && ref[|TAG|..] in c.tags else x == ref
  }

  lemma ExpandMember(fleet: Fleet, ref: string, x: string)
    ensures x in Expand(fleet, ref) <==> Refers(fleet, ref, x)
  {
    if TAG <= ref {
      TaggedMember(fleet, ref[|TAG|..], x);
    }
  }

  lemma {:induction false} ExpansionMember(fleet: Fleet, refs: Refs, x: string)
    ensures x in Expansion(fleet, refs) <==> exists ref | ref in refs :: Refers(fleet, ref, x)
  {
    if refs != [] {
      var shorter, last := refs[..|refs| - 1], refs[|refs| - 1];
      ExpansionMember(fleet, shorter, x);
      ExpandMember(fleet, last, x);
      assert refs == shorter + [last];
      if x in Expansion(fleet, shorter) {
        var ref :| ref in shorter && Refers(fleet, ref, x);
        assert ref in refs;
      }
    }
  }

  lemma ResolvedExactly(fleet: Fleet, refs: Refs)
    ensures NoRepeats(Resolved(fleet, refs))
    ensures forall x :: x in Resolved(fleet, refs) <==> exists ref | ref in refs :: Refers(fleet, ref, x)
  {
    AddedKeepsFirsts(Expansion(fleet, refs));
    forall x ensures x in Expansion(fleet, refs) <==> exists ref | ref in refs :: Refers(fleet, ref, x) {
      ExpansionMember(fleet, refs, x);
    }
  }

  method ResolveClientRefs(fleet: Fleet, refs: Refs) returns (result: seq<string>)
    ensures result == Resolved(fleet, refs)
  {
    var tags := BuildTagMap(fleet);
    var seen: set<string> := {};
    result := [];
    for i := 0 to |refs|
      invariant result == Resolved(fleet, refs[..i]) && forall x :: x in seen <==> x in result
    {
      var ref := refs[i];
      assert refs[..i + 1][..i] == refs[..i];
      AddedTogether([], Expansion(fleet, refs[..i]), Expand(fleet, ref));
      if TAG <= ref {
        result, seen := AddUnseen(result, seen, Lookup(tags, ref[|TAG|..]));
      } else {
        result, seen := AddUnseen(result, seen, [ref]);
      }
    }
    assert refs[..|refs|] == refs;
  }

  /** Each stage's clients, resolved. */
  function Lists(fleet: Fleet, stages: seq<Refs>): (ls: seq<seq<string>>)
    ensures |ls| == |stages| && forall i | 0 <= i < |ls| :: ls[i] == Resolved(fleet, stages[i])
  {
    seq(|stages|, i requires 0 <= i < |stages| => Resolved(fleet, stages[i]))
  }
}

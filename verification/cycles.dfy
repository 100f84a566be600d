/** The depth-first search of internal/config/validate.go that refuses cyclic
    depends_on graphs. */
module Cycles {

  /** Each client's depends_on; a dependency need not be a client. */
  type Graph = map<string, seq<string>>

  function Deps(g: Graph, n: string): seq<string> {
    if n in g then g[n] else []
  }

  ghost predicate IsPath(g: Graph, p: seq<string>) {
    forall i | 0 < i < |p| :: p[i] in Deps(g, p[i - 1])
  }

  /** The edge from `a` to `b` closes a path from `b` back to `a`. */
  ghost predicate ClosesCycle(g: Graph, a: string, b: string) {
    && b in Deps(g, a)
    && exists p :: |p| > 0 && IsPath(g, p) && p[0] == b && p[|p| - 1] == a
  }

  ghost predicate Cyclic(g: Graph) {
    exists a, b :: ClosesCycle(g, a, b)
  }

  /** An order in which every node comes after all it depends on. */
  ghost predicate DependenciesFirst(g: Graph, order: seq<string>) {
    forall i, d | 0 <= i < |order| && d in Deps(g, order[i]) :: d in order[..i]
  }

  ghost function Nodes(g: Graph): set<string> {
    g.Keys + set n, d | n in g && d in g[n] :: d
  }

  ghost function Elements(s: seq<string>): set<string> {
    set x | x in s
  }

  // ---------------------------------------------------------------------
  // An order with dependencies first rules out cycles.

  lemma {:induction false} PathGoesDown(g: Graph, order: seq<string>, p: seq<string>, at: nat)
    requires DependenciesFirst(g, order) && IsPath(g, p) && |p| > 0
    requires at < |order| && order[at] == p[0]
    ensures exists k | 0 <= k <= at :: order[k] == p[|p| - 1]
    decreases |p|
  {
    if |p| > 1 {
      assert p[1] in Deps(g, p[0]) && p[1] in order[..at];
      var k :| 0 <= k < at && order[k] == p[1];
      assert IsPath(g, p[1..]) by {
        assert forall i | 0 < i < |p[1..]| :: p[1..][i] == p[i + 1] && p[1..][i - 1] == p[i];
      }
      PathGoesDown(g, order, p[1..], k);
    }
  }

  lemma {:induction false} NoEdgeBackAt(g: Graph, order: seq<string>, a: string, b: string, at: nat)
    requires DependenciesFirst(g, order) && ClosesCycle(g, a, b)
    requires at < |order| && order[at] == a
    ensures false
    decreases at
  {
    assert b in order[..at];
    var k :| 0 <= k < at && order[k] == b;
    var p :| |p| > 0 && IsPath(g, p) && p[0] == b && p[|p| - 1] == a;
    PathGoesDown(g, order, p, k);
    var m :| 0 <= m <= k && order[m] == a;
    NoEdgeBackAt(g, order, a, b, m);
  }

  /** A graph whose clients can all be ordered has no cycle. */
  lemma OrderedIsAcyclic(g: Graph, order: seq<string>)
    requires DependenciesFirst(g, order) && g.Keys <= Elements(order)
    ensures !Cyclic(g)
  {
    forall a, b ensures !ClosesCycle(g, a, b) {
      if ClosesCycle(g, a, b) {
        assert a in g && a in Elements(order);
        var k :| 0 <= k < |order| && order[k] == a;
        NoEdgeBackAt(g, order, a, b, k);
      }
    }
  }

  lemma FewerLeft(all: set<string>, before: set<string>, after: set<string>, n: string)
    requires before <= after && n in all && n !in before && n in after
    ensures |all - after| < |all - before|
  {
    var rest := (all - before) - {n};
    assert |rest| == |all - before| - 1;
    Fits(all - after, rest);
  }

  lemma {:induction false} Fits(a: set<string>, b: set<string>)
    requires a <= b
    ensures |a| <= |b|
  {
    if a != {} {
      var x :| x in a;
      Fits(a - {x}, b - {x});
    }
  }

  lemma StackClosesCycle(g: Graph, stack: seq<string>, a: string, b: string)
    requires IsPath(g, stack + [a]) && b in stack + [a] && b in Deps(g, a)
    ensures ClosesCycle(g, a, b)
  {
    var full := stack + [a];
    var k :| 0 <= k < |full| && full[k] == b;
    var p := full[k..];
    forall i | 0 < i < |p| ensures p[i] in Deps(g, p[i - 1]) {
      assert full[k + i] in Deps(g, full[k + i - 1]);
    }
    assert IsPath(g, p) && p[0] == b && p[|p| - 1] == a;
  }

  lemma PathExtends(g: Graph, p: seq<string>, d: string)
    requires IsPath(g, p) && |p| > 0 && d in Deps(g, p[|p| - 1])
    ensures IsPath(g, p + [d])
  {
  }

  lemma DependencyIsNode(g: Graph, n: string, d: string)
    requires d in Deps(g, n)
    ensures d in Nodes(g)
  {
    assert n in g && d in g[n];
  }

  lemma OrderExtends(g: Graph, order: seq<string>, n: string)
    requires DependenciesFirst(g, order) && forall d | d in Deps(g, n) :: d in order
    ensures DependenciesFirst(g, order + [n])
  {
    var more := order + [n];
    forall i, d | 0 <= i < |more| && d in Deps(g, more[i]) ensures d in more[..i] {
      if i < |order| {
        assert more[..i] == order[..i];
      } else {
        assert more[..i] == order;
      }
    }
  }

  // ---------------------------------------------------------------------
  // The search.

  /** While nothing has been reported the path marks are exactly the stack, and
      the nodes left behind are in an order with dependencies first. After a
      report the marks may be stale, and nothing depends on them. */
  ghost predicate Searching(g: Graph, visited: set<string>, path: set<string>, errors: seq<(string, string)>,
                            done: seq<string>, stack: seq<string>)
  {
    && visited <= Nodes(g)
    && (errors != [] ==> ClosesCycle(g, errors[0].0, errors[0].1))
    && (errors == [] ==>
        && path == Elements(stack)
        && visited == Elements(done) + Elements(stack)
        && IsPath(g, stack)
        && DependenciesFirst(g, done))
  }

  lemma Enters(g: Graph, visited: set<string>, path: set<string>, errors: seq<(string, string)>,
               done: seq<string>, stack: seq<string>, node: string)
    requires Searching(g, visited, path, errors, done, stack) && node in Nodes(g)
    requires errors == [] ==> IsPath(g, stack + [node])
    ensures Searching(g, visited + {node}, path + {node}, errors, done, stack + [node])
  {
  }

  lemma Leaves(g: Graph, visited: set<string>, path: set<string>, errors: seq<(string, string)>,
               done: seq<string>, stack: seq<string>, node: string)
    requires Searching(g, visited, path, errors, done, stack + [node])
    requires errors == [] ==> node !in stack && Elements(Deps(g, node)) <= Elements(done)
    ensures Searching(g, visited, path - {node}, errors, done + [node], stack)
  {
    if errors == [] {
      forall d | d in Deps(g, node) ensures d in done {
        assert d in Elements(Deps(g, node));
      }
      OrderExtends(g, done, node);
      var here := stack + [node];
      forall i | 0 < i < |stack| ensures stack[i] in Deps(g, stack[i - 1]) {
        assert here[i] in Deps(g, here[i - 1]);
      }
    }
  }

  lemma Reports(g: Graph, visited: set<string>, path: set<string>, errors: seq<(string, string)>,
                done: seq<string>, stack: seq<string>, node: string, dep: string, outer: seq<string>)
    requires Searching(g, visited, path, errors, done, stack + [node])
    requires dep in Deps(g, node) && dep in path
    ensures Searching(g, visited, path, errors + [(node, dep)], done, outer)
  {
    if errors == [] {
      StackClosesCycle(g, stack, node, dep);
    }
  }

  lemma Cleared(g: Graph, visited: set<string>, path: set<string>, errors: seq<(string, string)>,
                done: seq<string>, stack: seq<string>, dep: string)
    requires Searching(g, visited, path, errors, done, stack) && dep in visited && dep !in path
    ensures errors == [] ==> dep in done
  {
  }

  lemma NextSeen(deps: seq<string>, i: nat)
    requires i < |deps|
    ensures Elements(deps[..i + 1]) == Elements(deps[..i]) + {deps[i]}
  {
  }

  class CycleSearch {
    const graph: Graph
    var visited: set<string>
    var path: set<string>
    var errors: seq<(string, string)>
    /** Nodes left with their path mark cleared, in that order. */
    ghost var done: seq<string>

    ghost predicate Valid(stack: seq<string>)
      reads this
    {
      Searching(graph, visited, path, errors, done, stack)
    }

    constructor (graph: Graph)
      ensures this.graph == graph && visited == {} && errors == [] && Valid([])
    {
      this.graph := graph;
      visited, path, errors, done := {}, {}, [], [];
    }

    method HasCycle(node: string, ghost stack: seq<string>) returns (found: bool)
      requires Valid(stack) && node in Nodes(graph) && node !in visited
      requires errors == [] ==> IsPath(graph, stack + [node])
      modifies this
      ensures Valid(stack) && old(visited) + {node} <= visited && (old(errors) != [] ==> errors != [])
      ensures found ==> errors != []
      ensures errors == [] ==> node in done && Elements(old(done)) <= Elements(done)
      decreases |Nodes(graph) - visited|
    {
      Enters(graph, visited, path, errors, done, stack, node);
      assert errors == [] ==> node !in stack;
      visited := visited + {node};
      path := path + {node};
      var deps := Deps(graph, node);
      ghost var here := stack + [node];
      var i := 0;
      while i < |deps|
        invariant 0 <= i <= |deps|
        invariant Valid(here) && old(visited) + {node} <= visited && (old(errors) != [] ==> errors != [])
        invariant errors == [] ==> Elements(old(done)) <= Elements(done) && Elements(deps[..i]) <= Elements(done)
      {
        var dep := deps[i];
        if dep !in visited {
          DependencyIsNode(graph, node, dep);
          FewerLeft(Nodes(graph), old(visited), visited, node);
          if errors == [] {
            PathExtends(graph, here, dep);
          }
          var below := HasCycle(dep, here);
          if below {
            return true;
          }
        } else if dep in path {
          Reports(graph, visited, path, errors, done, stack, node, dep, stack);
          errors := errors + [(node, dep)];
          return true;
        } else {
          Cleared(graph, visited, path, errors, done, here, dep);
        }
        NextSeen(deps, i);
        i := i + 1;
      }
      assert deps[..|deps|] == deps;
      Leaves(graph, visited, path, errors, done, stack, node);
      path := path - {node};
      done := done + [node];
      return false;
    }

    /** Starts a search from every client, in whatever order the map yields. */
    method Validate()
      requires visited == {} && errors == [] && Valid([])
      modifies this
      ensures errors != [] <==> Cyclic(graph)
      ensures errors != [] ==> ClosesCycle(graph, errors[0].0, errors[0].1)
    {
      var todo := graph.Keys;
      while todo != {}
        invariant todo <= graph.Keys
        invariant Valid([]) && graph.Keys - todo <= visited
        decreases |todo|
      {
        var name :| name in todo;
        if name !in visited {
          var found := HasCycle(name, []);
        }
        todo := todo - {name};
      }
      if errors == [] {
        OrderedIsAcyclic(graph, done);
      }
    }
  }
}

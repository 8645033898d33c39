/** Dependency graphs between decision items: reachability by worklist and cycle detection by
    depth-first search (`ancestors` and `visit` in scripts/clarification_protocol.py). */
module DependencyGraph {
  import opened Vocabulary
  import opened Sequences

  /** An item's digest, read as a number: digests have a fixed width, so their order as strings is
      their order as numbers. */
  type Id = nat

  /** What each item depends on. */
  type Graph = map<Id, set<Id>>

  function Deps(g: Graph, id: Id): set<Id> {
    if id in g then g[id] else {}
  }

  /** Each element depends directly on the next. */
  ghost predicate Chain(g: Graph, p: seq<Id>) {
    p != [] && (|p| > 1 ==> p[1] in Deps(g, p[0]) && Chain(g, p[1..]))
  }

  ghost predicate ChainFrom(g: Graph, p: seq<Id>, from: Id, to: Id) {
    Chain(g, p) && |p| > 1 && p[0] == from && p[|p| - 1] == to
  }

  /** `from` depends on `to` through at least one edge. */
  ghost predicate DependsOn(g: Graph, from: Id, to: Id) {
    exists p :: ChainFrom(g, p, from, to)
  }

  ghost predicate Acyclic(g: Graph) {
    forall id :: !DependsOn(g, id, id)
  }

  predicate Closed(g: Graph) {
    forall id :: id in g ==> g[id] <= g.Keys
  }

  lemma DirectlyDepends(g: Graph, a: Id, b: Id)
    requires b in Deps(g, a)
    ensures DependsOn(g, a, b)
  {
    assert [a, b][1..] == [b];
    assert ChainFrom(g, [a, b], a, b);
  }

  lemma DependsThrough(g: Graph, a: Id, b: Id, c: Id)
    requires b in Deps(g, a) && DependsOn(g, b, c)
    ensures DependsOn(g, a, c)
  {
    var p :| ChainFrom(g, p, b, c);
    assert ([a] + p)[1..] == p;
    assert ChainFrom(g, [a] + p, a, c);
  }

  lemma {:induction false} DependsTransitively(g: Graph, p: seq<Id>, a: Id, b: Id, c: Id)
    requires ChainFrom(g, p, a, b) && DependsOn(g, b, c)
    ensures DependsOn(g, a, c)
    decreases |p|
  {
    if |p| == 2 {
      DependsThrough(g, a, b, c);
    } else {
      DependsTransitively(g, p[1..], p[1], b, c);
      DependsThrough(g, a, p[1], c);
    }
  }

  /** A set that contains an item's dependencies and its members' contains all it depends on. */
  lemma {:induction false} ClosedSetsHoldChains(g: Graph, s: set<Id>, p: seq<Id>)
    requires Chain(g, p) && |p| > 1 && Deps(g, p[0]) <= s
    requires forall v | v in s :: Deps(g, v) <= s
    ensures p[|p| - 1] in s
    decreases |p|
  {
    if |p| > 2 {
      ClosedSetsHoldChains(g, s, p[1..]);
    }
  }

  // ---- the worklist ----

  function Universe(g: Graph): set<Id> {
    set id, dep | id in g && dep in g[id] :: dep
  }

  ghost function Ancestors(g: Graph, id: Id): set<Id> {
    set a | a in Universe(g) && DependsOn(g, id, a)
  }

  lemma ChainEndsInUniverse(g: Graph, p: seq<Id>)
    requires Chain(g, p) && |p| > 1
    ensures p[|p| - 1] in Universe(g)
    decreases |p|
  {
    if |p| > 2 {
      ChainEndsInUniverse(g, p[1..]);
    }
  }

  lemma AncestorsIff(g: Graph, id: Id, a: Id)
    ensures a in Ancestors(g, id) <==> DependsOn(g, id, a)
  {
    if p :| ChainFrom(g, p, id, a) {
      ChainEndsInUniverse(g, p);
    }
  }

  method Listed(s: set<Id>) returns (q: seq<Id>)
    ensures forall x :: x in q <==> x in s
  {
    q := [];
    var rest := s;
    while rest != {}
      invariant rest <= s
      invariant forall x :: x in q <==> x in s && x !in rest
    {
      var x :| x in rest;
      q := q + [x];
      rest := rest - {x};
    }
  }

  lemma AncestorsAreClosed(g: Graph, id: Id, v: Id)
    requires v == id || v in Ancestors(g, id)
    ensures Deps(g, v) <= Ancestors(g, id)
  {
    forall d | d in Deps(g, v) ensures d in Ancestors(g, id) {
      DirectlyDepends(g, v, d);
      if v != id {
        var p :| ChainFrom(g, p, id, v);
        DependsTransitively(g, p, id, v, d);
      }
      AncestorsIff(g, id, d);
    }
  }

  lemma AncestorsAreLeast(g: Graph, id: Id, s: set<Id>)
    requires Deps(g, id) <= s && forall v | v in s :: Deps(g, v) <= s
    ensures Ancestors(g, id) <= s
  {
    forall a | a in Ancestors(g, id) ensures a in s {
      var p :| ChainFrom(g, p, id, a);
      ClosedSetsHoldChains(g, s, p);
    }
  }

  /** The worklist finds exactly the items reachable by dependencies, on cyclic graphs too. */
  method FindAncestors(g: Graph, id: Id) returns (found: set<Id>)
    ensures found == Ancestors(g, id)
  {
    hide Ancestors, Deps;
    found := {};
    var stack := Listed(Deps(g, id));
    AncestorsAreClosed(g, id, id);
    while stack != []
      invariant found <= Ancestors(g, id)
      invariant forall v :: v in stack ==> v in Ancestors(g, id)
      invariant forall d :: d in Deps(g, id) ==> d in found || d in stack
      invariant forall v, d :: v in found && d in Deps(g, v) ==> d in found || d in stack
      decreases |Ancestors(g, id) - found|, |stack|
    {
      var value, rest := stack[|stack| - 1], stack[..|stack| - 1];
      assert stack == rest + [value];
      stack := rest;
      if value !in found {
        SubsetSize(Ancestors(g, id) - (found + {value}), Ancestors(g, id) - found);
        found := found + {value};
        var more := Listed(Deps(g, value));
        AncestorsAreClosed(g, id, value);
        stack := stack + more;
      }
    }
    AncestorsAreLeast(g, id, found);
  }

  // ---- depth-first cycle detection ----

  lemma OnlyMinimum(s: set<Id>)
    ensures forall m, n :: IsMinimum(m, s) && IsMinimum(n, s) ==> m == n
  {
  }

  function MinOf(s: set<Id>): (m: Id)
    requires s != {}
    ensures m in s && forall x :: x in s ==> m <= x
  {
    HasMinimum(s);
    OnlyMinimum(s);
    var m :| IsMinimum(m, s);
    m
  }

  predicate IsMinimum(m: Id, s: set<Id>) {
    m in s && forall x :: x in s ==> m <= x
  }

  lemma {:induction false} HasMinimum(s: set<Id>)
    requires s != {}
    ensures exists m :: IsMinimum(m, s)
  {
    var x :| x in s;
    if s == {x} {
      assert IsMinimum(x, s);
    } else {
      HasMinimum(s - {x});
      var m :| IsMinimum(m, s - {x});
      MinimumGrows(m, x, s);
    }
  }

  lemma MinimumGrows(m: Id, x: Id, s: set<Id>)
    requires x in s && IsMinimum(m, s - {x})
    ensures IsMinimum(if m <= x then m else x, s)
  {
    forall y | y in s ensures (if m <= x then m else x) <= y {
      assert y == x || y in s - {x};
    }
  }

  /** `finished` holds the dependencies of its members, and none of them depends on itself. */
  ghost predicate Finished(g: Graph, finished: set<Id>) {
    forall v :: v in finished ==> v in g && g[v] <= finished && !DependsOn(g, v, v)
  }

  lemma OneMoreFinished(g: Graph, finished: set<Id>, id: Id)
    requires Finished(g, finished) && id in g && g[id] <= finished && id !in finished
    ensures Finished(g, finished + {id})
  {
    if p :| ChainFrom(g, p, id, id) {
      ClosedSetsHoldChains(g, finished, p);
    }
  }

  /** A dependency of `id` is one of everything on the path to `id`, and of `id` itself. */
  lemma PathGrows(g: Graph, visiting: set<Id>, id: Id, d: Id)
    requires d in Deps(g, id) && forall w | w in visiting :: DependsOn(g, w, id)
    ensures forall w | w in visiting + {id} :: DependsOn(g, w, d)
  {
    DirectlyDepends(g, id, d);
    forall w | w in visiting ensures DependsOn(g, w, d) {
      var p :| ChainFrom(g, p, w, id);
      DependsTransitively(g, p, w, id, d);
    }
  }

  lemma FinishedIsAcyclic(g: Graph, finished: set<Id>)
    requires Finished(g, finished) && g.Keys <= finished
    ensures Acyclic(g)
  {
    forall id ensures !DependsOn(g, id, id) {
      if id !in g {
        assert forall p :: !ChainFrom(g, p, id, id);
      }
    }
  }

  lemma NothingIsFinished(g: Graph)
    ensures Finished(g, {})
  {
  }

  /** The depth-first search, with the path it stands on and what it has finished. */
  class CycleSearch {
    const graph: Graph
    var visiting: set<Id>
    var visited: set<Id>

    constructor (g: Graph)
      ensures graph == g && visiting == {} && visited == {}
    {
      graph := g;
      visiting, visited := {}, {};
    }

    /** Finish everything `id` depends on and then `id`, or meet an item of the path again. */
    method Visit(id: Id) returns (cycle: bool)
      requires Closed(graph) && id in graph && Finished(graph, visited) && visiting !! visited
      requires visiting <= graph.Keys && forall w | w in visiting :: DependsOn(graph, w, id)
      modifies this
      ensures cycle ==> !Acyclic(graph)
      ensures !cycle ==> visiting == old(visiting) && old(visited) + {id} <= visited
      ensures !cycle ==> Finished(graph, visited) && visiting !! visited
      decreases |graph.Keys - visiting|
    {
      hide Finished, DependsOn;
      if id in visiting {
        return true;
      }
      if id in visited {
        return false;
      }
      SubsetSize(graph.Keys - (visiting + {id}), graph.Keys - visiting);
      visiting := visiting + {id};
      var rest := graph[id];
      while rest != {}
        invariant rest <= graph[id] <= rest + visited
        invariant visiting == old(visiting) + {id} && old(visited) <= visited
        invariant Finished(graph, visited) && visiting !! visited
        decreases rest
      {
        var dependency :| dependency in rest;
        PathGrows(graph, old(visiting), id, dependency);
        cycle := Visit(dependency);
        if cycle {
          return;
        }
        rest := rest - {dependency};
      }
      OneMoreFinished(graph, visited, id);
      visiting := visiting - {id};
      visited := visited + {id};
      return false;
    }

    /** Visiting every item meets a cycle exactly when there is one. */
    method Search() returns (cycle: bool)
      requires Closed(graph) && visiting == {} && visited == {}
      modifies this
      ensures cycle <==> !Acyclic(graph)
    {
      hide Finished, DependsOn, Acyclic;
      assert Finished(graph, {}) by { NothingIsFinished(graph); }
      var rest := graph.Keys;
      while rest != {}
        invariant rest <= graph.Keys <= rest + visited
        invariant visiting == {} && Finished(graph, visited)
        decreases rest
      {
        var id :| id in rest;
        cycle := Visit(id);
        if cycle {
          return;
        }
        rest := rest - {id};
      }
      FinishedIsAcyclic(graph, visited);
      return false;
    }
  }

  // ---- how long dependency chains are ----

  lemma {:induction false} ChainsAreDistinct(g: Graph, p: seq<Id>, i: nat)
    requires Acyclic(g) && Chain(g, p) && 0 < i < |p|
    ensures p[0] != p[i]
  {
    ChainPrefix(g, p, i + 1);
    assert ChainFrom(g, p[..i + 1], p[0], p[i]);
    assert DependsOn(g, p[0], p[i]);
  }

  lemma {:induction false} ChainPrefix(g: Graph, p: seq<Id>, n: nat)
    requires Chain(g, p) && 0 < n <= |p|
    ensures Chain(g, p[..n])
    decreases |p|
  {
    if n > 1 {
      ChainPrefix(g, p[1..], n - 1);
      assert p[..n][1..] == p[1..][..n - 1];
    }
  }

  /** Chains of an acyclic closed graph are no longer than the graph is large. */
  lemma {:induction false} ChainsAreShort(g: Graph, p: seq<Id>, among: set<Id>)
    requires Acyclic(g) && Chain(g, p)
    requires forall v | v in p :: v in among
    ensures |p| <= |among|
    decreases |p|
  {
    if |p| == 1 {
      assert p[0] in among;
      SubsetSize({p[0]}, among);
    } else {
      forall v | v in p[1..] ensures v in among - {p[0]} {
        var i :| 0 <= i < |p[1..]| && p[1..][i] == v;
        ChainsAreDistinct(g, p, i + 1);
        assert v in p;
      }
      ChainsAreShort(g, p[1..], among - {p[0]});
      assert p[0] in among;
    }
  }

  lemma {:induction false} ChainStaysInside(g: Graph, p: seq<Id>)
    requires Closed(g) && Chain(g, p) && p[0] in g
    ensures forall v | v in p :: v in g
    decreases |p|
  {
    if |p| > 1 {
      ChainStaysInside(g, p[1..]);
      assert p == [p[0]] + p[1..];
    }
  }
}

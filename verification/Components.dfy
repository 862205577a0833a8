/** Components (frontend/src/layout/components.ts). */
module Components {
  // Connected components of the layout's top-level elements.

  /** Element IDs; the empty string is falsy where the code tests one. */
  datatype Id = Empty | Named(name: nat)

  datatype Edge = Edge(source: Id, target: Id)

  /** Top-level IDs, edges, and the parent group of each child. */
  datatype Graph = Graph(tops: set<Id>, edges: set<Edge>, parent: map<Id, Id>)

  /** The top-level element an edge end belongs to; Empty when there is none. */
  function TopOf(g: Graph, id: Id): Id {
    if id in g.parent then g.parent[id] else if id in g.tops then id else Empty
  }

  /** The edge, lifted to top-level elements, connects `a` and `b`. */
  predicate Links(g: Graph, e: Edge, a: Id, b: Id) {
    && a != Empty && b != Empty && a != b
    && ((TopOf(g, e.source) == a && TopOf(g, e.target) == b) || (TopOf(g, e.source) == b && TopOf(g, e.target) == a))
  }

  ghost predicate Adjacent(g: Graph, a: Id, b: Id) {
    exists e :: e in g.edges && Links(g, e, a, b)
  }

  /** `p` lists the vertices from `u` up to, not including, `v`; each of them is
      a top-level element adjacent to the next. */
  ghost predicate Path(g: Graph, u: Id, p: seq<Id>, v: Id) {
    if p == [] then u == v
    else
      var x := p[|p| - 1];
      x in g.tops && Adjacent(g, x, v) && Path(g, u, p[..|p| - 1], x)
  }

  ghost predicate Connected(g: Graph, u: Id, v: Id) {
    exists p :: Path(g, u, p, v)
  }

  lemma PathOn(g: Graph, u: Id, p: seq<Id>, v: Id, w: Id)
    requires Path(g, u, p, v) && v in g.tops && Adjacent(g, v, w)
    ensures Connected(g, u, w)
  {
    assert (p + [v])[..|p|] == p;
    assert Path(g, u, p + [v], w);
  }

  lemma ConnectedToSelf(g: Graph, u: Id)
    ensures Connected(g, u, u)
  {
    assert Path(g, u, [], u);
  }

  lemma ConnectedOn(g: Graph, u: Id, v: Id, w: Id)
    requires Connected(g, u, v) && v in g.tops && Adjacent(g, v, w)
    ensures Connected(g, u, w)
  {
    var p :| Path(g, u, p, v);
    PathOn(g, u, p, v, w);
  }

  lemma {:induction false} PathThrough(g: Graph, u: Id, v: Id, q: seq<Id>, w: Id)
    requires Connected(g, u, v) && Path(g, v, q, w)
    ensures Connected(g, u, w)
  {
    if q != [] {
      var x := q[|q| - 1];
      PathThrough(g, u, v, q[..|q| - 1], x);
      ConnectedOn(g, u, x, w);
    }
  }

  lemma AdjacentBack(g: Graph, a: Id, b: Id)
    requires Adjacent(g, a, b)
    ensures Adjacent(g, b, a)
  {
    var e :| e in g.edges && Links(g, e, a, b);
    assert Links(g, e, b, a);
  }

  lemma {:induction false} PathBack(g: Graph, u: Id, p: seq<Id>, v: Id)
    requires Path(g, u, p, v) && v in g.tops
    ensures Connected(g, v, u)
  {
    ConnectedToSelf(g, v);
    if p != [] {
      var x := p[|p| - 1];
      AdjacentBack(g, x, v);
      ConnectedOn(g, v, v, x);
      PathBack(g, u, p[..|p| - 1], x);
      var q :| Path(g, x, q, u);
      PathThrough(g, v, x, q, u);
    }
  }

  /** No edge between top-level elements leaves the component. */
  ghost predicate Closed(g: Graph, c: seq<Id>) {
    forall a, b :: a in c && a in g.tops && b in g.tops && Adjacent(g, a, b) ==> b in c
  }

  lemma {:induction false} PathStays(g: Graph, c: seq<Id>, u: Id, p: seq<Id>, v: Id)
    requires Closed(g, c) && u in c && Path(g, u, p, v) && v in g.tops
    ensures v in c
  {
    if p != [] {
      PathStays(g, c, u, p[..|p| - 1], p[|p| - 1]);
    }
  }

  /** A component: grown from a top-level element, closed, every member once. */
  ghost predicate IsComponent(g: Graph, c: seq<Id>) {
    && c != [] && c[0] in g.tops && Closed(g, c) && Distinct(c)
    && forall x :: x in c ==> Connected(g, c[0], x)
  }

  predicate Distinct(c: seq<Id>) {
    c == [] || (c[|c| - 1] !in c[..|c| - 1] && Distinct(c[..|c| - 1]))
  }

  /** Two members are connected; whatever is connected to one is a member. */
  lemma ComponentIsClass(g: Graph, c: seq<Id>, u: Id, v: Id)
    requires IsComponent(g, c) && u in c && u in g.tops && v in g.tops
    ensures v in c <==> Connected(g, u, v)
  {
    if v in c {
      var p :| Path(g, c[0], p, u);
      PathBack(g, c[0], p, u);
      var q :| Path(g, c[0], q, v);
      PathThrough(g, u, c[0], q, v);
    }
    if Connected(g, u, v) {
      var p :| Path(g, u, p, v);
      PathStays(g, c, u, p, v);
    }
  }

  // ------------------------------------------------------------ the search

  /** The neighbours the code collects for every top-level ID. */
  ghost predicate IsAdjacency(g: Graph, adj: map<Id, set<Id>>) {
    && adj.Keys == g.tops
    && forall a, b :: a in adj ==> (b in adj[a] <==> Adjacent(g, a, b))
  }

  /** What the search may reach: top-level elements and the groups edges lift to. */
  ghost function Vertices(g: Graph): set<Id> {
    g.tops + (set e | e in g.edges :: TopOf(g, e.source)) + (set e | e in g.edges :: TopOf(g, e.target))
  }

  lemma NeighbourIsVertex(g: Graph, a: Id, b: Id)
    requires Adjacent(g, a, b)
    ensures b in Vertices(g)
  {
    var e :| e in g.edges && Links(g, e, a, b);
  }

  /** Pushes the neighbours not yet visited, in any order. */
  method PushUnvisited(neighbours: set<Id>, visited: set<Id>, stack: seq<Id>) returns (s: seq<Id>)
    ensures stack <= s
    ensures forall x :: x in s <==> x in stack || (x in neighbours && x !in visited)
  {
    s := stack;
    var todo := neighbours;
    while todo != {}
      invariant todo <= neighbours && stack <= s
      invariant forall x :: x in s <==> x in stack || (x in neighbours - todo && x !in visited)
      decreases |todo|
    {
      var x :| x in todo;
      if x !in visited {
        s := s + [x];
      }
      todo := todo - {x};
    }
  }

  /** What holds each time round the search from `root`. */
  ghost predicate Searching(g: Graph, root: Id, before: set<Id>, visited: set<Id>, stack: seq<Id>, c: seq<Id>) {
    && visited == before + Elements(c) && Distinct(c) && (forall x :: x in c ==> x !in before)
    && (forall x :: x in c || x in stack ==> Connected(g, root, x) && x in Vertices(g))
    && (forall a, b :: a in c && a in g.tops && Adjacent(g, a, b) ==> b in visited || b in stack)
    && (if c == [] then stack == [root] else c[0] == root)
  }

  /** The stack loop: everything reachable from `root` and not yet visited. */
  method Explore(g: Graph, root: Id, adj: map<Id, set<Id>>, before: set<Id>) returns (component: seq<Id>, visited: set<Id>)
    requires IsAdjacency(g, adj) && root in g.tops && root !in before
    ensures component != [] && component[0] == root && Searching(g, root, before, visited, [], component)
  {
    visited, component := before, [];
    var stack := [root];
    ConnectedToSelf(g, root);
    while stack != []
      invariant Searching(g, root, before, visited, stack, component)
      decreases Vertices(g) - visited, |stack|
    {
      var cur := stack[|stack| - 1];
      ghost var stack0 := stack;
      stack := stack[..|stack| - 1];
      assert stack0 == stack + [cur];
      if cur !in visited {
        ghost var c0, v0 := component, visited;
        visited := visited + {cur};
        component := component + [cur];
        var neighbours := if cur in adj then adj[cur] else {};
        stack := PushUnvisited(neighbours, visited, stack);
        SearchStep(g, root, before, v0, stack0, c0, cur, neighbours, stack);
      }
    }
  }

  lemma SearchStep(g: Graph, root: Id, before: set<Id>, visited: set<Id>, stack: seq<Id>, c: seq<Id>,
                   cur: Id, neighbours: set<Id>, stack': seq<Id>)
    requires Searching(g, root, before, visited, stack, c) && cur in stack && cur !in visited
    requires forall b :: b in neighbours <==> cur in g.tops && Adjacent(g, cur, b)
    requires forall x :: x in stack && x != cur ==> x in stack'
    requires forall x :: x in stack' ==> x in stack || x in neighbours
    requires forall x :: x in neighbours && x !in visited + {cur} ==> x in stack'
    ensures Searching(g, root, before, visited + {cur}, stack', c + [cur])
  {
    forall x | x in neighbours ensures Connected(g, root, x) && x in Vertices(g) {
      ConnectedOn(g, root, cur, x);
      NeighbourIsVertex(g, cur, x);
    }
    assert (c + [cur])[..|c|] == c;
  }

  function GraphOf(topIds: seq<Id>, edges: seq<Edge>, parent: map<Id, Id>): Graph {
    Graph((set id | id in topIds), (set e | e in edges), parent)
  }

  method BuildAdjacency(topIds: seq<Id>, edges: seq<Edge>, parent: map<Id, Id>) returns (adj: map<Id, set<Id>>)
    ensures IsAdjacency(GraphOf(topIds, edges, parent), adj)
  {
    adj := map id | id in topIds :: {};
    var g := GraphOf(topIds, edges, parent);
    for i := 0 to |edges|
      invariant IsAdjacency(GraphOf(topIds, edges[..i], parent), adj)
    {
      var e := edges[i];
      var s, t := TopOf(g, e.source), TopOf(g, e.target);
      ghost var adj0 := adj;
      if s != Empty && t != Empty && s != t {
        if s in adj {
          adj := adj[s := adj[s] + {t}];
        }
        if t in adj {
          adj := adj[t := adj[t] + {s}];
        }
      }
      AddEdge(GraphOf(topIds, edges[..i], parent), e, adj0, adj);
      OneMoreEdge(topIds, edges, i, parent);
    }
    assert edges[..|edges|] == edges;
  }

  lemma OneMoreEdge(topIds: seq<Id>, edges: seq<Edge>, i: nat, parent: map<Id, Id>)
    requires i < |edges|
    ensures var g := GraphOf(topIds, edges[..i], parent);
            GraphOf(topIds, edges[..i + 1], parent) == g.(edges := g.edges + {edges[i]})
  {
    assert edges[..i + 1] == edges[..i] + [edges[i]];
  }

  lemma AddEdge(g: Graph, e: Edge, adj: map<Id, set<Id>>, adj': map<Id, set<Id>>)
    requires IsAdjacency(g, adj) && adj'.Keys == adj.Keys
    requires forall a, b :: a in adj ==> (b in adj'[a] <==> b in adj[a] || Links(g, e, a, b))
    ensures IsAdjacency(g.(edges := g.edges + {e}), adj')
  {
    var g' := g.(edges := g.edges + {e});
    forall a, b ensures Adjacent(g', a, b) <==> Adjacent(g, a, b) || Links(g, e, a, b) {
      if Adjacent(g, a, b) {
        var x :| x in g.edges && Links(g, x, a, b);
        assert x in g'.edges && Links(g', x, a, b);
      }
      if Links(g, e, a, b) {
        assert e in g'.edges && Links(g', e, a, b);
      }
      if Adjacent(g', a, b) {
        var x :| x in g'.edges && Links(g', x, a, b);
        assert Links(g, x, a, b);
      }
    }
  }

  function Elements(c: seq<Id>): set<Id> {
    set x | x in c
  }

  function Members(components: seq<seq<Id>>): set<Id> {
    if components == [] then {}
    else Members(components[..|components| - 1]) + Elements(components[|components| - 1])
  }

  predicate Outside(c: seq<Id>, members: set<Id>) {
    forall x :: x in c ==> x !in members
  }

  /** Components of the graph, no two with a common member. */
  ghost predicate Partition(g: Graph, components: seq<seq<Id>>) {
    components == [] ||
    var init, c := components[..|components| - 1], components[|components| - 1];
    Partition(g, init) && IsComponent(g, c) && Outside(c, Members(init))
  }

  lemma {:induction false} MemberIsIn(g: Graph, components: seq<seq<Id>>, x: Id) returns (i: nat)
    requires Partition(g, components) && x in Members(components)
    ensures i < |components| && x in components[i] && IsComponent(g, components[i])
    ensures forall j :: 0 <= j < |components| && j != i ==> x !in components[j]
  {
    var n := |components| - 1;
    if x in components[n] {
      i := n;
      forall j | 0 <= j < n ensures x !in components[j] {
        InMembers(components[..n], j);
      }
    } else {
      i := MemberIsIn(g, components[..n], x);
      assert forall j :: 0 <= j < n ==> components[j] == components[..n][j];
    }
  }

  lemma {:induction false} InMembers(components: seq<seq<Id>>, i: nat)
    requires i < |components|
    ensures forall x :: x in components[i] ==> x in Members(components)
  {
    if i < |components| - 1 {
      InMembers(components[..|components| - 1], i);
    }
  }

  lemma EarlierAreClosed(g: Graph, components: seq<seq<Id>>, b: Id, a: Id)
    requires Partition(g, components) && b in Members(components)
    requires a in g.tops && b in g.tops && Adjacent(g, a, b)
    ensures a in Members(components)
  {
    AdjacentBack(g, a, b);
    var i := MemberIsIn(g, components, b);
    InMembers(components, i);
  }

  lemma AddComponent(g: Graph, components: seq<seq<Id>>, c: seq<Id>, visited: set<Id>)
    requires Partition(g, components) && c != [] && c[0] in g.tops
    requires Searching(g, c[0], Members(components), visited, [], c)
    ensures Partition(g, components + [c]) && Members(components + [c]) == visited
  {
    forall a, b | a in c && a in g.tops && b in g.tops && Adjacent(g, a, b) ensures b in c {
      if b in Members(components) {
        EarlierAreClosed(g, components, b, a);
      }
    }
    assert (components + [c])[..|components|] == components;
  }

  method NextComponent(g: Graph, id: Id, adj: map<Id, set<Id>>, before: set<Id>, components: seq<seq<Id>>)
      returns (components': seq<seq<Id>>, visited: set<Id>)
    requires IsAdjacency(g, adj) && id in g.tops && id !in before
    requires Partition(g, components) && before == Members(components)
    ensures Partition(g, components') && visited == Members(components') && before + {id} <= visited
  {
    var component;
    component, visited := Explore(g, id, adj, before);
    AddComponent(g, components, component, visited);
    components' := components + [component];
  }

  /** `findComponents`: components of connected elements, every top-level element
      in one of them. */
  method FindComponents(topIds: seq<Id>, edges: seq<Edge>, parent: map<Id, Id>) returns (components: seq<seq<Id>>)
    ensures Partition(GraphOf(topIds, edges, parent), components)
    ensures forall id :: id in topIds ==> id in Members(components)
  {
    var g := GraphOf(topIds, edges, parent);
    var adj := BuildAdjacency(topIds, edges, parent);
    var visited: set<Id> := {};
    components := [];
    for k := 0 to |topIds|
      invariant Partition(g, components) && visited == Members(components)
      invariant forall i :: 0 <= i < k ==> topIds[i] in visited
    {
      var id := topIds[k];
      if id !in visited {
        components, visited := NextComponent(g, id, adj, visited, components);
      }
    }
  }

  /** Two top-level elements share a component exactly when a path of lifted
      edges connects them. */
  lemma SameComponentIffConnected(g: Graph, components: seq<seq<Id>>, u: Id, v: Id)
    requires Partition(g, components) && g.tops <= Members(components) && u in g.tops && v in g.tops
    ensures (exists i :: 0 <= i < |components| && u in components[i] && v in components[i]) <==> Connected(g, u, v)
  {
    var i := MemberIsIn(g, components, u);
    ComponentIsClass(g, components[i], u, v);
  }

  /** Every top-level element is in exactly one component, once. */
  lemma InExactlyOne(g: Graph, components: seq<seq<Id>>, u: Id) returns (i: nat, m: nat)
    requires Partition(g, components) && u in Members(components)
    ensures i < |components| && m < |components[i]| && components[i][m] == u
    ensures forall j, n :: 0 <= j < |components| && 0 <= n < |components[j]| && components[j][n] == u ==> j == i && n == m
  {
    i := MemberIsIn(g, components, u);
    m :| 0 <= m < |components[i]| && components[i][m] == u;
    forall n | 0 <= n < |components[i]| && components[i][n] == u ensures n == m {
      DistinctPositions(components[i], m, n);
    }
  }

  lemma {:induction false} DistinctPositions(c: seq<Id>, m: nat, n: nat)
    requires Distinct(c) && m < |c| && n < |c| && c[m] == c[n]
    ensures m == n
  {
    var last := |c| - 1;
    assert forall k :: 0 <= k < last ==> c[k] == c[..last][k] && c[k] in c[..last];
    if m < last && n < last {
      DistinctPositions(c[..last], m, n);
    }
  }

  /** A component may also hold a group that edges lift to although it is not a
      top-level element, and nothing else. */
  lemma OnlyTopsAndMissingGroups(g: Graph, c: seq<Id>, x: Id)
    requires IsComponent(g, c) && x in c
    ensures x in g.tops || (x in g.parent.Values && exists a :: a in g.tops && Adjacent(g, a, x))
  {
    var p :| Path(g, c[0], p, x);
    if x !in g.tops {
      var a := p[|p| - 1];
      var e :| e in g.edges && Links(g, e, a, x);
      assert a in g.tops && Adjacent(g, a, x);
    }
  }
}

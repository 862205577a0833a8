/** Graph diffs (backend/state/diff.go). */
module Graphs {
  // Comparing graph snapshots, and what a delta does to a subscriber that
  // replays it.

  /** A string; EMPTY is the empty one. */
  datatype Text = Text(code: nat)

  const EMPTY := Text(0)

  datatype NodeKey = NodeKey(name: Text, kind: Text)

  /** `scalars` stands for the other plain fields a node is compared by, and
      `details` for its compose, service and swarm node information. */
  datatype Node = Node(id: Text, key: NodeKey, networkId: Text, source: Text, scalars: nat,
                       ports: seq<nat>, labels: map<Text, Text>, details: nat)

  datatype Edge = Edge(id: Text, source: Text, target: Text)

  datatype Graph = Graph(nodes: seq<Node>, edges: seq<Edge>)

  // ---------------------------------------------------------- comparing nodes

  /** `nodeEqual`. A label the second node lacks reads as the empty string. */
  predicate NodeEqual(a: Node, b: Node) {
    && a.id == b.id && a.key == b.key && a.scalars == b.scalars && a.networkId == b.networkId && a.source == b.source
    && |a.ports| == |b.ports| && (forall i :: 0 <= i < |a.ports| ==> a.ports[i] == b.ports[i])
    && |a.labels| == |b.labels|
    && (forall k :: k in a.labels ==> (if k in b.labels then b.labels[k] else EMPTY) == a.labels[k])
    && a.details == b.details
  }

  predicate LabelsSet(n: Node) {
    forall k :: k in n.labels ==> n.labels[k] != EMPTY
  }

  lemma {:induction false} SubsetOfSameSize(a: set<Text>, b: set<Text>)
    requires a <= b && |a| == |b|
    ensures a == b
  {
    if x :| x in a {
      SubsetOfSameSize(a - {x}, b - {x});
    } else {
      assert b == {};
    }
  }

  lemma SameLabels(a: map<Text, Text>, b: map<Text, Text>)
    requires |a| == |b| && forall k :: k in a ==> k in b && b[k] == a[k]
    ensures a == b
  {
    assert |a.Keys| == |a| && |b.Keys| == |b|;
    SubsetOfSameSize(a.Keys, b.Keys);
  }

  /** Some key that a map does not use. */
  lemma {:induction false} FreshKey(s: set<Text>) returns (k: Text)
    ensures k !in s && forall x :: x in s ==> x.code < k.code
  {
    if x :| x in s {
      var y := FreshKey(s - {x});
      k := Text(if y.code > x.code then y.code else x.code + 1);
    } else {
      k := EMPTY;
    }
  }

  lemma Renamed(a: map<Text, Text>, k: Text, k': Text)
    requires k in a && k' !in a
    ensures |(a - {k})[k' := a[k]]| == |a|
  {
    var r := a - {k};
    assert a.Keys == r.Keys + {k} && r[k' := a[k]].Keys == r.Keys + {k'};
    assert |a.Keys| == |r.Keys| + 1 && |r[k' := a[k]].Keys| == |r.Keys| + 1;
  }

  /** The field-by-field comparison is equality exactly for the nodes without an
      empty label value; `projectLabels` never keeps one. */
  lemma NodeEqualIsEquality(a: Node)
    ensures (forall b :: NodeEqual(a, b) <==> a == b) <==> LabelsSet(a)
  {
    if LabelsSet(a) {
      forall b ensures NodeEqual(a, b) <==> a == b {
        if NodeEqual(a, b) {
          SameLabels(a.labels, b.labels);
          assert a.ports == b.ports;
        }
      }
    } else {
      var k :| k in a.labels && a.labels[k] == EMPTY;
      var k' := FreshKey(a.labels.Keys);
      Renamed(a.labels, k, k');
      var b := a.(labels := (a.labels - {k})[k' := a.labels[k]]);
      assert NodeEqual(a, b) && k !in b.labels;
    }
  }

  // ----------------------------------------------------------------- diffing

  /** Nodes by ID, the last one of a repeated ID. */
  function Index(nodes: seq<Node>): (m: map<Text, Node>)
    ensures forall id :: id in m ==> m[id].id == id && m[id] in nodes
    ensures forall n :: n in nodes ==> n.id in m
  {
    if nodes == [] then map[]
    else
      var last := nodes[|nodes| - 1];
      assert nodes == nodes[..|nodes| - 1] + [last];
      Index(nodes[..|nodes| - 1])[last.id := last]
  }

  function EdgeIds(edges: seq<Edge>): set<Text> {
    set e | e in edges :: e.id
  }

  /** A change of the graph; the lists, in no particular order, are by ID. */
  datatype Delta = Delta(added: map<Text, Node>, updated: map<Text, Node>, removed: set<Text>,
                         edgesAdded: set<Text>, edgesRemoved: set<Text>)

  function Added<V>(p: map<Text, V>, c: map<Text, V>): map<Text, V> {
    map id | id in c && id !in p :: c[id]
  }

  function Updated<V>(p: map<Text, V>, c: map<Text, V>, same: (V, V) -> bool): map<Text, V> {
    map id | id in c && id in p && !same(p[id], c[id]) :: c[id]
  }

  function Diff(prev: Graph, curr: Graph): Delta {
    var p, c := Index(prev.nodes), Index(curr.nodes);
    Delta(Added(p, c), Updated(p, c, NodeEqual), p.Keys - c.Keys,
          EdgeIds(curr.edges) - EdgeIds(prev.edges), EdgeIds(prev.edges) - EdgeIds(curr.edges))
  }

  predicate Changed(d: Delta) {
    d.added != map[] || d.removed != {} || d.updated != map[] || d.edgesAdded != {} || d.edgesRemoved != {}
  }

  /** The loop over the current nodes. */
  method AddedOrUpdated<V>(p: map<Text, V>, c: map<Text, V>, same: (V, V) -> bool)
      returns (added: map<Text, V>, updated: map<Text, V>)
    ensures added == Added(p, c) && updated == Updated(p, c, same)
  {
    added, updated := map[], map[];
    var todo := c.Keys;
    while todo != {}
      invariant todo <= c.Keys
      invariant added == map id | id in Added(p, c) && id !in todo :: c[id]
      invariant updated == map id | id in Updated(p, c, same) && id !in todo :: c[id]
      decreases |todo|
    {
      var id :| id in todo;
      if id !in p {
        added := added[id := c[id]];
      } else if !same(p[id], c[id]) {
        updated := updated[id := c[id]];
      }
      todo := todo - {id};
    }
  }

  /** The loops over the IDs of one graph that look for those the other lacks. */
  method Missing(p: set<Text>, c: set<Text>) returns (missing: set<Text>)
    ensures missing == p - c
  {
    missing := {};
    var todo := p;
    while todo != {}
      invariant todo <= p && forall id :: id in missing <==> id in p && id !in todo && id !in c
      decreases |todo|
    {
      var id :| id in todo;
      if id !in c {
        missing := missing + {id};
      }
      todo := todo - {id};
    }
  }

  /** `diffSnapshots`. */
  method DiffSnapshots(prev: Graph, curr: Graph) returns (d: Delta, changed: bool)
    ensures d == Diff(prev, curr) && changed == Changed(d)
  {
    var added, updated := AddedOrUpdated(Index(prev.nodes), Index(curr.nodes), NodeEqual);
    var removed := Missing(Index(prev.nodes).Keys, Index(curr.nodes).Keys);
    var p, c := EdgeIds(prev.edges), EdgeIds(curr.edges);
    var edgesAdded := Missing(c, p);
    var edgesRemoved := Missing(p, c);
    d := Delta(added, updated, removed, edgesAdded, edgesRemoved);
    changed := |d.added| > 0 || |d.removed| > 0 || |d.updated| > 0 || |d.edgesAdded| > 0 || |d.edgesRemoved| > 0;
  }

  // ------------------------------------------------- what a subscriber sees

  /** The part of a graph a replaying subscriber keeps: nodes and edge IDs. */
  datatype View = View(nodes: map<Text, Node>, edges: set<Text>)

  function ViewOf(g: Graph): View {
    View(Index(g.nodes), EdgeIds(g.edges))
  }

  function Apply(v: View, d: Delta): View {
    View((v.nodes - d.removed) + d.added + d.updated, (v.edges - d.edgesRemoved) + d.edgesAdded)
  }

  ghost predicate AllLabelsSet(nodes: seq<Node>) {
    forall n :: n in nodes ==> LabelsSet(n)
  }

  lemma MapDiffReplays<V>(p: map<Text, V>, c: map<Text, V>, same: (V, V) -> bool)
    requires forall id :: id in p && id in c && same(p[id], c[id]) ==> p[id] == c[id]
    ensures (p - (p.Keys - c.Keys)) + Added(p, c) + Updated(p, c, same) == c
    ensures Added(p, c) == map[] && Updated(p, c, same) == map[] && p.Keys - c.Keys == {} ==> p == c
  {
    forall id | id in c ensures id in p || id in Added(p, c) {
    }
    forall id | id in c && id in p ensures p[id] == c[id] || id in Updated(p, c, same) {
    }
  }

  /** Replaying a delta on the previous graph gives the current one; when nothing
      is reported changed, nothing is. */
  lemma DiffReplays(prev: Graph, curr: Graph)
    requires AllLabelsSet(prev.nodes)
    ensures Apply(ViewOf(prev), Diff(prev, curr)) == ViewOf(curr)
    ensures !Changed(Diff(prev, curr)) ==> ViewOf(prev) == ViewOf(curr)
  {
    var p, c := Index(prev.nodes), Index(curr.nodes);
    forall id | id in p && id in c && NodeEqual(p[id], c[id]) ensures p[id] == c[id] {
      assert p[id] in prev.nodes;
      NodeEqualIsEquality(p[id]);
    }
    MapDiffReplays(p, c, NodeEqual);
    EdgeDiffReplays(EdgeIds(prev.edges), EdgeIds(curr.edges));
  }

  lemma EdgeDiffReplays(p: set<Text>, c: set<Text>)
    ensures (p - (p - c)) + (c - p) == c
    ensures p - c == {} && c - p == {} ==> p == c
  {
  }
}

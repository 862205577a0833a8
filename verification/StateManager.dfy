/** The state manager (backend/state/manager.go). */
module StateManager {
  // Snapshots of several sources are merged into one graph, and subscribers who
  // replay what they are sent keep up with it.

  import opened Common
  import opened Graphs

  // ----------------------------------------------------------------- merging

  ghost predicate HasNode(snaps: map<Text, Graph>, n: Node) {
    exists s :: s in snaps && n in snaps[s].nodes
  }

  ghost predicate HasEdge(snaps: map<Text, Graph>, e: Edge) {
    exists s :: s in snaps && e in snaps[s].edges
  }

  /** One node of some snapshot for each name and type that occurs. */
  ghost predicate Flattens(snaps: map<Text, Graph>, nodes: map<NodeKey, Node>) {
    && (forall k :: k in nodes ==> nodes[k].key == k && HasNode(snaps, nodes[k]))
    && (forall n :: HasNode(snaps, n) ==> n.key in nodes)
  }

  function ByKey(nodes: seq<Node>): (m: map<NodeKey, Node>)
    ensures forall k :: k in m ==> m[k].key == k && m[k] in nodes
    ensures forall n :: n in nodes ==> n.key in m
  {
    if nodes == [] then map[]
    else
      var last := nodes[|nodes| - 1];
      assert nodes == nodes[..|nodes| - 1] + [last];
      ByKey(nodes[..|nodes| - 1])[last.key := last]
  }

  ghost predicate FlattensEdges(snaps: map<Text, Graph>, edges: seq<Edge>) {
    forall e :: e in edges <==> HasEdge(snaps, e)
  }

  /** `flattenSnapshots`, the snapshots coming in whatever order the map gives. */
  method Flatten(snaps: map<Text, Graph>) returns (nodes: map<NodeKey, Node>, edges: seq<Edge>)
    ensures Flattens(snaps, nodes) && FlattensEdges(snaps, edges)
  {
    nodes, edges := map[], [];
    var todo := snaps;
    ghost var seen: map<Text, Graph> := map[];
    while todo != map[]
      invariant todo.Keys !! seen.Keys && seen + todo == snaps
      invariant Flattens(seen, nodes) && FlattensEdges(seen, edges)
      decreases |todo|
    {
      var s :| s in todo;
      var g := todo[s];
      MoreNodes(seen, s, g, nodes);
      MoreEdges(seen, s, g, edges);
      nodes := nodes + ByKey(g.nodes);
      edges := edges + g.edges;
      MoveOver(seen, todo, s);
      todo, seen := todo - {s}, seen[s := g];
    }
  }

  lemma MoveOver(seen: map<Text, Graph>, todo: map<Text, Graph>, s: Text)
    requires todo.Keys !! seen.Keys && s in todo
    ensures (todo - {s}).Keys !! seen[s := todo[s]].Keys && seen[s := todo[s]] + (todo - {s}) == seen + todo
    ensures |todo - {s}| < |todo|
  {
    var rest := todo - {s};
    assert todo.Keys == rest.Keys + {s};
    assert |todo.Keys| == |rest.Keys| + 1;
  }

  lemma NodeOfMore(seen: map<Text, Graph>, s: Text, g: Graph, n: Node)
    requires s !in seen
    ensures HasNode(seen[s := g], n) <==> HasNode(seen, n) || n in g.nodes
  {
    var all := seen[s := g];
    if HasNode(seen, n) {
      var t :| t in seen && n in seen[t].nodes;
      assert t in all && n in all[t].nodes;
    }
    if n in g.nodes {
      assert s in all && n in all[s].nodes;
    }
  }

  lemma MoreNodes(seen: map<Text, Graph>, s: Text, g: Graph, nodes: map<NodeKey, Node>)
    requires s !in seen && Flattens(seen, nodes)
    ensures Flattens(seen[s := g], nodes + ByKey(g.nodes))
  {
    var all, more := seen[s := g], ByKey(g.nodes);
    forall k | k in nodes + more ensures (nodes + more)[k].key == k && HasNode(all, (nodes + more)[k]) {
      NodeOfMore(seen, s, g, (nodes + more)[k]);
    }
    forall n | HasNode(all, n) ensures n.key in nodes + more {
      NodeOfMore(seen, s, g, n);
    }
  }

  lemma MoreEdges(seen: map<Text, Graph>, s: Text, g: Graph, edges: seq<Edge>)
    requires s !in seen && FlattensEdges(seen, edges)
    ensures FlattensEdges(seen[s := g], edges + g.edges)
  {
    var all := seen[s := g];
    forall e ensures HasEdge(all, e) <==> HasEdge(seen, e) || e in g.edges {
      if HasEdge(seen, e) {
        var t :| t in seen && e in seen[t].edges;
        assert t in all && e in all[t].edges;
      }
      if e in g.edges {
        assert s in all && e in all[s].edges;
      }
    }
  }

  /** Runtime data first; declared metadata where the runtime has none. */
  function MergedNode(docker: map<NodeKey, Node>, compose: map<NodeKey, Node>, k: NodeKey): Node
    requires k in docker || k in compose
  {
    if k !in docker then compose[k]
    else if k !in compose then docker[k]
    else
      var d, c := docker[k], compose[k];
      d.(source := if c.source != EMPTY then c.source else d.source,
         networkId := if d.networkId == EMPTY && c.networkId != EMPTY then c.networkId else d.networkId)
  }

  /** `keys` lists the members of a set once each, in some order. */
  ghost predicate Enumerates(keys: seq<NodeKey>, s: set<NodeKey>) {
    if keys == [] then s == {}
    else keys[|keys| - 1] in s && Enumerates(keys[..|keys| - 1], s - {keys[|keys| - 1]})
  }

  lemma EnumerateMore(keys: seq<NodeKey>, s: set<NodeKey>, k: NodeKey)
    requires Enumerates(keys, s) && k !in s
    ensures Enumerates(keys + [k], s + {k})
  {
    assert (keys + [k])[..|keys|] == keys && s + {k} - {k} == s;
  }

  lemma {:induction false} EnumeratedMembers(keys: seq<NodeKey>, s: set<NodeKey>)
    requires Enumerates(keys, s)
    ensures forall k :: k in keys <==> k in s
  {
    if keys != [] {
      var last := keys[|keys| - 1];
      EnumeratedMembers(keys[..|keys| - 1], s - {last});
      assert keys == keys[..|keys| - 1] + [last];
    }
  }

  /** Each node of the list is the merged node of its key. */
  ghost predicate MergesNodes(docker: map<NodeKey, Node>, compose: map<NodeKey, Node>, keys: seq<NodeKey>, nodes: seq<Node>) {
    if keys == [] then nodes == []
    else
      var k := keys[|keys| - 1];
      && nodes != [] && (k in docker || k in compose) && nodes[|nodes| - 1] == MergedNode(docker, compose, k)
      && MergesNodes(docker, compose, keys[..|keys| - 1], nodes[..|nodes| - 1])
  }

  lemma {:induction false} MergedAt(docker: map<NodeKey, Node>, compose: map<NodeKey, Node>, keys: seq<NodeKey>, nodes: seq<Node>)
    requires MergesNodes(docker, compose, keys, nodes)
    ensures |nodes| == |keys|
    ensures forall i :: 0 <= i < |keys| ==> (keys[i] in docker || keys[i] in compose) && nodes[i] == MergedNode(docker, compose, keys[i])
  {
    if keys != [] {
      var ks, ns := keys[..|keys| - 1], nodes[..|nodes| - 1];
      MergedAt(docker, compose, ks, ns);
      assert forall i :: 0 <= i < |ks| ==> keys[i] == ks[i] && nodes[i] == ns[i];
    }
  }

  lemma MergeMore(docker: map<NodeKey, Node>, compose: map<NodeKey, Node>, keys: seq<NodeKey>, nodes: seq<Node>, k: NodeKey)
    requires MergesNodes(docker, compose, keys, nodes) && (k in docker || k in compose)
    ensures MergesNodes(docker, compose, keys + [k], nodes + [MergedNode(docker, compose, k)])
  {
    assert (keys + [k])[..|keys|] == keys;
    assert (nodes + [MergedNode(docker, compose, k)])[..|nodes|] == nodes;
  }

  /** The merged node of each name and type, each once, in some order. */
  ghost predicate MergedInSomeOrder(docker: map<NodeKey, Node>, compose: map<NodeKey, Node>, nodes: seq<Node>) {
    exists keys :: MergesNodes(docker, compose, keys, nodes) && Enumerates(keys, docker.Keys + compose.Keys)
  }

  /** `mergeNodes`: a loop over the runtime nodes, then one over the declared
      nodes that are left, each in whatever order the map gives. */
  method MergeNodes(docker: map<NodeKey, Node>, compose: map<NodeKey, Node>) returns (nodes: seq<Node>)
    ensures MergedInSomeOrder(docker, compose, nodes)
  {
    ghost var keys;
    nodes, keys := MergeLoop(docker, compose, docker.Keys, [], [], {});
    assert {} + docker.Keys == docker.Keys;
    nodes, keys := MergeLoop(docker, compose, compose.Keys - docker.Keys, nodes, keys, docker.Keys);
    assert docker.Keys + (compose.Keys - docker.Keys) == docker.Keys + compose.Keys;
  }

  method MergeLoop(docker: map<NodeKey, Node>, compose: map<NodeKey, Node>, keys: set<NodeKey>,
                   nodes: seq<Node>, ghost listed: seq<NodeKey>, ghost seen: set<NodeKey>)
      returns (nodes': seq<Node>, ghost listed': seq<NodeKey>)
    requires keys <= docker.Keys + compose.Keys && keys !! seen
    requires MergesNodes(docker, compose, listed, nodes) && Enumerates(listed, seen)
    ensures MergesNodes(docker, compose, listed', nodes') && Enumerates(listed', seen + keys)
  {
    nodes', listed' := nodes, listed;
    var todo := keys;
    ghost var done := seen;
    while todo != {}
      invariant todo <= keys && todo !! done && seen + keys == done + todo
      invariant MergesNodes(docker, compose, listed', nodes') && Enumerates(listed', done)
      decreases |todo|
    {
      var k :| k in todo;
      EnumerateMore(listed', done, k);
      MergeMore(docker, compose, listed', nodes', k);
      nodes', listed' := nodes' + [MergedNode(docker, compose, k)], listed' + [k];
      todo, done := todo - {k}, done + {k};
    }
  }

  function Ids(nodes: seq<Node>): set<Text> {
    set n | n in nodes :: n.id
  }

  function Cleared(n: Node, ids: set<Text>): Node {
    if n.networkId != EMPTY && n.networkId !in ids then n.(networkId := EMPTY) else n
  }

  /** `clearDanglingNetworkIDs`: edits the list in place. */
  method ClearDangling(nodes: seq<Node>) returns (r: seq<Node>)
    ensures |r| == |nodes| && forall i :: 0 <= i < |nodes| ==> r[i] == Cleared(nodes[i], Ids(nodes))
  {
    var ids := Ids(nodes);
    r := nodes;
    for i := 0 to |nodes|
      invariant |r| == |nodes|
      invariant forall j :: 0 <= j < |nodes| ==> r[j] == if j < i then Cleared(nodes[j], ids) else nodes[j]
    {
      if r[i].networkId != EMPTY && r[i].networkId !in ids {
        r := r[i := r[i].(networkId := EMPTY)];
      }
    }
  }

  predicate Anchored(e: Edge, ids: set<Text>) {
    e.source in ids && e.target in ids
  }

  /** The first edge of each ID whose ends are both present. */
  function FirstWins(edges: seq<Edge>, ids: set<Text>): seq<Edge> {
    if edges == [] then []
    else
      var r, e := FirstWins(edges[..|edges| - 1], ids), edges[|edges| - 1];
      if e.id in EdgeIds(r) || !Anchored(e, ids) then r else r + [e]
  }

  /** `mergeEdges`, runtime edges first. */
  method MergeEdges(docker: seq<Edge>, compose: seq<Edge>, ids: set<Text>) returns (r: seq<Edge>)
    ensures r == FirstWins(docker + compose, ids)
  {
    var all := docker + compose;
    r := [];
    var seen: set<Text> := {};
    for i := 0 to |all|
      invariant r == FirstWins(all[..i], ids) && seen == EdgeIds(r)
    {
      var e := all[i];
      assert all[..i + 1][..i] == all[..i];
      if e.id !in seen && e.source in ids && e.target in ids {
        seen := seen + {e.id};
        r := r + [e];
      }
    }
    assert all[..|all|] == all;
  }

  /** No edge dangles, no ID repeats, and no edge that could be kept is lost. */
  lemma {:induction false} FirstWinsKeeps(edges: seq<Edge>, ids: set<Text>)
    ensures var r := FirstWins(edges, ids);
            && (forall e :: e in r ==> e in edges && Anchored(e, ids))
            && (forall i, j :: 0 <= i < j < |r| ==> r[i].id != r[j].id)
            && (forall e :: e in edges && Anchored(e, ids) ==> e.id in EdgeIds(r))
  {
    if edges != [] {
      var r, e := FirstWins(edges[..|edges| - 1], ids), edges[|edges| - 1];
      FirstWinsKeeps(edges[..|edges| - 1], ids);
      assert edges == edges[..|edges| - 1] + [e];
      assert forall i :: 0 <= i < |r| ==> r[i].id in EdgeIds(r);
      assert forall x :: x in EdgeIds(r) ==> x in EdgeIds(r + [e]);
      assert e.id in EdgeIds(r + [e]);
    }
  }

  /** Runtime edges take precedence: the merged edges start with theirs. */
  lemma {:induction false} RuntimeEdgesFirst(docker: seq<Edge>, compose: seq<Edge>, ids: set<Text>)
    ensures FirstWins(docker, ids) <= FirstWins(docker + compose, ids)
  {
    if compose == [] {
      assert docker + compose == docker;
    } else {
      assert (docker + compose)[..|docker + compose| - 1] == docker + compose[..|compose| - 1];
      RuntimeEdgesFirst(docker, compose[..|compose| - 1], ids);
    }
  }

  /** Nothing in the graph refers to a node that is not there. */
  ghost predicate WellLinked(g: Graph) {
    && (forall e :: e in g.edges ==> Anchored(e, Ids(g.nodes)))
    && (forall n :: n in g.nodes ==> n.networkId == EMPTY || n.networkId in Ids(g.nodes))
  }

  ghost predicate SnapshotsSet(snaps: map<Text, Graph>) {
    forall s :: s in snaps ==> AllLabelsSet(snaps[s].nodes)
  }

  /** The nodes of a merged graph: one per name and type, the runtime one if there
      is one, without dangling references. */
  ghost predicate NodesMerged(g: Graph, runtime: map<Text, Graph>, declarative: map<Text, Graph>,
                              docker: map<NodeKey, Node>, compose: map<NodeKey, Node>, keys: seq<NodeKey>) {
    && Flattens(runtime, docker) && Flattens(declarative, compose) && Enumerates(keys, docker.Keys + compose.Keys)
    && |g.nodes| == |keys|
    && (forall i :: 0 <= i < |keys| ==>
          (keys[i] in docker || keys[i] in compose)
          && g.nodes[i] == Cleared(MergedNode(docker, compose, keys[i]), Ids(g.nodes)))
  }

  /** Its edges: the first of each ID whose ends are there, runtime edges first. */
  ghost predicate EdgesMerged(g: Graph, runtime: map<Text, Graph>, declarative: map<Text, Graph>,
                              docker: seq<Edge>, compose: seq<Edge>) {
    && FlattensEdges(runtime, docker) && FlattensEdges(declarative, compose)
    && g.edges == FirstWins(docker + compose, Ids(g.nodes))
  }

  /** What the merged graph is made of. */
  ghost predicate IsMerge(g: Graph, runtime: map<Text, Graph>, declarative: map<Text, Graph>) {
    && (exists docker, compose, keys :: NodesMerged(g, runtime, declarative, docker, compose, keys))
    && (exists docker, compose :: EdgesMerged(g, runtime, declarative, docker, compose))
  }

  lemma ClearingKeepsIds(nodes: seq<Node>, r: seq<Node>, ids: set<Text>)
    requires |r| == |nodes| && forall i :: 0 <= i < |nodes| ==> r[i] == Cleared(nodes[i], ids)
    ensures Ids(r) == Ids(nodes)
  {
    forall n | n in nodes ensures n.id in Ids(r) {
      var i :| 0 <= i < |nodes| && nodes[i] == n;
      assert r[i] in r;
    }
    forall n | n in r ensures n.id in Ids(nodes) {
      var i :| 0 <= i < |r| && r[i] == n;
      assert nodes[i] in nodes;
    }
  }

  lemma MergedLabelsSet(docker: map<NodeKey, Node>, compose: map<NodeKey, Node>, k: NodeKey,
                        runtime: map<Text, Graph>, declarative: map<Text, Graph>)
    requires Flattens(runtime, docker) && Flattens(declarative, compose) && SnapshotsSet(runtime) && SnapshotsSet(declarative)
    requires k in docker || k in compose
    ensures LabelsSet(MergedNode(docker, compose, k))
  {
    if k in docker {
      var s :| s in runtime && docker[k] in runtime[s].nodes;
    } else {
      var s :| s in declarative && compose[k] in declarative[s].nodes;
    }
  }

  /** `mergeSnapshots`. */
  method MergeSnapshots(declarative: map<Text, Graph>, runtime: map<Text, Graph>) returns (g: Graph)
    requires SnapshotsSet(declarative) && SnapshotsSet(runtime)
    ensures WellLinked(g) && AllLabelsSet(g.nodes)
    ensures IsMerge(g, runtime, declarative)
  {
    var composeNodes, composeEdges := Flatten(declarative);
    var dockerNodes, dockerEdges := Flatten(runtime);
    var nodes := MergeNodes(dockerNodes, composeNodes);
    ghost var keys :| MergesNodes(dockerNodes, composeNodes, keys, nodes)
                      && Enumerates(keys, dockerNodes.Keys + composeNodes.Keys);
    var cleared := ClearDangling(nodes);
    var edges := MergeEdges(dockerEdges, composeEdges, Ids(cleared));
    g := Graph(cleared, edges);
    MergedAt(dockerNodes, composeNodes, keys, nodes);
    ClearingKeepsIds(nodes, cleared, Ids(nodes));
    assert NodesMerged(g, runtime, declarative, dockerNodes, composeNodes, keys);
    assert EdgesMerged(g, runtime, declarative, dockerEdges, composeEdges);
    FirstWinsKeeps(dockerEdges + composeEdges, Ids(cleared));
    ClearedIsLinked(nodes, cleared);
    MergedNodesSet(g, runtime, declarative, dockerNodes, composeNodes, keys);
  }

  lemma MergedNodesSet(g: Graph, runtime: map<Text, Graph>, declarative: map<Text, Graph>,
                       docker: map<NodeKey, Node>, compose: map<NodeKey, Node>, keys: seq<NodeKey>)
    requires NodesMerged(g, runtime, declarative, docker, compose, keys)
    requires SnapshotsSet(runtime) && SnapshotsSet(declarative)
    ensures AllLabelsSet(g.nodes)
  {
    forall i | 0 <= i < |keys| ensures LabelsSet(g.nodes[i]) {
      MergedLabelsSet(docker, compose, keys[i], runtime, declarative);
    }
  }

  lemma {:induction false} EnumeratedOnce(keys: seq<NodeKey>, s: set<NodeKey>)
    requires Enumerates(keys, s)
    ensures forall i, j :: 0 <= i < j < |keys| ==> keys[i] != keys[j]
  {
    if keys != [] {
      var init, last := keys[..|keys| - 1], keys[|keys| - 1];
      EnumeratedOnce(init, s - {last});
      EnumeratedMembers(init, s - {last});
      forall i | 0 <= i < |init| ensures keys[i] != last {
        assert init[i] in init;
      }
      assert forall i :: 0 <= i < |init| ==> init[i] == keys[i];
    }
  }

  ghost predicate HasKey(nodes: seq<Node>, k: NodeKey) {
    exists i :: 0 <= i < |nodes| && nodes[i].key == k
  }

  /** The graph has exactly one node for each name and type of any snapshot. */
  ghost predicate OneNodeEach(g: Graph, runtime: map<Text, Graph>, declarative: map<Text, Graph>) {
    && (forall n :: HasNode(runtime, n) || HasNode(declarative, n) ==> HasKey(g.nodes, n.key))
    && (forall i, j :: 0 <= i < j < |g.nodes| ==> g.nodes[i].key != g.nodes[j].key)
  }

  lemma NodeKeys(g: Graph, runtime: map<Text, Graph>, declarative: map<Text, Graph>,
                 docker: map<NodeKey, Node>, compose: map<NodeKey, Node>, keys: seq<NodeKey>)
    requires NodesMerged(g, runtime, declarative, docker, compose, keys)
    ensures forall i :: 0 <= i < |keys| ==> g.nodes[i].key == keys[i]
  {
    forall i | 0 <= i < |keys| ensures g.nodes[i].key == keys[i] {
      var k := keys[i];
      assert MergedNode(docker, compose, k).key == k;
    }
  }

  lemma KeysListed(nodes: seq<Node>, keys: seq<NodeKey>, s: set<NodeKey>)
    requires Enumerates(keys, s) && |nodes| == |keys| && forall i :: 0 <= i < |keys| ==> nodes[i].key == keys[i]
    ensures forall k :: k in s ==> HasKey(nodes, k)
    ensures forall i, j :: 0 <= i < j < |nodes| ==> nodes[i].key != nodes[j].key
  {
    EnumeratedOnce(keys, s);
    EnumeratedMembers(keys, s);
    forall k | k in s ensures HasKey(nodes, k) {
      var i :| 0 <= i < |keys| && keys[i] == k;
      assert nodes[i].key == k;
    }
  }

  lemma NodesOnce(g: Graph, runtime: map<Text, Graph>, declarative: map<Text, Graph>,
                  docker: map<NodeKey, Node>, compose: map<NodeKey, Node>, keys: seq<NodeKey>)
    requires NodesMerged(g, runtime, declarative, docker, compose, keys)
    ensures OneNodeEach(g, runtime, declarative)
  {
    NodeKeys(g, runtime, declarative, docker, compose, keys);
    KeysListed(g.nodes, keys, docker.Keys + compose.Keys);
  }

  /** The graph has the edges of the snapshots, one per ID, none of them without
      its ends, none left out that has both, and no declared one in the place of a
      runtime one. */
  ghost predicate EdgesKept(g: Graph, runtime: map<Text, Graph>, declarative: map<Text, Graph>) {
    && (forall e :: e in g.edges ==> (HasEdge(runtime, e) || HasEdge(declarative, e)) && Anchored(e, Ids(g.nodes)))
    && (forall e :: (HasEdge(runtime, e) || HasEdge(declarative, e)) && Anchored(e, Ids(g.nodes)) ==> e.id in EdgeIds(g.edges))
    && (forall i, j :: 0 <= i < j < |g.edges| ==> g.edges[i].id != g.edges[j].id)
    && (forall e, r :: e in g.edges && HasEdge(runtime, r) && Anchored(r, Ids(g.nodes)) && r.id == e.id ==> HasEdge(runtime, e))
  }

  lemma EdgesOnce(g: Graph, runtime: map<Text, Graph>, declarative: map<Text, Graph>, docker: seq<Edge>, compose: seq<Edge>)
    requires EdgesMerged(g, runtime, declarative, docker, compose)
    ensures EdgesKept(g, runtime, declarative)
  {
    var ids := Ids(g.nodes);
    FirstWinsKeeps(docker + compose, ids);
    FirstWinsKeeps(docker, ids);
    RuntimeEdgesFirst(docker, compose, ids);
    forall e, r | e in g.edges && HasEdge(runtime, r) && Anchored(r, ids) && r.id == e.id ensures HasEdge(runtime, e) {
      FirstOfId(FirstWins(docker, ids), g.edges, e);
    }
  }

  lemma FirstOfId(first: seq<Edge>, edges: seq<Edge>, e: Edge)
    requires first <= edges && e in edges && e.id in EdgeIds(first)
    requires forall i, j :: 0 <= i < j < |edges| ==> edges[i].id != edges[j].id
    ensures e in first
  {
    var i :| 0 <= i < |edges| && edges[i] == e;
    var j :| 0 <= j < |first| && first[j].id == e.id;
    assert edges[j] == first[j];
  }

  /** Merging loses nothing: one node for each name and type of any snapshot, and
      every edge that can be kept. */
  lemma MergeLosesNothing(g: Graph, runtime: map<Text, Graph>, declarative: map<Text, Graph>)
    requires IsMerge(g, runtime, declarative)
    ensures OneNodeEach(g, runtime, declarative) && EdgesKept(g, runtime, declarative)
  {
    var docker, compose, keys :| NodesMerged(g, runtime, declarative, docker, compose, keys);
    NodesOnce(g, runtime, declarative, docker, compose, keys);
    var d, c :| EdgesMerged(g, runtime, declarative, d, c);
    EdgesOnce(g, runtime, declarative, d, c);
  }

  lemma ClearedIsLinked(nodes: seq<Node>, r: seq<Node>)
    requires |r| == |nodes| && forall i :: 0 <= i < |nodes| ==> r[i] == Cleared(nodes[i], Ids(nodes))
    ensures forall n :: n in r ==> n.networkId == EMPTY || n.networkId in Ids(r)
  {
    ClearingKeepsIds(nodes, r, Ids(nodes));
  }

  // ------------------------------------------------------------- subscribers

  datatype Message = Snapshot(graph: Graph) | Change(delta: Delta) | Stats

  const NOTHING := View(map[], {})

  /** What a subscriber who replays its messages from the empty graph sees. */
  function Replay(messages: seq<Message>): View {
    if messages == [] then NOTHING else Seen(Replay(messages[..|messages| - 1]), messages[|messages| - 1])
  }

  function Seen(v: View, m: Message): View {
    match m
    case Snapshot(g) => ViewOf(g)
    case Change(d) => Apply(v, d)
    case Stats => v
  }

  lemma ReplayMore(messages: seq<Message>, m: Message)
    ensures Replay(messages + [m]) == Seen(Replay(messages), m)
  {
    assert (messages + [m])[..|messages|] == messages;
  }

  const CAPACITY := 16

  /** A subscriber's channel: what it has read, what is still queued, and whether
      news of the graph was dropped because the queue was full. */
  datatype Channel = Channel(read: seq<Message>, queue: seq<Message>, behind: bool)

  function Sent(c: Channel): seq<Message> {
    c.read + c.queue
  }

  /** The channel after a non-blocking send: a full one misses the message. */
  function Send(c: Channel, m: Message): Channel {
    if |c.queue| < CAPACITY then c.(queue := c.queue + [m]) else c.(behind := c.behind || !m.Stats?)
  }

  /** The channel after the subscriber read a message. */
  function Read(c: Channel): Channel
    requires c.queue != []
  {
    Channel(c.read + [c.queue[0]], c.queue[1..], c.behind)
  }

  /** What a subscriber sees once it has read and replayed all it was sent. */
  function Sees(c: Channel): View {
    Replay(Sent(c))
  }

  /** A subscriber that missed no news sees the graph `g`. */
  ghost predicate InStep(c: Channel, g: Graph) {
    |c.queue| <= CAPACITY && (!c.behind ==> Sees(c) == ViewOf(g))
  }

  ghost predicate AllInStep(subscribers: map<nat, Channel>, g: Graph) {
    forall id :: id in subscribers ==> InStep(subscribers[id], g)
  }

  lemma EmptyGraphSeesNothing(g: Graph)
    requires WellLinked(g) && g.nodes == []
    ensures ViewOf(g) == NOTHING
  {
    assert Ids(g.nodes) == {};
    assert forall e :: e in g.edges ==> Anchored(e, {});
    assert forall e :: e !in g.edges;
  }

  /** The message says how to get from one graph to the next. */
  ghost predicate Announces(m: Message, prev: Graph, curr: Graph) {
    match m
    case Snapshot(g) => g == curr
    case Change(d) => d == Diff(prev, curr) && AllLabelsSet(prev.nodes)
    case Stats => prev == curr
  }

  lemma SentMore(c: Channel, m: Message)
    requires |c.queue| < CAPACITY
    ensures Sees(Send(c, m)) == Seen(Sees(c), m)
  {
    ReplayMore(Sent(c), m);
    assert Sent(c) + [m] == c.read + (c.queue + [m]);
  }

  /** Sending what changed brings a subscriber from one graph to the next. */
  lemma SendKeepsInStep(c: Channel, m: Message, prev: Graph, curr: Graph)
    requires InStep(c, prev) && Announces(m, prev, curr)
    ensures InStep(Send(c, m), curr)
  {
    if |c.queue| < CAPACITY {
      SentMore(c, m);
      if m.Change? {
        DiffReplays(prev, curr);
      }
    }
  }

  lemma ReadKeepsInStep(c: Channel, g: Graph)
    requires InStep(c, g) && c.queue != []
    ensures InStep(Read(c), g) && Sees(Read(c)) == Sees(c)
  {
    assert c.read + c.queue == (c.read + [c.queue[0]]) + c.queue[1..];
  }

  /** A new channel: the whole graph, if it has a node. */
  function Opening(g: Graph): Channel {
    Channel([], if |g.nodes| > 0 then [Snapshot(g)] else [], false)
  }

  lemma OpeningInStep(g: Graph)
    requires WellLinked(g)
    ensures InStep(Opening(g), g)
  {
    ReplayMore([], Snapshot(g));
    assert Sent(Opening(g)) == Opening(g).queue;
    if g.nodes == [] {
      EmptyGraphSeesNothing(g);
    } else {
      assert [] + [Snapshot(g)] == [Snapshot(g)];
    }
  }

  // ------------------------------------------------------- the whole manager

  datatype Update = NoSnapshot | NewSnapshot(graph: Graph)

  datatype State = State(snapshots: map<Text, Graph>, runtimeSources: map<Text, bool>, merged: Graph, hasState: bool,
                         subscribers: map<nat, Channel>, nextId: nat)

  const NEW := State(map[], map[], Graph([], []), false, map[], 0)

  /** The snapshots of the runtime sources, or of the others. */
  function Of(snapshots: map<Text, Graph>, runtimeSources: map<Text, bool>, runtime: bool): map<Text, Graph> {
    map s | s in snapshots && s in runtimeSources && runtimeSources[s] == runtime :: snapshots[s]
  }

  /** The graph is the merge of all snapshots, the runtime sources first. */
  ghost predicate MergesAll(g: Graph, snapshots: map<Text, Graph>, sources: map<Text, bool>) {
    IsMerge(g, Of(snapshots, sources, true), Of(snapshots, sources, false))
  }

  /** Some runtime source's snapshot has the node, or some other source's. */
  ghost predicate HasNodeOf(snapshots: map<Text, Graph>, sources: map<Text, bool>, runtime: bool, n: Node) {
    exists s :: s in snapshots && s in sources && sources[s] == runtime && n in snapshots[s].nodes
  }

  lemma NodeOfKind(snapshots: map<Text, Graph>, sources: map<Text, bool>, runtime: bool, n: Node)
    ensures HasNode(Of(snapshots, sources, runtime), n) <==> HasNodeOf(snapshots, sources, runtime, n)
  {
    var part := Of(snapshots, sources, runtime);
    if HasNode(part, n) {
      var s :| s in part && n in part[s].nodes;
      assert s in snapshots && n in snapshots[s].nodes;
    }
    if HasNodeOf(snapshots, sources, runtime, n) {
      var s :| s in snapshots && s in sources && sources[s] == runtime && n in snapshots[s].nodes;
      assert s in part && n in part[s].nodes;
    }
  }

  /** A network of the graph, or none. */
  function Present(g: Graph, network: Text): Text {
    if network in Ids(g.nodes) then network else EMPTY
  }

  /** The running container `d` as the graph shows it, with what a declared one, if
      any, adds: a source of its own, and a network where `d` has none. */
  ghost predicate ShowsRuntime(g: Graph, m: Node, d: Node, c: Option<Node>) {
    && m.id == d.id && m.key == d.key && m.scalars == d.scalars && m.ports == d.ports && m.labels == d.labels
    && m.details == d.details
    && m.source == (if c.Some? && c.value.source != EMPTY then c.value.source else d.source)
    && m.networkId == Present(g, if d.networkId == EMPTY && c.Some? then c.value.networkId else d.networkId)
  }

  /** A declared node of the key, or None when there is none. */
  ghost predicate DeclaredAs(snapshots: map<Text, Graph>, sources: map<Text, bool>, c: Option<Node>, k: NodeKey) {
    match c
    case Some(n) => HasNodeOf(snapshots, sources, false, n) && n.key == k
    case None => forall n :: HasNodeOf(snapshots, sources, false, n) ==> n.key != k
  }

  ghost predicate RuntimeFirst(g: Graph, m: Node, snapshots: map<Text, Graph>, sources: map<Text, bool>) {
    exists d, c :: HasNodeOf(snapshots, sources, true, d) && DeclaredAs(snapshots, sources, c, m.key) && ShowsRuntime(g, m, d, c)
  }

  ghost predicate OnlyDeclared(g: Graph, m: Node, snapshots: map<Text, Graph>, sources: map<Text, bool>) {
    && (forall n :: HasNodeOf(snapshots, sources, true, n) ==> n.key != m.key)
    && exists c :: HasNodeOf(snapshots, sources, false, c) && m == c.(networkId := Present(g, c.networkId))
  }

  lemma ClearedIsPresent(g: Graph, n: Node)
    ensures Cleared(n, Ids(g.nodes)) == n.(networkId := Present(g, n.networkId))
  {
  }

  lemma MergedShows(g: Graph, m: Node, snapshots: map<Text, Graph>, sources: map<Text, bool>,
                    docker: map<NodeKey, Node>, compose: map<NodeKey, Node>, k: NodeKey)
    requires Flattens(Of(snapshots, sources, true), docker) && Flattens(Of(snapshots, sources, false), compose)
    requires (k in docker || k in compose) && m == Cleared(MergedNode(docker, compose, k), Ids(g.nodes))
    ensures RuntimeFirst(g, m, snapshots, sources) || OnlyDeclared(g, m, snapshots, sources)
  {
    ClearedIsPresent(g, MergedNode(docker, compose, k));
    forall n, b ensures HasNode(Of(snapshots, sources, b), n) <==> HasNodeOf(snapshots, sources, b, n) {
      NodeOfKind(snapshots, sources, b, n);
    }
    if k in docker {
      var c := if k in compose then Some(compose[k]) else None;
      assert HasNodeOf(snapshots, sources, true, docker[k]) && DeclaredAs(snapshots, sources, c, k);
      assert ShowsRuntime(g, m, docker[k], c);
    } else {
      assert HasNodeOf(snapshots, sources, false, compose[k]);
    }
  }

  /** A node of the merged graph is a runtime node, if a runtime source has one of
      its name and type, with source and network filled in from a declared one;
      only otherwise is it a declared node. */
  lemma RuntimeNodesFirst(g: Graph, snapshots: map<Text, Graph>, sources: map<Text, bool>, m: Node)
    requires MergesAll(g, snapshots, sources) && m in g.nodes
    ensures RuntimeFirst(g, m, snapshots, sources) || OnlyDeclared(g, m, snapshots, sources)
  {
    var runtime, declarative := Of(snapshots, sources, true), Of(snapshots, sources, false);
    var docker, compose, keys :| NodesMerged(g, runtime, declarative, docker, compose, keys);
    var i :| 0 <= i < |g.nodes| && g.nodes[i] == m;
    MergedShows(g, m, snapshots, sources, docker, compose, keys[i]);
  }

  /** The snapshots split by kind of source, then merged. */
  method MergeAll(snapshots: map<Text, Graph>, sources: map<Text, bool>) returns (g: Graph)
    requires SnapshotsSet(snapshots)
    ensures MergesAll(g, snapshots, sources) && WellLinked(g) && AllLabelsSet(g.nodes)
  {
    g := MergeSnapshots(Of(snapshots, sources, false), Of(snapshots, sources, true));
  }

  /** `merged` is what an update ends with. It is not determined by the snapshots:
      the order of nodes and edges is that of the walks over the maps. */
  datatype Event =
    | Subscribed
    | Unsubscribed(id: nat)
    | Received(id: nat)
    | Updated(name: Text, runtime: bool, update: Update, merged: Graph)
    | StatsSent

  function SnapshotsAfter(snapshots: map<Text, Graph>, name: Text, update: Update): map<Text, Graph> {
    if update.NewSnapshot? then snapshots[name := update.graph] else snapshots
  }

  function SourcesAfter(sources: map<Text, bool>, name: Text, runtime: bool, update: Update): map<Text, bool> {
    if update.NewSnapshot? then sources[name := runtime] else sources
  }

  /** What is announced when the graph becomes `g`: the whole graph the first time,
      then what changed, and nothing if nothing did. */
  function News(hasState: bool, prev: Graph, g: Graph): Option<Message> {
    if !hasState then Some(Snapshot(g))
    else if Changed(Diff(prev, g)) then Some(Change(Diff(prev, g))) else None
  }

  function SendAll(subscribers: map<nat, Channel>, m: Option<Message>): map<nat, Channel> {
    if m.None? then subscribers else map id | id in subscribers :: Send(subscribers[id], m.value)
  }

  function Step(s: State, e: Event): State {
    match e
    case Subscribed =>
      s.(nextId := s.nextId + 1, subscribers := s.subscribers[s.nextId + 1 := Opening(s.merged)])
    case Unsubscribed(id) => s.(subscribers := s.subscribers - {id})
    case Received(id) =>
      if id in s.subscribers && s.subscribers[id].queue != []
      then s.(subscribers := s.subscribers[id := Read(s.subscribers[id])]) else s
    case Updated(name, runtime, update, g) =>
      State(SnapshotsAfter(s.snapshots, name, update), SourcesAfter(s.runtimeSources, name, runtime, update), g, true,
            SendAll(s.subscribers, News(s.hasState, s.merged, g)), s.nextId)
    case StatsSent => s.(subscribers := SendAll(s.subscribers, Some(Stats)))
  }

  /** Subscribers read only what is queued, and an update ends with a merge of the
      snapshots there are then. */
  ghost predicate Possible(s: State, e: Event) {
    match e
    case Received(id) => id in s.subscribers && s.subscribers[id].queue != []
    case Updated(name, runtime, update, g) =>
      var snapshots, sources := SnapshotsAfter(s.snapshots, name, update), SourcesAfter(s.runtimeSources, name, runtime, update);
      (update.NewSnapshot? ==> AllLabelsSet(update.graph.nodes))
      && MergesAll(g, snapshots, sources)
    case _ => true
  }

  /** Every snapshot has its kind of source, and the merged graph is linked. */
  ghost predicate Stored(snapshots: map<Text, Graph>, sources: map<Text, bool>, merged: Graph) {
    snapshots.Keys == sources.Keys && SnapshotsSet(snapshots) && WellLinked(merged) && AllLabelsSet(merged.nodes)
  }

  ghost predicate Inv(s: State) {
    && Stored(s.snapshots, s.runtimeSources, s.merged) && (!s.hasState ==> s.merged == Graph([], []))
    && (forall id :: id in s.subscribers ==> id <= s.nextId)
    && AllInStep(s.subscribers, s.merged)
  }

  /** A merged graph refers to nothing that is not in it. */
  lemma MergeIsLinked(g: Graph, runtime: map<Text, Graph>, declarative: map<Text, Graph>)
    requires IsMerge(g, runtime, declarative)
    ensures WellLinked(g)
    ensures SnapshotsSet(runtime) && SnapshotsSet(declarative) ==> AllLabelsSet(g.nodes)
  {
    var docker, compose, keys :| NodesMerged(g, runtime, declarative, docker, compose, keys);
    NodesLinked(g, runtime, declarative, docker, compose, keys);
    var d, c :| EdgesMerged(g, runtime, declarative, d, c);
    FirstWinsKeeps(d + c, Ids(g.nodes));
  }

  lemma NodesLinked(g: Graph, runtime: map<Text, Graph>, declarative: map<Text, Graph>,
                    docker: map<NodeKey, Node>, compose: map<NodeKey, Node>, keys: seq<NodeKey>)
    requires NodesMerged(g, runtime, declarative, docker, compose, keys)
    ensures forall n :: n in g.nodes ==> n.networkId == EMPTY || n.networkId in Ids(g.nodes)
    ensures SnapshotsSet(runtime) && SnapshotsSet(declarative) ==> AllLabelsSet(g.nodes)
  {
    if SnapshotsSet(runtime) && SnapshotsSet(declarative) {
      MergedNodesSet(g, runtime, declarative, docker, compose, keys);
    }
    forall n | n in g.nodes ensures n.networkId == EMPTY || n.networkId in Ids(g.nodes) {
      var i :| 0 <= i < |g.nodes| && g.nodes[i] == n;
      assert n == Cleared(MergedNode(docker, compose, keys[i]), Ids(g.nodes));
    }
  }

  /** The news of an update brings everyone to the new graph. */
  lemma NewsKeepsInStep(subscribers: map<nat, Channel>, hasState: bool, prev: Graph, g: Graph)
    requires AllInStep(subscribers, prev) && AllLabelsSet(prev.nodes)
    ensures AllInStep(SendAll(subscribers, News(hasState, prev, g)), g)
  {
    var m := News(hasState, prev, g);
    forall id | id in subscribers ensures InStep(SendAll(subscribers, m)[id], g) {
      if m.None? {
        DiffReplays(prev, g);
      } else {
        SendKeepsInStep(subscribers[id], m.value, prev, g);
      }
    }
  }

  lemma StatsKeepInStep(subscribers: map<nat, Channel>, g: Graph)
    requires AllInStep(subscribers, g)
    ensures AllInStep(SendAll(subscribers, Some(Stats)), g)
  {
    forall id | id in subscribers ensures InStep(Send(subscribers[id], Stats), g) {
      SendKeepsInStep(subscribers[id], Stats, g, g);
    }
  }

  lemma MergedAllIsLinked(g: Graph, snapshots: map<Text, Graph>, sources: map<Text, bool>)
    requires MergesAll(g, snapshots, sources) && SnapshotsSet(snapshots)
    ensures WellLinked(g) && AllLabelsSet(g.nodes)
  {
    MergeIsLinked(g, Of(snapshots, sources, true), Of(snapshots, sources, false));
  }

  lemma FiledIsSet(snapshots: map<Text, Graph>, sources: map<Text, bool>, name: Text, runtime: bool, update: Update)
    requires snapshots.Keys == sources.Keys && SnapshotsSet(snapshots)
    requires update.NewSnapshot? ==> AllLabelsSet(update.graph.nodes)
    ensures SnapshotsAfter(snapshots, name, update).Keys == SourcesAfter(sources, name, runtime, update).Keys
    ensures SnapshotsSet(SnapshotsAfter(snapshots, name, update))
  {
  }

  lemma StoredAfter(snapshots: map<Text, Graph>, sources: map<Text, bool>, name: Text, runtime: bool, update: Update, g: Graph)
    requires snapshots.Keys == sources.Keys && SnapshotsSet(snapshots)
    requires update.NewSnapshot? ==> AllLabelsSet(update.graph.nodes)
    requires var snapshots', sources' := SnapshotsAfter(snapshots, name, update), SourcesAfter(sources, name, runtime, update);
             MergesAll(g, snapshots', sources')
    ensures Stored(SnapshotsAfter(snapshots, name, update), SourcesAfter(sources, name, runtime, update), g)
  {
    var snapshots', sources' := SnapshotsAfter(snapshots, name, update), SourcesAfter(sources, name, runtime, update);
    FiledIsSet(snapshots, sources, name, runtime, update);
    MergedAllIsLinked(g, snapshots', sources');
  }

  lemma SubscribeKeeps(s: State)
    requires Inv(s)
    ensures Inv(Step(s, Subscribed)) && s.nextId + 1 !in s.subscribers
  {
    OpeningInStep(s.merged);
  }

  lemma UpdateKeeps(s: State, name: Text, runtime: bool, update: Update, g: Graph)
    requires Inv(s) && Possible(s, Updated(name, runtime, update, g))
    ensures Inv(Step(s, Updated(name, runtime, update, g)))
  {
    StoredAfter(s.snapshots, s.runtimeSources, name, runtime, update, g);
    NewsKeepsInStep(s.subscribers, s.hasState, s.merged, g);
  }

  lemma StepKeeps(s: State, e: Event)
    requires Inv(s) && Possible(s, e)
    ensures Inv(Step(s, e))
  {
    match e {
      case Subscribed => SubscribeKeeps(s);
      case Unsubscribed(id) =>
      case Received(id) => ReadKeepsInStep(s.subscribers[id], s.merged);
      case Updated(name, runtime, update, g) =>
        UpdateKeeps(s, name, runtime, update, g);
      case StatsSent => StatsKeepInStep(s.subscribers, s.merged);
    }
  }

  // ------------------------------------------------------------ over every run

  function Run(events: seq<Event>): State {
    if events == [] then NEW else Step(Run(events[..|events| - 1]), Last(events))
  }

  ghost predicate Happens(events: seq<Event>) {
    events == [] || (Happens(events[..|events| - 1]) && Possible(Run(events[..|events| - 1]), Last(events)))
  }

  lemma {:induction false} RunKeeps(events: seq<Event>)
    requires Happens(events)
    ensures Inv(Run(events))
  {
    if events != [] {
      RunKeeps(events[..|events| - 1]);
      StepKeeps(Run(events[..|events| - 1]), Last(events));
    }
  }

  /** The subscriber's queue is full when there is news of the graph. */
  predicate Misses(s: State, e: Event, id: nat) {
    && e.Updated? && News(s.hasState, s.merged, e.merged).Some?
    && id in s.subscribers && |s.subscribers[id].queue| >= CAPACITY
  }

  predicate MissesAt(events: seq<Event>, i: nat, id: nat) {
    i < |events| && Misses(Run(events[..i]), events[i], id)
  }

  /** At some point of the run there were 16 messages in the subscriber's queue
      when there was news of the graph. */
  ghost predicate EverMissed(events: seq<Event>, id: nat) {
    exists i :: MissesAt(events, i, id)
  }

  lemma EverMissedMore(events: seq<Event>, e: Event, id: nat)
    ensures EverMissed(events + [e], id) <==> EverMissed(events, id) || Misses(Run(events), e, id)
  {
    var all := events + [e];
    assert all[..|events|] == events && all[|events|] == e;
    forall i: nat | i < |events| ensures MissesAt(all, i, id) <==> MissesAt(events, i, id) {
      assert all[..i] == events[..i];
    }
    if Misses(Run(events), e, id) {
      assert MissesAt(all, |events|, id);
    }
    if EverMissed(events, id) {
      var i :| MissesAt(events, i, id);
      assert MissesAt(all, i, id);
    }
  }

  lemma NothingMissed(id: nat)
    ensures !EverMissed([], id)
  {
  }

  lemma {:induction false} OnlyIssuedMiss(events: seq<Event>, id: nat)
    requires Happens(events) && EverMissed(events, id)
    ensures id <= Run(events).nextId
  {
    NothingMissed(id);
    var init, e := events[..|events| - 1], Last(events);
    assert events == init + [e];
    EverMissedMore(init, e, id);
    RunKeeps(init);
    if EverMissed(init, id) {
      OnlyIssuedMiss(init, id);
    }
  }

  lemma StepBehind(s: State, e: Event, id: nat)
    requires id in Step(s, e).subscribers
    ensures id in s.subscribers ==>
              (Step(s, e).subscribers[id].behind <==> Misses(s, e, id) || (s.subscribers[id].behind && !(e.Subscribed? && id == s.nextId + 1)))
    ensures id !in s.subscribers ==> e.Subscribed? && id == s.nextId + 1 && !Step(s, e).subscribers[id].behind
  {
  }

  /** A subscriber is behind exactly when it ever missed news. */
  lemma {:induction false} BehindExactly(events: seq<Event>, id: nat)
    requires Happens(events) && id in Run(events).subscribers
    ensures Run(events).subscribers[id].behind <==> EverMissed(events, id)
  {
    var init, e := events[..|events| - 1], Last(events);
    assert events == init + [e];
    RunKeeps(init);
    EverMissedMore(init, e, id);
    StepBehind(Run(init), e, id);
    if id in Run(init).subscribers {
      BehindExactly(init, id);
    } else if EverMissed(init, id) {
      OnlyIssuedMiss(init, id);
    }
  }

  /** Over any run of subscriptions, updates, stats and reads, a subscriber whose
      queue never held 16 messages when there was news sees exactly the merged
      graph once it has read what is queued; stats it missed do not matter. */
  lemma SubscribersSeeTheGraph(events: seq<Event>, id: nat)
    requires Happens(events) && id in Run(events).subscribers && !EverMissed(events, id)
    ensures var s := Run(events);
            var c := s.subscribers[id];
            Sees(c) == ViewOf(s.merged) && (c.queue == [] ==> Replay(c.read) == ViewOf(s.merged))
  {
    RunKeeps(events);
    BehindExactly(events, id);
    var s := Run(events);
    assert InStep(s.subscribers[id], s.merged);
    assert s.subscribers[id].queue == [] ==> Sent(s.subscribers[id]) == s.subscribers[id].read;
  }

  lemma ChangedShows(prev: Graph, curr: Graph)
    ensures Changed(Diff(prev, curr)) ==> ViewOf(prev) != ViewOf(curr)
  {
    var p, c := Index(prev.nodes), Index(curr.nodes);
    if p == c {
      assert Graphs.Updated(p, c, NodeEqual) == map[] && Added(p, c) == map[];
    }
  }

  /** An update shows to a subscriber that saw the graph before it exactly when its
      queue has room or there is nothing new to see. */
  lemma UpdateShowsExactly(c: Channel, hasState: bool, prev: Graph, g: Graph)
    requires AllLabelsSet(prev.nodes) && Sees(c) == ViewOf(prev)
    ensures var m := News(hasState, prev, g);
            Sees(if m.None? then c else Send(c, m.value)) == ViewOf(g) <==> |c.queue| < CAPACITY || ViewOf(prev) == ViewOf(g)
  {
    var m := News(hasState, prev, g);
    ChangedShows(prev, g);
    DiffReplays(prev, g);
    if m.Some? && |c.queue| < CAPACITY {
      SentMore(c, m.value);
    }
  }

  // -------------------------------------------------------------- the class

  class Manager {
    var snapshots: map<Text, Graph>
    var runtimeSources: map<Text, bool>
    var merged: Graph
    var hasState: bool
    var subscribers: map<nat, Channel>
    var nextId: nat

    function Now(): State
      reads this
    {
      State(snapshots, runtimeSources, merged, hasState, subscribers, nextId)
    }

    ghost predicate Valid()
      reads this
    {
      Inv(Now())
    }

    constructor ()
      ensures Valid() && Now() == NEW
    {
      snapshots, runtimeSources, merged, hasState := map[], map[], Graph([], []), false;
      subscribers, nextId := map[], 0;
    }

    /** A new subscriber starts with a snapshot, unless the graph has no nodes;
        then it has no edges either, and an empty start is in step with it. */
    method Subscribe() returns (id: nat)
      requires Valid()
      modifies `subscribers, `nextId
      ensures Valid() && Now() == Step(old(Now()), Subscribed)
      ensures id !in old(subscribers) && subscribers == old(subscribers)[id := Opening(merged)]
    {
      ghost var before := Now();
      SubscribeKeeps(before);
      nextId := nextId + 1;
      id := nextId;
      var c := Channel([], [], false);
      if |merged.nodes| > 0 {
        c := c.(queue := [Snapshot(merged)]);
      }
      assert c == Opening(merged);
      subscribers := subscribers[id := c];
      assert Now() == Step(before, Subscribed);
    }

    method Unsubscribe(id: nat)
      requires Valid()
      modifies `subscribers
      ensures Valid() && Now() == Step(old(Now()), Unsubscribed(id))
      ensures subscribers == old(subscribers) - {id}
    {
      subscribers := subscribers - {id};
    }

    /** The subscriber reads its next message. */
    method Receive(id: nat) returns (m: Message)
      requires Valid() && id in subscribers && subscribers[id].queue != []
      modifies `subscribers
      ensures Valid() && Now() == Step(old(Now()), Received(id)) && m == old(subscribers[id].queue[0])
    {
      StepKeeps(Now(), Received(id));
      var c := subscribers[id];
      m := c.queue[0];
      subscribers := subscribers[id := Channel(c.read + [m], c.queue[1..], c.behind)];
    }

    /** `HandleUpdate`: whatever the update changes, every subscriber that has
        missed no news still sees exactly the merged graph. */
    method HandleUpdate(name: Text, runtime: bool, update: Update)
      requires Valid() && (update.NewSnapshot? ==> AllLabelsSet(update.graph.nodes))
      modifies this
      ensures Valid() && Possible(old(Now()), Updated(name, runtime, update, merged))
      ensures Now() == Step(old(Now()), Updated(name, runtime, update, merged))
      ensures MergesAll(merged, snapshots, runtimeSources)
    {
      ghost var before := Now();
      var prev := merged;
      Store(name, runtime, update);
      ghost var g := merged;
      assert Possible(before, Updated(name, runtime, update, g));
      UpdateKeeps(before, name, runtime, update, g);
      Publish(prev);
      assert Now() == Step(before, Updated(name, runtime, update, g));
    }

    /** Keeps the new snapshot with its kind of source, and merges all of them again. */
    method Store(name: Text, runtime: bool, update: Update)
      requires Stored(snapshots, runtimeSources, merged) && (update.NewSnapshot? ==> AllLabelsSet(update.graph.nodes))
      modifies `snapshots, `runtimeSources, `merged
      ensures Stored(snapshots, runtimeSources, merged)
      ensures snapshots == SnapshotsAfter(old(snapshots), name, update)
      ensures runtimeSources == SourcesAfter(old(runtimeSources), name, runtime, update)
      ensures MergesAll(merged, snapshots, runtimeSources)
    {
      FiledIsSet(snapshots, runtimeSources, name, runtime, update);
      if update.NewSnapshot? {
        snapshots, runtimeSources := snapshots[name := update.graph], runtimeSources[name := runtime];
      }
      merged := MergeAll(snapshots, runtimeSources);
    }

    /** Announces the merged graph: in full the first time, then what changed. */
    method Publish(prev: Graph)
      modifies `hasState, `subscribers
      ensures hasState && subscribers == SendAll(old(subscribers), News(old(hasState), prev, merged))
    {
      if !hasState {
        hasState := true;
        Broadcast(Snapshot(merged));
      } else {
        var delta, changed := DiffSnapshots(prev, merged);
        if changed {
          Broadcast(Change(delta));
        }
      }
    }

    method HandleStats()
      requires Valid()
      modifies `subscribers
      ensures Valid() && Now() == Step(old(Now()), StatsSent)
    {
      StepKeeps(Now(), StatsSent);
      Broadcast(Stats);
    }

    /** The loop over the subscribers: a full channel misses the message. */
    method Broadcast(m: Message)
      modifies `subscribers
      ensures subscribers == SendAll(old(subscribers), Some(m))
    {
      var todo := subscribers.Keys;
      while todo != {}
        invariant todo <= subscribers.Keys == old(subscribers.Keys)
        invariant forall id :: id in subscribers && id in todo ==> subscribers[id] == old(subscribers[id])
        invariant forall id :: id in subscribers && id !in todo ==> subscribers[id] == Send(old(subscribers[id]), m)
        decreases |todo|
      {
        var id :| id in todo;
        var c := subscribers[id];
        if |c.queue| < CAPACITY {
          c := c.(queue := c.queue + [m]);
        } else {
          c := c.(behind := c.behind || !m.Stats?);
        }
        subscribers := subscribers[id := c];
        todo := todo - {id};
      }
    }
  }
}

/** The hierarchy handed to the layout engine (frontend/src/layout/elkGraph.ts). */
module ElkGraph {
  import opened Common
  import opened Components
  import opened Reordering

  /** A node of the view; a node without a parent has an empty one. */
  datatype Node = Node(id: Id, group: bool, parent: Id)

  datatype RFEdge = RFEdge(id: nat, source: Id, target: Id)

  /** A top-level element. A group lists the nodes inside it (for a group with
      none the code adds a placeholder) and the edges attached to it. */
  datatype Child = Child(id: Id, group: bool, inner: seq<Id>, edges: seq<RFEdge>)

  /** A child of the root: a lone element, or a component with its edges. */
  datatype Wrapped = Alone(child: Child) | Component(name: Id, children: seq<Child>, edges: seq<RFEdge>)

  /** What the functions below are given. */
  datatype Input = Input(nodes: map<Id, Node>, children: seq<Node>, edges: seq<RFEdge>, parent: map<Id, Id>)

  function Keep<T>(s: seq<T>, p: T -> bool): seq<T> {
    if s == [] then [] else if p(Last(s)) then Keep(Init(s), p) + [Last(s)] else Keep(Init(s), p)
  }

  lemma {:induction false} KeepCount<T>(s: seq<T>, p: T -> bool, x: T)
    ensures multiset(Keep(s, p))[x] == if p(x) then multiset(s)[x] else 0
  {
    if s != [] {
      KeepCount(Init(s), p, x);
      assert s == Init(s) + [Last(s)];
    }
  }

  lemma {:induction false} KeepConcat<T>(a: seq<T>, b: seq<T>, p: T -> bool)
    ensures Keep(a + b, p) == Keep(a, p) + Keep(b, p)
  {
    if b == [] {
      assert a + b == a;
    } else {
      KeepConcat(a, Init(b), p);
      InitMore(a + Init(b), Last(b));
      assert a + b == a + Init(b) + [Last(b)];
    }
  }

  lemma {:induction false} KeepAgain<T(!new)>(s: seq<T>, q: T -> bool, p: T -> bool)
    ensures (forall x :: q(x) ==> p(x)) ==> Keep(Keep(s, q), p) == Keep(s, q)
    ensures (forall x :: q(x) ==> !p(x)) ==> Keep(Keep(s, q), p) == []
  {
    if s != [] {
      KeepAgain(Init(s), q, p);
      if q(Last(s)) {
        InitMore(Keep(Init(s), q), Last(s));
      }
    }
  }

  // --------------------------------------------------------- classification

  function Groups(nodes: seq<Node>): seq<Node> { Keep(nodes, (n: Node) => n.group) }

  function Parented(nodes: seq<Node>): seq<Node> { Keep(nodes, (n: Node) => n.parent != Empty) }

  function Free(nodes: seq<Node>): seq<Node> { Keep(nodes, (n: Node) => !n.group && n.parent == Empty) }

  function Ids(nodes: seq<Node>): seq<Id> {
    if nodes == [] then [] else Ids(Init(nodes)) + [Last(nodes).id]
  }

  function TopIds(nodes: seq<Node>): seq<Id> {
    Ids(Groups(nodes)) + Ids(Free(nodes))
  }

  function ParentMap(children: seq<Node>): map<Id, Id> {
    if children == [] then map[] else ParentMap(Init(children))[Last(children).id := Last(children).parent]
  }

  function NodeMap(nodes: seq<Node>): map<Id, Node> {
    if nodes == [] then map[] else NodeMap(Init(nodes))[Last(nodes).id := Last(nodes)]
  }

  // ------------------------------------------------------------- where to

  function TopEnd(parent: map<Id, Id>, id: Id): Id {
    if id in parent then parent[id] else id
  }

  predicate Within(i: Input, c: seq<Id>, e: RFEdge) {
    TopEnd(i.parent, e.source) in c && TopEnd(i.parent, e.target) in c
  }

  /** Both ends are in the same group. */
  predicate Internal(i: Input, e: RFEdge) {
    e.source in i.parent && e.target in i.parent
    && i.parent[e.source] != Empty && i.parent[e.source] == i.parent[e.target]
  }

  predicate InternalTo(i: Input, g: Id, e: RFEdge) {
    Internal(i, e) && i.parent[e.source] == g
  }

  predicate AtRoot(i: Input, c: seq<Id>, e: RFEdge) {
    Within(i, c, e) && !Internal(i, e)
  }

  function GroupEdges(i: Input, g: Id, es: seq<RFEdge>): seq<RFEdge> {
    Keep(es, (e: RFEdge) => InternalTo(i, g, e))
  }

  function RootEdges(i: Input, c: seq<Id>, es: seq<RFEdge>): seq<RFEdge> {
    Keep(es, (e: RFEdge) => AtRoot(i, c, e))
  }

  /** The element without its edges. */
  function Bare(i: Input, id: Id): Child
    requires id in i.nodes
  {
    if i.nodes[id].group then Child(id, true, Ids(Keep(i.children, (n: Node) => n.parent == id)), [])
    else Child(id, false, [], [])
  }

  function Element(i: Input, id: Id): Child
    requires id in i.nodes
  {
    Bare(i, id).(edges := GroupEdges(i, id, i.edges))
  }

  function BareElements(i: Input, ids: seq<Id>): seq<Child> {
    if ids == [] then []
    else if Last(ids) in i.nodes then BareElements(i, Init(ids)) + [Bare(i, Last(ids))]
    else BareElements(i, Init(ids))
  }

  function ElementsOf(i: Input, ids: seq<Id>): seq<Child> {
    if ids == [] then []
    else if Last(ids) in i.nodes then ElementsOf(i, Init(ids)) + [Element(i, Last(ids))]
    else ElementsOf(i, Init(ids))
  }

  /** All components' IDs, and their root edges, one component after another. */
  function Flat(cs: seq<seq<Id>>): seq<Id> {
    if cs == [] then [] else Flat(Init(cs)) + Last(cs)
  }

  function AllRootEdges(i: Input, cs: seq<seq<Id>>): seq<RFEdge> {
    if cs == [] then [] else AllRootEdges(i, Init(cs)) + RootEdges(i, Last(cs), i.edges)
  }

  function Wrap(i: Input, c: seq<Id>): Wrapped
    requires c != []
  {
    var children, edges := ElementsOf(i, c), RootEdges(i, c, i.edges);
    if |children| == 1 && |edges| == 0 then Alone(children[0]) else Component(c[0], children, edges)
  }

  predicate NoneEmpty(cs: seq<seq<Id>>) {
    cs == [] || (Last(cs) != [] && NoneEmpty(Init(cs)))
  }

  function WrapAll(i: Input, cs: seq<seq<Id>>): seq<Wrapped>
    requires NoneEmpty(cs)
  {
    if cs == [] then [] else WrapAll(i, Init(cs)) + [Wrap(i, Last(cs))]
  }

  /** No two components have an ID in common, and none has one twice. */
  predicate Disjoint(cs: seq<seq<Id>>) {
    cs == [] || (Disjoint(Init(cs)) && Components.Distinct(Last(cs)) && Outside(Last(cs), Members(Init(cs))))
  }

  // ---------------------------------------------------------- buildElkChildren

  /** The edges attached to the groups so far. */
  function EdgesAt(m: map<Id, seq<RFEdge>>, g: Id): seq<RFEdge> {
    if g in m then m[g] else []
  }

  /** The map of group edges after the edges `es`, for the component `c`. */
  ghost predicate GroupMap(i: Input, c: seq<Id>, es: seq<RFEdge>, m: map<Id, seq<RFEdge>>) {
    (forall g :: g in c ==> EdgesAt(m, g) == GroupEdges(i, g, es)) && (forall g :: g in m ==> g in c && m[g] != [])
  }

  lemma OneMoreEdge(i: Input, c: seq<Id>, es: seq<RFEdge>, e: RFEdge, m: map<Id, seq<RFEdge>>)
    requires GroupMap(i, c, es, m)
    ensures !Internal(i, e) ==> GroupMap(i, c, es + [e], m)
    ensures Internal(i, e) && !Within(i, c, e) ==> GroupMap(i, c, es + [e], m)
    ensures Internal(i, e) && Within(i, c, e) ==>
              var g := i.parent[e.source]; GroupMap(i, c, es + [e], m[g := EdgesAt(m, g) + [e]])
  {
    forall g
      ensures GroupEdges(i, g, es + [e]) == GroupEdges(i, g, es) + if InternalTo(i, g, e) then [e] else []
    {
      InitMore(es, e);
    }
  }

  /** The loop that splits the edges of a component. */
  method SplitEdges(i: Input, c: seq<Id>, rootEdges: seq<RFEdge>) returns (root: seq<RFEdge>, m: map<Id, seq<RFEdge>>)
    ensures root == rootEdges + RootEdges(i, c, i.edges) && GroupMap(i, c, i.edges, m)
  {
    root, m := rootEdges, map[];
    for k := 0 to |i.edges|
      invariant root == rootEdges + RootEdges(i, c, i.edges[..k])
      invariant GroupMap(i, c, i.edges[..k], m)
    {
      var e := i.edges[k];
      InitMore(i.edges[..k], e);
      assert i.edges[..k + 1] == i.edges[..k] + [e];
      OneMoreEdge(i, c, i.edges[..k], e, m);
      var s := if e.source in i.parent then i.parent[e.source] else e.source;
      var t := if e.target in i.parent then i.parent[e.target] else e.target;
      if s !in c || t !in c {
        continue;
      }
      if e.source in i.parent && e.target in i.parent && i.parent[e.source] != Empty && i.parent[e.source] == i.parent[e.target] {
        var g := i.parent[e.source];
        m := m[g := EdgesAt(m, g) + [e]];
      } else {
        root := root + [e];
      }
    }
    assert i.edges[..|i.edges|] == i.edges;
  }

  function AttachOne(child: Child, m: map<Id, seq<RFEdge>>): Child {
    if child.id in m then child.(edges := m[child.id]) else child
  }

  /** The children with the edges of `m` attached. */
  function Attach(children: seq<Child>, m: map<Id, seq<RFEdge>>): seq<Child> {
    if children == [] then [] else Attach(Init(children), m) + [AttachOne(Last(children), m)]
  }

  lemma {:induction false} AttachedOneByOne(children: seq<Child>, m: map<Id, seq<RFEdge>>, r: seq<Child>)
    requires |r| == |children| && forall k :: 0 <= k < |r| ==> r[k] == AttachOne(children[k], m)
    ensures r == Attach(children, m)
  {
    if children != [] {
      AttachedOneByOne(Init(children), m, Init(r));
      assert r == Init(r) + [Last(r)];
    }
  }

  /** The loop that attaches the edges in place. */
  method AttachEdges(children: seq<Child>, m: map<Id, seq<RFEdge>>) returns (r: seq<Child>)
    ensures r == Attach(children, m)
  {
    r := children;
    for k := 0 to |children|
      invariant |r| == |children|
      invariant forall j :: 0 <= j < k ==> r[j] == AttachOne(children[j], m)
      invariant forall j :: k <= j < |r| ==> r[j] == children[j]
    {
      if r[k].id in m {
        r := r[k := r[k].(edges := m[r[k].id])];
      }
    }
    AttachedOneByOne(children, m, r);
  }

  lemma {:induction false} AttachConcat(a: seq<Child>, b: seq<Child>, m: map<Id, seq<RFEdge>>)
    ensures Attach(a + b, m) == Attach(a, m) + Attach(b, m)
  {
    if b == [] {
      assert a + b == a;
    } else {
      AttachConcat(a, Init(b), m);
      InitMore(a + Init(b), Last(b));
      assert a + b == a + Init(b) + [Last(b)];
    }
  }

  /** Earlier components keep their edges: none of their IDs is in the map. */
  lemma {:induction false} AttachOthers(i: Input, ids: seq<Id>, m: map<Id, seq<RFEdge>>)
    requires forall id :: id in ids ==> id !in m
    ensures Attach(ElementsOf(i, ids), m) == ElementsOf(i, ids)
  {
    if ids != [] {
      AttachOthers(i, Init(ids), m);
      if Last(ids) in i.nodes {
        InitMore(ElementsOf(i, Init(ids)), Element(i, Last(ids)));
      }
    }
  }

  lemma {:induction false} AttachOwn(i: Input, c: seq<Id>, ids: seq<Id>, m: map<Id, seq<RFEdge>>)
    requires GroupMap(i, c, i.edges, m) && forall id :: id in ids ==> id in c
    ensures Attach(BareElements(i, ids), m) == ElementsOf(i, ids)
  {
    if ids != [] {
      AttachOwn(i, c, Init(ids), m);
      assert Last(ids) in ids;
      if Last(ids) in i.nodes {
        InitMore(BareElements(i, Init(ids)), Bare(i, Last(ids)));
      }
    }
  }

  lemma {:induction false} ElementsConcat(i: Input, a: seq<Id>, b: seq<Id>)
    ensures ElementsOf(i, a + b) == ElementsOf(i, a) + ElementsOf(i, b)
  {
    if b == [] {
      assert a + b == a;
    } else {
      ElementsConcat(i, a, Init(b));
      InitMore(a + Init(b), Last(b));
      assert a + b == a + Init(b) + [Last(b)];
    }
  }

  lemma {:induction false} FlatMembers(cs: seq<seq<Id>>, id: Id)
    ensures id in Flat(cs) <==> id in Members(cs)
  {
    if cs != [] {
      FlatMembers(Init(cs), id);
    }
  }

  lemma BareMore(i: Input, ids: seq<Id>, id: Id)
    ensures BareElements(i, ids + [id]) == BareElements(i, ids) + if id in i.nodes then [Bare(i, id)] else []
  {
    InitMore(ids, id);
  }

  /** The loop over the elements of a component. */
  method AddElements(i: Input, c: seq<Id>, before: seq<Child>) returns (children: seq<Child>)
    ensures children == before + BareElements(i, c)
  {
    children := before;
    ghost var own: seq<Child> := [];
    for k := 0 to |c|
      invariant own == BareElements(i, c[..k]) && children == before + own
    {
      var id := c[k];
      BareMore(i, c[..k], id);
      assert c[..k + 1] == c[..k] + [id];
      if id !in i.nodes {
        continue;
      }
      var child;
      if i.nodes[id].group {
        child := Child(id, true, Ids(Keep(i.children, (n: Node) => n.parent == id)), []);
      } else {
        child := Child(id, false, [], []);
      }
      own := own + [Bare(i, id)];
      children := children + [child];
    }
    assert c[..|c|] == c;
  }

  lemma ComponentDone(i: Input, before: seq<Id>, c: seq<Id>, m: map<Id, seq<RFEdge>>)
    requires GroupMap(i, c, i.edges, m) && forall id :: id in c ==> id !in before
    ensures Attach(ElementsOf(i, before) + BareElements(i, c), m) == ElementsOf(i, before + c)
  {
    AttachConcat(ElementsOf(i, before), BareElements(i, c), m);
    AttachOthers(i, before, m);
    AttachOwn(i, c, c, m);
    ElementsConcat(i, before, c);
  }

  /** `buildElkChildren`. */
  method BuildElkChildren(cs: seq<seq<Id>>, i: Input) returns (children: seq<Child>, root: seq<RFEdge>)
    requires Disjoint(cs)
    ensures children == ElementsOf(i, Flat(cs)) && root == AllRootEdges(i, cs)
  {
    children, root := [], [];
    for k := 0 to |cs|
      invariant children == ElementsOf(i, Flat(cs[..k])) && root == AllRootEdges(i, cs[..k])
    {
      var c := cs[k];
      InitMore(cs[..k], c);
      assert cs[..k + 1] == cs[..k] + [c];
      OutsideEarlier(cs, k);
      var bare := AddElements(i, c, children);
      var m;
      root, m := SplitEdges(i, c, root);
      ComponentDone(i, Flat(cs[..k]), c, m);
      children := AttachEdges(bare, m);
    }
    assert cs[..|cs|] == cs;
  }

  lemma {:induction false} OutsideEarlier(cs: seq<seq<Id>>, k: nat)
    requires Disjoint(cs) && k < |cs|
    ensures forall id :: id in cs[k] ==> id !in Flat(cs[..k])
  {
    if k < |cs| - 1 {
      OutsideEarlier(Init(cs), k);
      assert Init(cs)[..k] == cs[..k];
    } else {
      forall id | id in cs[k] ensures id !in Flat(cs[..k]) { FlatMembers(Init(cs), id); }
    }
  }

  // ------------------------------------------------------------ wrapComponents

  lemma {:induction false} KeepElements(i: Input, ids: seq<Id>, c: seq<Id>, p: Child -> bool)
    requires forall child :: p(child) <==> child.id in c
    ensures (forall id :: id in ids ==> id in c) ==> Keep(ElementsOf(i, ids), p) == ElementsOf(i, ids)
    ensures (forall id :: id in ids ==> id !in c) ==> Keep(ElementsOf(i, ids), p) == []
  {
    if ids != [] {
      KeepElements(i, Init(ids), c, p);
      assert Last(ids) in ids;
      if Last(ids) in i.nodes {
        InitMore(ElementsOf(i, Init(ids)), Element(i, Last(ids)));
      }
    }
  }

  lemma KeepRootEdges(i: Input, c: seq<Id>, d: seq<Id>, p: RFEdge -> bool)
    requires forall e :: p(e) <==> Within(i, c, e)
    ensures c == d ==> Keep(RootEdges(i, d, i.edges), p) == RootEdges(i, d, i.edges)
    ensures (forall id :: id in d ==> id !in c) ==> Keep(RootEdges(i, d, i.edges), p) == []
  {
    KeepAgain(i.edges, (e: RFEdge) => AtRoot(i, d, e), p);
  }

  /** Of all elements a component picks its own. */
  lemma {:induction false} PickElements(i: Input, cs: seq<seq<Id>>, c: seq<Id>, p: Child -> bool)
    requires Disjoint(cs) && forall child :: p(child) <==> child.id in c
    ensures Outside(c, Members(cs)) ==> Keep(ElementsOf(i, Flat(cs)), p) == []
    ensures c in cs ==> Keep(ElementsOf(i, Flat(cs)), p) == ElementsOf(i, c)
  {
    if cs != [] {
      var init, d := Init(cs), Last(cs);
      PickElements(i, init, c, p);
      ElementsConcat(i, Flat(init), d);
      KeepConcat(ElementsOf(i, Flat(init)), ElementsOf(i, d), p);
      KeepElements(i, d, c, p);
      InLastOrBefore(cs, c);
    }
  }

  /** And of all root edges. */
  lemma {:induction false} PickEdges(i: Input, cs: seq<seq<Id>>, c: seq<Id>, q: RFEdge -> bool)
    requires Disjoint(cs) && forall e :: q(e) <==> Within(i, c, e)
    ensures Outside(c, Members(cs)) ==> Keep(AllRootEdges(i, cs), q) == []
    ensures c in cs ==> Keep(AllRootEdges(i, cs), q) == RootEdges(i, c, i.edges)
  {
    if cs != [] {
      var init, d := Init(cs), Last(cs);
      PickEdges(i, init, c, q);
      KeepConcat(AllRootEdges(i, init), RootEdges(i, d, i.edges), q);
      KeepRootEdges(i, c, d, q);
      InLastOrBefore(cs, c);
    }
  }

  lemma InLastOrBefore(cs: seq<seq<Id>>, c: seq<Id>)
    requires Disjoint(cs) && cs != []
    ensures c in cs ==> c == Last(cs) || c in Init(cs)
    ensures c in Init(cs) ==> forall id :: id in Last(cs) ==> id !in c
    ensures c == Last(cs) ==> Outside(c, Members(Init(cs)))
    ensures Outside(c, Members(cs)) ==> Outside(c, Members(Init(cs))) && forall id :: id in Last(cs) ==> id !in c
  {
    assert cs == Init(cs) + [Last(cs)];
    if c in Init(cs) {
      InSome(Init(cs), c);
    }
  }

  lemma {:induction false} InSome(cs: seq<seq<Id>>, c: seq<Id>)
    requires c in cs
    ensures forall id :: id in c ==> id in Members(cs)
  {
    if c != Last(cs) {
      assert cs == Init(cs) + [Last(cs)];
      InSome(Init(cs), c);
    }
  }

  /** One component of the loop. */
  method WrapOne(cs: seq<seq<Id>>, c: seq<Id>, i: Input, children: seq<Child>, root: seq<RFEdge>) returns (w: Wrapped)
    requires Disjoint(cs) && c in cs && c != []
    requires children == ElementsOf(i, Flat(cs)) && root == AllRootEdges(i, cs)
    ensures w == Wrap(i, c)
  {
    var p, q := (child: Child) => child.id in c, (e: RFEdge) => Within(i, c, e);
    PickElements(i, cs, c, p);
    PickEdges(i, cs, c, q);
    var compChildren, compEdges := Keep(children, p), Keep(root, q);
    if |compChildren| == 1 && |compEdges| == 0 {
      w := Alone(compChildren[0]);
    } else {
      w := Component(c[0], compChildren, compEdges);
    }
  }

  /** `wrapComponents`. */
  method WrapComponents(cs: seq<seq<Id>>, i: Input, children: seq<Child>, root: seq<RFEdge>) returns (r: seq<Wrapped>)
    requires Disjoint(cs) && NoneEmpty(cs)
    requires children == ElementsOf(i, Flat(cs)) && root == AllRootEdges(i, cs)
    ensures r == WrapAll(i, cs)
  {
    r := [];
    for k := 0 to |cs|
      invariant NoneEmpty(cs[..k]) && r == WrapAll(i, cs[..k])
    {
      InitMore(cs[..k], cs[k]);
      assert cs[..k + 1] == cs[..k] + [cs[k]];
      NotEmptyAt(cs, k);
      var w := WrapOne(cs, cs[k], i, children, root);
      r := r + [w];
    }
    assert cs[..|cs|] == cs;
  }

  lemma {:induction false} NotEmptyAt(cs: seq<seq<Id>>, k: nat)
    requires NoneEmpty(cs) && k < |cs|
    ensures cs[k] != []
  {
    if k < |cs| - 1 {
      NotEmptyAt(Init(cs), k);
    }
  }

  // ------------------------------------------------------------ exactly once

  function ChildrenOf(w: Wrapped): seq<Child> {
    match w
    case Alone(child) => [child]
    case Component(_, children, _) => children
  }

  function ChildEdges(child: Child): multiset<RFEdge> { multiset(child.edges) }

  function ChildId(child: Child): multiset<Id> { multiset{child.id} }

  /** The edges and the elements of one child of the root. */
  function EdgesOf(w: Wrapped): multiset<RFEdge> {
    Union(ChildrenOf(w), ChildEdges) + if w.Component? then multiset(w.edges) else multiset{}
  }

  function IdsOf(w: Wrapped): multiset<Id> {
    Union(ChildrenOf(w), ChildId)
  }

  lemma ElementEdges(i: Input, id: Id, e: RFEdge)
    requires id in i.nodes
    ensures ChildEdges(Element(i, id))[e] == if InternalTo(i, id, e) then multiset(i.edges)[e] else 0
  {
    KeepCount(i.edges, (x: RFEdge) => InternalTo(i, id, x), e);
  }

  /** The edge is internal to one of the elements. */
  predicate InternalToOne(i: Input, ids: seq<Id>, e: RFEdge) {
    Internal(i, e) && i.parent[e.source] in ids && i.parent[e.source] in i.nodes
  }

  lemma OneMoreId(i: Input, ids: seq<Id>, id: Id, e: RFEdge)
    ensures InternalToOne(i, ids + [id], e) <==> InternalToOne(i, ids, e) || (id in i.nodes && InternalTo(i, id, e))
  {
  }

  lemma {:induction false} ElementsEdges(i: Input, ids: seq<Id>, e: RFEdge)
    requires Components.Distinct(ids)
    ensures Union(ElementsOf(i, ids), ChildEdges)[e] == if InternalToOne(i, ids, e) then multiset(i.edges)[e] else 0
  {
    if ids != [] {
      var init, id := Init(ids), Last(ids);
      ElementsEdges(i, init, e);
      OneMoreId(i, init, id, e);
      assert ids == init + [id];
      if id in i.nodes {
        UnionMore(ElementsOf(i, init), Element(i, id), ChildEdges);
        ElementEdges(i, id, e);
        assert !(InternalToOne(i, init, e) && InternalTo(i, id, e));
      }
    }
  }

  lemma {:induction false} ElementsIds(i: Input, ids: seq<Id>, id: Id)
    requires Components.Distinct(ids)
    ensures Union(ElementsOf(i, ids), ChildId)[id] == if id in ids && id in i.nodes then 1 else 0
  {
    if ids != [] {
      var init, last := Init(ids), Last(ids);
      ElementsIds(i, init, id);
      LastOrInit(ids, id);
      if last in i.nodes {
        UnionMore(ElementsOf(i, init), Element(i, last), ChildId);
        assert ChildId(Element(i, last)) == multiset{last};
      }
    }
  }

  lemma LastOrInit(ids: seq<Id>, id: Id)
    requires ids != []
    ensures id in ids <==> id in Init(ids) || id == Last(ids)
  {
    assert ids == Init(ids) + [Last(ids)];
  }

  lemma WrapChildren(i: Input, c: seq<Id>)
    requires c != []
    ensures ChildrenOf(Wrap(i, c)) == ElementsOf(i, c)
    ensures EdgesOf(Wrap(i, c)) == Union(ElementsOf(i, c), ChildEdges) + multiset(RootEdges(i, c, i.edges))
  {
    var children := ElementsOf(i, c);
    assert |children| == 1 ==> children == [children[0]];
  }

  /** The edge's group, if it has one, is an element. */
  predicate GroupKnown(i: Input, e: RFEdge) {
    Internal(i, e) ==> i.parent[e.source] in i.nodes
  }

  lemma WrapEdges(i: Input, c: seq<Id>, e: RFEdge)
    requires c != [] && Components.Distinct(c)
    ensures EdgesOf(Wrap(i, c))[e] == if Within(i, c, e) && GroupKnown(i, e) then multiset(i.edges)[e] else 0
  {
    WrapChildren(i, c);
    ElementsEdges(i, c, e);
    KeepCount(i.edges, (x: RFEdge) => AtRoot(i, c, x), e);
  }

  /** One component holds both ends of the edge. */
  predicate Together(i: Input, cs: seq<seq<Id>>, e: RFEdge) {
    cs != [] && (Within(i, Last(cs), e) || Together(i, Init(cs), e))
  }

  lemma {:induction false} TogetherIsIn(i: Input, cs: seq<seq<Id>>, e: RFEdge)
    requires Together(i, cs, e)
    ensures TopEnd(i.parent, e.source) in Members(cs)
  {
    if !Within(i, Last(cs), e) {
      TogetherIsIn(i, Init(cs), e);
    }
  }

  /** An edge with both ends in one component is in the graph exactly as often as
      in the input, unless it is inside a group that is absent, and no other edge
      is. */
  lemma {:induction false} EdgesOnce(i: Input, cs: seq<seq<Id>>, e: RFEdge)
    requires Disjoint(cs) && NoneEmpty(cs)
    ensures Union(WrapAll(i, cs), EdgesOf)[e] == if Together(i, cs, e) && GroupKnown(i, e) then multiset(i.edges)[e] else 0
  {
    if cs != [] {
      EdgesOnce(i, Init(cs), e);
      UnionMore(WrapAll(i, Init(cs)), Wrap(i, Last(cs)), EdgesOf);
      WrapEdges(i, Last(cs), e);
      if Together(i, Init(cs), e) {
        TogetherIsIn(i, Init(cs), e);
      }
    }
  }

  lemma {:induction false} ElementsOnce(i: Input, cs: seq<seq<Id>>, id: Id)
    requires Disjoint(cs) && NoneEmpty(cs)
    ensures Union(WrapAll(i, cs), IdsOf)[id] == if id in Members(cs) && id in i.nodes then 1 else 0
  {
    if cs != [] {
      ElementsOnce(i, Init(cs), id);
      UnionMore(WrapAll(i, Init(cs)), Wrap(i, Last(cs)), IdsOf);
      WrapChildren(i, Last(cs));
      ElementsIds(i, Last(cs), id);
    }
  }

  // ------------------------------------------------------------- the pipeline

  function Plain(edges: seq<RFEdge>): seq<Edge> {
    if edges == [] then [] else Plain(Init(edges)) + [Edge(Last(edges).source, Last(edges).target)]
  }

  lemma {:induction false} PlainHas(edges: seq<RFEdge>, e: RFEdge)
    requires e in edges
    ensures Edge(e.source, e.target) in Plain(edges)
  {
    assert edges == Init(edges) + [Last(edges)];
    if e != Last(edges) {
      PlainHas(Init(edges), e);
    }
  }

  lemma {:induction false} PartitionIsDisjoint(g: Graph, cs: seq<seq<Id>>)
    requires Partition(g, cs)
    ensures Disjoint(cs) && NoneEmpty(cs)
  {
    if cs != [] {
      PartitionIsDisjoint(g, Init(cs));
    }
  }

  lemma {:induction false} TogetherAt(i: Input, cs: seq<seq<Id>>, k: nat, e: RFEdge)
    requires k < |cs| && Within(i, cs[k], e)
    ensures Together(i, cs, e)
  {
    if k < |cs| - 1 {
      TogetherAt(i, Init(cs), k, e);
    }
  }

  lemma {:induction false} KeptIds(nodes: seq<Node>, p: Node -> bool, id: Id)
    requires id in Ids(Keep(nodes, p))
    ensures id in NodeMap(nodes)
  {
    if p(Last(nodes)) && id == Last(nodes).id {
    } else {
      KeptIds(Init(nodes), p, id);
    }
  }

  lemma TopIsNode(nodes: seq<Node>, id: Id)
    requires id in TopIds(nodes)
    ensures id in NodeMap(nodes)
  {
    if id in Ids(Groups(nodes)) {
      KeptIds(nodes, (n: Node) => n.group, id);
    } else {
      KeptIds(nodes, (n: Node) => !n.group && n.parent == Empty, id);
    }
  }

  function InputOf(nodes: seq<Node>, edges: seq<RFEdge>): Input {
    Input(NodeMap(nodes), Parented(nodes), edges, ParentMap(Parented(nodes)))
  }

  /** Both ends of the edge resolve to top-level elements. */
  predicate Resolves(nodes: seq<Node>, e: RFEdge) {
    var parent := ParentMap(Parented(nodes));
    var s, t := TopEnd(parent, e.source), TopEnd(parent, e.target);
    s != Empty && t != Empty && s in TopIds(nodes) && t in TopIds(nodes)
  }

  ghost predicate FoundFor(nodes: seq<Node>, edges: seq<RFEdge>, cs: seq<seq<Id>>) {
    Partition(GraphOf(TopIds(nodes), Plain(edges), ParentMap(Parented(nodes))), cs)
    && forall id :: id in TopIds(nodes) ==> id in Members(cs)
  }

  lemma LinkedEnds(topIds: seq<Id>, edges: seq<RFEdge>, parent: map<Id, Id>, e: RFEdge, s: Id, t: Id)
    requires e in edges && s == TopEnd(parent, e.source) && t == TopEnd(parent, e.target)
    requires s != Empty && t != Empty && s != t && s in topIds && t in topIds
    ensures Adjacent(GraphOf(topIds, Plain(edges), parent), s, t)
  {
    PlainHas(edges, e);
    assert Links(GraphOf(topIds, Plain(edges), parent), Edge(e.source, e.target), s, t);
  }

  lemma SameComponent(g: Graph, cs: seq<seq<Id>>, s: Id, t: Id) returns (k: nat)
    requires Partition(g, cs) && s in Members(cs) && s in g.tops && t in g.tops && (s == t || Adjacent(g, s, t))
    ensures k < |cs| && s in cs[k] && t in cs[k]
  {
    k := MemberIsIn(g, cs, s);
  }

  lemma ResolvedTogether(nodes: seq<Node>, edges: seq<RFEdge>, cs: seq<seq<Id>>, e: RFEdge)
    requires FoundFor(nodes, edges, cs) && Resolves(nodes, e) && e in edges
    ensures Together(InputOf(nodes, edges), cs, e)
  {
    var i := InputOf(nodes, edges);
    var s, t := TopEnd(i.parent, e.source), TopEnd(i.parent, e.target);
    if s != t {
      LinkedEnds(TopIds(nodes), edges, i.parent, e, s, t);
    }
    var k := SameComponent(GraphOf(TopIds(nodes), Plain(edges), i.parent), cs, s, t);
    TogetherAt(i, cs, k, e);
  }

  /** Every edge between top-level elements, or inside them, is in the graph
      exactly as often as in the view: inside its group or inside the wrapper of
      its component. Every top-level element is there exactly once. */
  lemma GraphIsComplete(nodes: seq<Node>, edges: seq<RFEdge>, cs: seq<seq<Id>>, e: RFEdge, id: Id)
    requires FoundFor(nodes, edges, cs)
    ensures NoneEmpty(cs)
    ensures Resolves(nodes, e) ==> Union(WrapAll(InputOf(nodes, edges), cs), EdgesOf)[e] == multiset(edges)[e]
    ensures id in TopIds(nodes) ==> Union(WrapAll(InputOf(nodes, edges), cs), IdsOf)[id] == 1
  {
    var i := InputOf(nodes, edges);
    PartitionIsDisjoint(GraphOf(TopIds(nodes), Plain(edges), i.parent), cs);
    if Resolves(nodes, e) {
      TopIsNode(nodes, TopEnd(i.parent, e.source));
      EdgesOnce(i, cs, e);
      if e in edges {
        ResolvedTogether(nodes, edges, cs, e);
      }
    }
    if id in TopIds(nodes) {
      TopIsNode(nodes, id);
      ElementsOnce(i, cs, id);
    }
  }

  // ------------------------------------------------------ where nodes are

  ghost predicate DistinctIds(nodes: seq<Node>) {
    forall j, k :: 0 <= j < k < |nodes| ==> nodes[j].id != nodes[k].id
  }

  /** Some node with this ID satisfies `p`. */
  ghost predicate SomeNode(nodes: seq<Node>, id: Id, p: Node -> bool) {
    exists n :: n in nodes && n.id == id && p(n)
  }

  lemma {:induction false} KeptExactly(nodes: seq<Node>, p: Node -> bool, id: Id)
    ensures id in Ids(Keep(nodes, p)) <==> SomeNode(nodes, id, p)
  {
    if nodes != [] {
      var init, last := Init(nodes), Last(nodes);
      KeptExactly(init, p, id);
      assert nodes == init + [last];
      if p(last) {
        InitMore(Keep(init, p), last);
      }
      if SomeNode(init, id, p) {
        var n :| n in init && n.id == id && p(n);
        assert n in nodes;
      }
    }
  }

  lemma {:induction false} MapHolds(nodes: seq<Node>, n: Node)
    requires n in nodes && DistinctIds(nodes)
    ensures n.id in NodeMap(nodes) && NodeMap(nodes)[n.id] == n
  {
    if n != Last(nodes) {
      assert nodes == Init(nodes) + [Last(nodes)];
      var k :| 0 <= k < |nodes| && nodes[k] == n;
      MapHolds(Init(nodes), n);
    }
  }

  /** The top-level elements are the groups and the nodes without a parent, and a
      node is inside a group's element exactly when it names it as its parent. */
  lemma NodePlaced(nodes: seq<Node>, edges: seq<RFEdge>, n: Node, m: Node)
    requires DistinctIds(nodes) && n in nodes && m in nodes
    ensures m.id in InputOf(nodes, edges).nodes && (n.id in TopIds(nodes) <==> n.group || n.parent == Empty)
    ensures var x := Element(InputOf(nodes, edges), m.id);
            x.id == m.id && x.group == m.group
            && (n.id in x.inner <==> m.group && n.parent == m.id && n.parent != Empty)
  {
    MapHolds(nodes, m);
    KeptExactly(nodes, (x: Node) => x.group, n.id);
    KeptExactly(nodes, (x: Node) => !x.group && x.parent == Empty, n.id);
    OnlyNode(nodes, n, (x: Node) => x.group);
    OnlyNode(nodes, n, (x: Node) => !x.group && x.parent == Empty);
    InsideExactly(nodes, n, m.id);
  }

  lemma InsideExactly(nodes: seq<Node>, n: Node, id: Id)
    requires DistinctIds(nodes) && n in nodes
    ensures n.id in Ids(Keep(Parented(nodes), (x: Node) => x.parent == id)) <==> n.parent == id && n.parent != Empty
  {
    var inside := (x: Node) => x.parent == id;
    KeptExactly(Parented(nodes), inside, n.id);
    if SomeNode(Parented(nodes), n.id, inside) {
      var x :| x in Parented(nodes) && x.id == n.id && inside(x);
      ParentedExactly(nodes, x);
      NodeOfId(nodes, n, x);
    }
    ParentedExactly(nodes, n);
  }

  lemma ParentedExactly(nodes: seq<Node>, n: Node)
    ensures n in Parented(nodes) <==> n in nodes && n.parent != Empty
  {
    KeepCount(nodes, (x: Node) => x.parent != Empty, n);
    assert n in Parented(nodes) <==> multiset(Parented(nodes))[n] > 0;
    assert n in nodes <==> multiset(nodes)[n] > 0;
  }

  lemma NodeOfId(nodes: seq<Node>, n: Node, x: Node)
    requires DistinctIds(nodes) && n in nodes && x in nodes && x.id == n.id
    ensures x == n
  {
    var j :| 0 <= j < |nodes| && nodes[j] == n;
    var k :| 0 <= k < |nodes| && nodes[k] == x;
  }

  lemma OnlyNode(nodes: seq<Node>, n: Node, p: Node -> bool)
    requires DistinctIds(nodes) && n in nodes
    ensures SomeNode(nodes, n.id, p) <==> p(n)
  {
    forall x | x in nodes && x.id == n.id ensures x == n {
      NodeOfId(nodes, n, x);
    }
  }

  /** Where an edge is: with its group, or at the root of its component. */
  lemma EdgeHome(i: Input, c: seq<Id>, id: Id, e: RFEdge)
    requires c != [] && id in i.nodes
    ensures e in Element(i, id).edges <==> e in i.edges && InternalTo(i, id, e)
    ensures Wrap(i, c).Component? ==> (e in Wrap(i, c).edges <==> e in i.edges && AtRoot(i, c, e))
  {
    KeepCount(i.edges, (x: RFEdge) => InternalTo(i, id, x), e);
    KeepCount(i.edges, (x: RFEdge) => AtRoot(i, c, x), e);
    assert e in Element(i, id).edges <==> multiset(Element(i, id).edges)[e] > 0;
    assert e in RootEdges(i, c, i.edges) <==> multiset(RootEdges(i, c, i.edges))[e] > 0;
    assert e in i.edges <==> multiset(i.edges)[e] > 0;
  }

  /** The part of `computeLayout` that builds the graph. */
  method BuildGraph(nodes: seq<Node>, edges: seq<RFEdge>) returns (r: seq<Wrapped>, cs: seq<seq<Id>>)
    ensures FoundFor(nodes, edges, cs) && NoneEmpty(cs) && r == WrapAll(InputOf(nodes, edges), cs)
  {
    var parent := ParentMap(Parented(nodes));
    cs := FindComponents(TopIds(nodes), Plain(edges), parent);
    PartitionIsDisjoint(GraphOf(TopIds(nodes), Plain(edges), parent), cs);
    var i := InputOf(nodes, edges);
    var children, root := BuildElkChildren(cs, i);
    r := WrapComponents(cs, i, children, root);
  }
}

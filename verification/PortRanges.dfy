/** Runs of published ports shown as ranges (backend/collector/ports.go). */
module PortRanges {
  import opened Common
  import opened Reordering

  /** A mapping, or a range of them; an end of 0 is not set. Protocols are
      numbered in the order of their names. */
  datatype Port = Port(host: nat, hostEnd: nat, container: nat, containerEnd: nat, protocol: nat)

  function Max(a: nat, b: nat): nat { if a < b then b else a }

  predicate Single(p: Port) { p.hostEnd == 0 && p.containerEnd == 0 }

  predicate HostRange(p: Port) { p.hostEnd != 0 && p.containerEnd == 0 }

  /** One host port after another to one container port after another. */
  predicate Paired(p: Port) {
    0 < p.host < p.hostEnd && p.containerEnd == p.container + (p.hostEnd - p.host)
  }

  predicate WellFormed(p: Port) { Single(p) || HostRange(p) || Paired(p) }

  predicate AllWellFormed(s: seq<Port>) {
    s == [] || (WellFormed(s[|s| - 1]) && AllWellFormed(s[..|s| - 1]))
  }

  /** `continuedBy`. */
  predicate ContinuedBy(m: Port, p: Port) {
    Single(p) && !HostRange(m) && m.host != 0 && p.protocol == m.protocol
    && p.host == Max(m.host, m.hostEnd) + 1 && p.container == Max(m.container, m.containerEnd) + 1
  }

  function Extended(m: Port, p: Port): Port {
    m.(hostEnd := p.host, containerEnd := p.container)
  }

  /** The list with each mapping merged into the run it continues. */
  function MergeRuns(s: seq<Port>): (r: seq<Port>)
    ensures s != [] ==> r != []
  {
    if s == [] then []
    else
      var r, p := MergeRuns(s[..|s| - 1]), Last(s);
      if r != [] && ContinuedBy(Last(r), p) then r[..|r| - 1] + [Extended(Last(r), p)] else r + [p]
  }

  /** The loop over the sorted mappings. */
  method MergeLoop(sorted: seq<Port>) returns (ranges: seq<Port>)
    ensures ranges == MergeRuns(sorted)
  {
    ranges := [];
    for i := 0 to |sorted|
      invariant ranges == MergeRuns(sorted[..i])
    {
      var p := sorted[i];
      assert sorted[..i + 1][..i] == sorted[..i];
      if |ranges| > 0 && ContinuedBy(ranges[|ranges| - 1], p) {
        ranges := ranges[|ranges| - 1 := ranges[|ranges| - 1].(hostEnd := p.host, containerEnd := p.container)];
      } else {
        ranges := ranges + [p];
      }
    }
    assert sorted[..|sorted|] == sorted;
  }

  // ------------------------------------------------------------ conservation

  /** A binding of one port, or a host range taken as it is. */
  datatype Binding = Bind(host: nat, container: nat, protocol: nat) | Range(p: Port)

  function Pairs(host: nat, container: nat, n: nat, protocol: nat): multiset<Binding> {
    if n == 0 then multiset{} else Pairs(host, container, n - 1, protocol) + multiset{Bind(host + n - 1, container + n - 1, protocol)}
  }

  /** The bindings a mapping stands for. */
  function Expand(p: Port): multiset<Binding> {
    if Single(p) then multiset{Bind(p.host, p.container, p.protocol)}
    else if Paired(p) then Pairs(p.host, p.container, p.hostEnd - p.host + 1, p.protocol)
    else multiset{Range(p)}
  }

  lemma ExtendedExpands(m: Port, p: Port)
    requires WellFormed(m) && ContinuedBy(m, p)
    ensures Paired(Extended(m, p)) && Expand(Extended(m, p)) == Expand(m) + Expand(p)
  {
    if Single(m) {
      assert Pairs(m.host, m.container, 1, m.protocol) == Pairs(m.host, m.container, 0, m.protocol) + Expand(m);
    }
  }

  /** Merging runs keeps exactly the bindings. */
  lemma {:induction false} MergeRunsConserves(s: seq<Port>)
    requires AllWellFormed(s)
    ensures AllWellFormed(MergeRuns(s)) && Union(MergeRuns(s), Expand) == Union(s, Expand)
  {
    if s != [] {
      MergeRunsConserves(s[..|s| - 1]);
      var r, p := MergeRuns(s[..|s| - 1]), Last(s);
      if r != [] && ContinuedBy(Last(r), p) {
        var m, init := Extended(Last(r), p), r[..|r| - 1];
        ExtendedExpands(Last(r), p);
        UnionMore(init, m, Expand);
        assert (init + [m])[..|r| - 1] == init;
      } else {
        UnionMore(r, p, Expand);
        assert (r + [p])[..|r|] == r;
      }
    }
  }

  // --------------------------------------------------------------- sorting

  /** The order mappings are merged in: by protocol, host port, container port. */
  predicate Before(a: Port, b: Port) {
    a.protocol < b.protocol || (a.protocol == b.protocol &&
      (a.host < b.host || (a.host == b.host && a.container < b.container)))
  }

  /** Sorted for merging, equal keys in any order. */
  predicate Sorted(s: seq<Port>) {
    |s| <= 1 || (!Before(s[1], s[0]) && Sorted(s[1..]))
  }

  /** Sorted for merging, with distinct keys. */
  predicate Strict(s: seq<Port>) {
    |s| <= 1 || (Before(s[0], s[1]) && Strict(s[1..]))
  }

  /** The order of the result: by host port, then container port. */
  predicate HostBefore(a: Port, b: Port) {
    a.host < b.host || (a.host == b.host && a.container < b.container)
  }

  predicate HostSorted(s: seq<Port>) {
    |s| <= 1 || (!HostBefore(s[|s| - 1], s[|s| - 2]) && HostSorted(s[..|s| - 1]))
  }

  function InsertByHost(s: seq<Port>, p: Port): seq<Port> {
    if s == [] || !HostBefore(p, Last(s)) then s + [p] else InsertByHost(s[..|s| - 1], p) + [Last(s)]
  }

  /** The stable sort by host port of `slices.SortStableFunc`. */
  function SortByHost(s: seq<Port>): seq<Port> {
    if s == [] then [] else InsertByHost(SortByHost(s[..|s| - 1]), Last(s))
  }

  lemma {:induction false} InsertSorts(s: seq<Port>, p: Port)
    requires HostSorted(s)
    ensures HostSorted(InsertByHost(s, p))
    ensures Last(InsertByHost(s, p)) == if s == [] || !HostBefore(p, Last(s)) then p else Last(s)
  {
    var r := InsertByHost(s, p);
    if s == [] || !HostBefore(p, Last(s)) {
      assert r[..|s|] == s;
    } else {
      InsertSorts(s[..|s| - 1], p);
      assert r[..|r| - 1] == InsertByHost(s[..|s| - 1], p);
    }
  }

  lemma {:induction false} InsertAddsOne(s: seq<Port>, p: Port)
    ensures multiset(InsertByHost(s, p)) == multiset(s) + multiset{p}
  {
    if s != [] && HostBefore(p, Last(s)) {
      InsertAddsOne(s[..|s| - 1], p);
      assert s == s[..|s| - 1] + [Last(s)];
    }
  }

  lemma {:induction false} SortByHostSorts(s: seq<Port>)
    ensures HostSorted(SortByHost(s))
  {
    if s != [] {
      SortByHostSorts(s[..|s| - 1]);
      InsertSorts(SortByHost(s[..|s| - 1]), Last(s));
    }
  }

  lemma {:induction false} SortByHostReorders(s: seq<Port>)
    ensures multiset(SortByHost(s)) == multiset(s)
  {
    if s != [] {
      var init, last := s[..|s| - 1], s[|s| - 1];
      SortByHostReorders(init);
      InsertAddsOne(SortByHost(init), last);
      assert s == init + [last];
    }
  }

  // ----------------------------------------------------------- the function

  /** What `slices.SortFunc` may leave of `ports`. */
  ghost predicate SortOf(sorted: seq<Port>, ports: seq<Port>) {
    Sorted(sorted) && multiset(sorted) == multiset(ports)
  }

  /** `PortRanges`, given how the unstable sort ordered equal keys. */
  function Result(ports: seq<Port>, sorted: seq<Port>): seq<Port> {
    if |ports| < 2 then ports else SortByHost(MergeRuns(sorted))
  }

  method Ranges(ports: seq<Port>, sorted: seq<Port>) returns (r: seq<Port>)
    requires SortOf(sorted, ports)
    ensures r == Result(ports, sorted)
  {
    if |ports| < 2 {
      return ports;
    }
    var ranges := MergeLoop(sorted);
    r := SortByHost(ranges);
  }

  lemma {:induction false} WellFormedMembers(s: seq<Port>)
    ensures AllWellFormed(s) <==> forall p :: p in s ==> WellFormed(p)
  {
    if s != [] {
      WellFormedMembers(s[..|s| - 1]);
      assert s == s[..|s| - 1] + [Last(s)];
    }
  }

  /** The result stands for exactly the bindings of the input, in host order. */
  lemma RangesConserve(ports: seq<Port>, sorted: seq<Port>)
    requires AllWellFormed(ports) && SortOf(sorted, ports)
    ensures Union(Result(ports, sorted), Expand) == Union(ports, Expand)
    ensures HostSorted(Result(ports, sorted))
  {
    if |ports| >= 2 {
      WellFormedMembers(ports);
      WellFormedMembers(sorted);
      assert forall p :: p in sorted ==> p in multiset(ports);
      MergeRunsConserves(sorted);
      SortByHostSorts(MergeRuns(sorted));
      SortByHostReorders(MergeRuns(sorted));
      UnionOfReordered(sorted, ports, Expand);
      UnionOfReordered(SortByHost(MergeRuns(sorted)), MergeRuns(sorted), Expand);
    }
  }

  // ------------------------------------------------------------ idempotence

  /** No mapping of the list continues the one before it. */
  predicate NoRuns(s: seq<Port>) {
    |s| <= 1 || (!ContinuedBy(s[|s| - 2], Last(s)) && NoRuns(s[..|s| - 1]))
  }

  lemma {:induction false} MergedHasNoRuns(s: seq<Port>)
    ensures NoRuns(MergeRuns(s))
  {
    if s != [] {
      MergedHasNoRuns(s[..|s| - 1]);
      var r, p := MergeRuns(s[..|s| - 1]), Last(s);
      if r != [] && ContinuedBy(Last(r), p) {
        assert (r[..|r| - 1] + [Extended(Last(r), p)])[..|r| - 1] == r[..|r| - 1];
      } else {
        assert (r + [p])[..|r|] == r;
      }
    }
  }

  /** One port, or one host range for one container port. */
  predicate AllSimple(s: seq<Port>) {
    s == [] || ((Single(Last(s)) || HostRange(Last(s))) && AllSimple(s[..|s| - 1]))
  }

  /** `p` starts one port after the last of `m` on both sides. */
  predicate Adjoins(m: Port, p: Port) {
    && m.protocol == p.protocol && m.host > 0 && !HostRange(m) && !HostRange(p)
    && p.host == (if m.hostEnd > m.host then m.hostEnd else m.host) + 1
    && p.container == (if m.containerEnd > m.container then m.containerEnd else m.container) + 1
  }

  predicate NoneAdjoins(s: seq<Port>) {
    |s| <= 1 || (!Adjoins(s[|s| - 2], Last(s)) && NoneAdjoins(s[..|s| - 1]))
  }

  lemma AdjoinsSame(m: Port, p: Port, q: Port)
    requires q.host == p.host && q.container == p.container && q.protocol == p.protocol
    requires !HostRange(p) && !HostRange(q)
    ensures Adjoins(m, p) <==> Adjoins(m, q)
  {
  }

  lemma NoneAdjoinsMore(s: seq<Port>, p: Port)
    requires NoneAdjoins(s) && (s != [] ==> !Adjoins(Last(s), p))
    ensures NoneAdjoins(s + [p])
  {
    assert (s + [p])[..|s|] == s;
  }

  /** Runs are merged as far as they go: of two mappings that follow each other,
      the second does not adjoin the first. */
  lemma {:induction false} RunsGoOn(s: seq<Port>)
    requires AllSimple(s)
    ensures NoneAdjoins(MergeRuns(s))
  {
    if s != [] {
      RunsGoOn(s[..|s| - 1]);
      var r, p := MergeRuns(s[..|s| - 1]), Last(s);
      if r != [] && ContinuedBy(Last(r), p) {
        var init, m := r[..|r| - 1], Extended(Last(r), p);
        if init != [] {
          AdjoinsSame(Last(init), Last(r), m);
        }
        NoneAdjoinsMore(init, m);
      } else {
        NoneAdjoinsMore(r, p);
      }
    }
  }

  lemma {:induction false} NothingToMerge(s: seq<Port>)
    requires NoRuns(s)
    ensures MergeRuns(s) == s
  {
    if s != [] {
      NothingToMerge(s[..|s| - 1]);
      assert s == s[..|s| - 1] + [Last(s)];
      if |s| > 1 {
        assert Last(s[..|s| - 1]) == s[|s| - 2];
      }
    }
  }

  /** The first mapping is before all others. */
  lemma {:induction false} FirstIsBefore(s: seq<Port>, x: Port)
    requires Strict(s) && s != [] && x in s[1..]
    ensures Before(s[0], x)
  {
    if x != s[1] {
      FirstIsBefore(s[1..], x);
    }
  }

  lemma {:induction false} FirstIsNotAfter(s: seq<Port>, x: Port)
    requires Sorted(s) && s != [] && x in s
    ensures !Before(x, s[0])
  {
    if x != s[0] {
      assert x in s[1..];
      FirstIsNotAfter(s[1..], x);
    }
  }

  /** With distinct keys there is only one way to sort. */
  lemma {:induction false} OneSort(u: seq<Port>, t: seq<Port>)
    requires Sorted(u) && Strict(t) && multiset(u) == multiset(t)
    ensures u == t
    decreases |u|
  {
    assert |u| == |multiset(u)| == |multiset(t)| == |t|;
    if u != [] {
      assert t == [t[0]] + t[1..] && u == [u[0]] + u[1..];
      assert t[0] in multiset(u) && u[0] in multiset(t);
      FirstIsNotAfter(u, t[0]);
      if u[0] != t[0] {
        FirstIsBefore(t, u[0]);
      }
      assert multiset(u[1..]) == multiset(u) - multiset{u[0]};
      assert multiset(t[1..]) == multiset(t) - multiset{t[0]};
      OneSort(u[1..], t[1..]);
    }
  }

  lemma {:induction false} StrictMore(s: seq<Port>, p: Port)
    requires Strict(s) && (s == [] || Before(Last(s), p))
    ensures Strict(s + [p])
  {
    if |s| > 1 {
      StrictMore(s[1..], p);
      assert (s + [p])[1..] == s[1..] + [p];
    }
  }

  lemma {:induction false} StrictInit(s: seq<Port>)
    requires Strict(s) && s != []
    ensures Strict(s[..|s| - 1]) && (|s| > 1 ==> Before(s[|s| - 2], Last(s)))
  {
    if |s| > 2 {
      StrictInit(s[1..]);
      assert s[..|s| - 1][1..] == s[1..][..|s| - 2];
    }
  }

  lemma ReplaceLast(r: seq<Port>, m: Port)
    requires Strict(r) && r != []
    requires m.protocol == Last(r).protocol && m.host == Last(r).host && m.container == Last(r).container
    ensures Strict(r[..|r| - 1] + [m])
  {
    StrictInit(r);
    StrictMore(r[..|r| - 1], m);
  }

  /** One mapping more, merged or not, keeps the order. */
  lemma MergeStep(r: seq<Port>, p: Port, q: Port)
    requires Strict(r) && r != [] && !Before(q, Last(r)) && Before(q, p)
    ensures Strict(if ContinuedBy(Last(r), p) then r[..|r| - 1] + [Extended(Last(r), p)] else r + [p])
  {
    if ContinuedBy(Last(r), p) {
      ReplaceLast(r, Extended(Last(r), p));
    } else {
      StrictMore(r, p);
    }
  }

  /** A run keeps the key of its first mapping, and so the order. */
  lemma {:induction false} MergedIsStrict(s: seq<Port>)
    requires Strict(s)
    ensures Strict(MergeRuns(s))
    ensures s != [] ==> !Before(Last(s), Last(MergeRuns(s)))
  {
    if |s| > 1 {
      StrictInit(s);
      MergedIsStrict(s[..|s| - 1]);
      MergeStep(MergeRuns(s[..|s| - 1]), Last(s), s[|s| - 2]);
    }
  }

  /** Applied again to its own result the function changes nothing, when the
      mappings have distinct keys. */
  lemma RangesTwice(ports: seq<Port>, sorted: seq<Port>, sorted': seq<Port>)
    requires SortOf(sorted, ports) && Strict(sorted) && SortOf(sorted', Result(ports, sorted))
    ensures Result(Result(ports, sorted), sorted') == Result(ports, sorted)
  {
    if |Result(ports, sorted)| >= 2 {
      var t := MergeRuns(sorted);
      assert |ports| < 2 ==> Result(ports, sorted) == ports;
      MergedIsStrict(sorted);
      SortByHostReorders(t);
      OneSort(sorted', t);
      MergedHasNoRuns(sorted);
      NothingToMerge(t);
    }
  }
}

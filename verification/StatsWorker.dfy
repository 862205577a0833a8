/** Aggregation of container samples (backend/collector/stats_worker.go): every
    sample counts once, in its container's, its service's and its node's entry. */
module StatsWorker {
  import opened Common
  import opened StatsHistory

  /** A key of the snapshot: a container or service name (0 is the empty one),
      or the key of a node, which a container or service name may also be. */
  datatype Key = Named(n: nat) | NodeKey(host: nat)

  /** A sample; host 0 is the empty hostname, service `Named(0)` none. */
  datatype Sample = Sample(id: nat, name: Key, service: Key, host: nat, stats: Stats)

  // --------------------------------------------------------- merging samples

  function IdCount(samples: seq<Sample>, id: nat): nat {
    if samples == [] then 0 else IdCount(Init(samples), id) + if Last(samples).id == id then 1 else 0
  }

  /** The remote samples that `mergeSamples` keeps. */
  function NewOnes(local: seq<Sample>, remote: seq<Sample>): seq<Sample> {
    if remote == [] then []
    else
      var r, s := NewOnes(local, Init(remote)), Last(remote);
      if s.id == 0 || s.id in IdSet(local) + IdSet(r) then r else r + [s]
  }

  lemma IdCountMore(samples: seq<Sample>, s: Sample, id: nat)
    ensures IdCount(samples + [s], id) == IdCount(samples, id) + if s.id == id then 1 else 0
  {
    InitMore(samples, s);
  }

  /** The IDs that some sample has. */
  function IdSet(samples: seq<Sample>): (ids: set<nat>)
    ensures forall id :: id in ids <==> IdCount(samples, id) > 0
  {
    if samples == [] then {} else IdSet(Init(samples)) + {Last(samples).id}
  }

  /** `mergeSamples`. */
  method MergeSamples(local: seq<Sample>, remote: seq<Sample>) returns (merged: seq<Sample>)
    ensures merged == local + NewOnes(local, remote)
  {
    if |remote| == 0 {
      return local;
    }
    var seen: set<nat> := {};
    for i := 0 to |local|
      invariant seen == IdSet(local[..i])
    {
      InitMore(local[..i], local[i]);
      assert local[..i + 1] == local[..i] + [local[i]];
      seen := seen + {local[i].id};
    }
    assert local[..|local|] == local;
    merged := local;
    ghost var added: seq<Sample> := [];
    for i := 0 to |remote|
      invariant added == NewOnes(local, remote[..i]) && merged == local + added
      invariant seen == IdSet(local) + IdSet(added)
    {
      var s := remote[i];
      InitMore(remote[..i], s);
      assert remote[..i + 1] == remote[..i] + [s];
      if s.id == 0 || s.id in seen {
        continue;
      }
      InitMore(added, s);
      seen := seen + {s.id};
      added := added + [s];
      merged := merged + [s];
    }
    assert remote[..|remote|] == remote;
  }

  lemma {:induction false} NewOnesCount(local: seq<Sample>, remote: seq<Sample>, id: nat)
    ensures IdCount(NewOnes(local, remote), id) ==
            if id != 0 && IdCount(local, id) == 0 && IdCount(remote, id) > 0 then 1 else 0
  {
    if remote != [] {
      NewOnesCount(local, Init(remote), id);
      IdCountMore(NewOnes(local, Init(remote)), Last(remote), id);
    }
  }

  lemma {:induction false} IdCountConcat(a: seq<Sample>, b: seq<Sample>, id: nat)
    ensures IdCount(a + b, id) == IdCount(a, id) + IdCount(b, id)
  {
    if b == [] {
      assert a + b == a;
    } else {
      IdCountConcat(a, Init(b), id);
      InitMore(a + Init(b), Last(b));
      assert a + b == a + Init(b) + [Last(b)];
    }
  }

  /** A local container counts as often as it was sampled locally; any other
      that a remote sample names counts once. */
  lemma MergedOnce(local: seq<Sample>, remote: seq<Sample>, id: nat)
    ensures IdCount(local + NewOnes(local, remote), id) ==
            if IdCount(local, id) > 0 then IdCount(local, id) else if id != 0 && IdCount(remote, id) > 0 then 1 else 0
  {
    IdCountConcat(local, NewOnes(local, remote), id);
    NewOnesCount(local, remote, id);
  }

  // -------------------------------------------------------------- aggregates

  function Max(a: real, b: real): real { if a < b then b else a }

  /** `addStats`. */
  function AddStats(agg: Stats, s: Stats): Stats {
    var a, g := agg.gauges, s.gauges;
    Stats(agg.cpu + s.cpu, Max(agg.throttled, s.throttled),
          Gauges(a.memUsage + g.memUsage, a.memLimit + g.memLimit, a.netRx + g.netRx, a.netTx + g.netTx,
                 a.netRxErrors + g.netRxErrors, a.netTxErrors + g.netTxErrors, a.blockRead + g.blockRead,
                 a.blockWrite + g.blockWrite, a.pids + g.pids))
  }

  /** The aggregate of the samples that `p` picks. */
  function SumOf(samples: seq<Sample>, p: Sample -> bool): Stats {
    if samples == [] then ZERO
    else if p(Last(samples)) then AddStats(SumOf(Init(samples), p), Last(samples).stats)
    else SumOf(Init(samples), p)
  }

  function ValueAt(m: map<Key, Stats>, k: Key): Stats {
    if k in m then m[k] else ZERO
  }

  predicate HasService(s: Sample) { s.service != Named(0) && !s.service.NodeKey? }

  function ByName(samples: seq<Sample>): map<Key, Stats> {
    if samples == [] then map[]
    else
      var m, s := ByName(Init(samples)), Last(samples);
      if s.name in m then m else m[s.name := s.stats]
  }

  function ByService(samples: seq<Sample>): map<Key, Stats> {
    if samples == [] then map[]
    else
      var m, s := ByService(Init(samples)), Last(samples);
      if HasService(s) then m[s.service := AddStats(ValueAt(m, s.service), s.stats)] else m
  }

  /** Nodes that answered start at zero. */
  function Silent(reporting: seq<nat>): map<Key, Stats> {
    if reporting == [] then map[]
    else if Last(reporting) != 0 then Silent(Init(reporting))[NodeKey(Last(reporting)) := ZERO]
    else Silent(Init(reporting))
  }

  function ByNode(reporting: seq<nat>, samples: seq<Sample>): map<Key, Stats> {
    if samples == [] then Silent(reporting)
    else
      var m, s := ByNode(reporting, Init(samples)), Last(samples);
      if s.host != 0 then m[NodeKey(s.host) := AddStats(ValueAt(m, NodeKey(s.host)), s.stats)] else m
  }

  /** The snapshot: containers by name, services that no container is named
      like, and nodes. */
  function Snapshot(samples: seq<Sample>, reporting: seq<nat>): map<Key, Stats> {
    (ByService(samples) + ByName(samples)) + ByNode(reporting, samples)
  }

  method StartNodes(reporting: seq<nat>) returns (nodes: map<Key, Stats>)
    ensures nodes == Silent(reporting)
  {
    nodes := map[];
    for i := 0 to |reporting|
      invariant nodes == Silent(reporting[..i])
    {
      InitMore(reporting[..i], reporting[i]);
      assert reporting[..i + 1] == reporting[..i] + [reporting[i]];
      if reporting[i] != 0 {
        nodes := nodes[NodeKey(reporting[i]) := ZERO];
      }
    }
    assert reporting[..|reporting|] == reporting;
  }

  /** The loop over the services: they fill only free names. */
  method FillFree(stats: map<Key, Stats>, services: map<Key, Stats>) returns (r: map<Key, Stats>)
    ensures r == services + stats
  {
    r := stats;
    var left := services.Keys;
    while left != {}
      invariant left <= services.Keys && r.Keys == stats.Keys + (services.Keys - left)
      invariant forall k :: k in r ==> r[k] == if k in stats then stats[k] else services[k]
      decreases left
    {
      var name :| name in left;
      if name !in r {
        r := r[name := services[name]];
      }
      left := left - {name};
    }
  }

  /** The loop over the nodes: their keys are their own. */
  method PutAll(stats: map<Key, Stats>, nodes: map<Key, Stats>) returns (r: map<Key, Stats>)
    ensures r == stats + nodes
  {
    r := stats;
    var left := nodes.Keys;
    while left != {}
      invariant left <= nodes.Keys && r.Keys == stats.Keys + (nodes.Keys - left)
      invariant forall k :: k in r ==> r[k] == if k in nodes.Keys - left then nodes[k] else stats[k]
      decreases left
    {
      var key :| key in left;
      r := r[key := nodes[key]];
      left := left - {key};
    }
  }

  /** `BuildStatsSnapshot`. */
  method BuildStatsSnapshot(samples: seq<Sample>, reporting: seq<nat>) returns (stats: map<Key, Stats>)
    ensures stats == Snapshot(samples, reporting)
  {
    var services, nodes: map<Key, Stats>;
    stats, services := map[], map[];
    nodes := StartNodes(reporting);
    for i := 0 to |samples|
      invariant stats == ByName(samples[..i]) && services == ByService(samples[..i])
      invariant nodes == ByNode(reporting, samples[..i])
    {
      var s := samples[i];
      InitMore(samples[..i], s);
      assert samples[..i + 1] == samples[..i] + [s];
      if s.name !in stats {
        stats := stats[s.name := s.stats];
      }
      if s.service != Named(0) && !s.service.NodeKey? {
        services := services[s.service := AddStats(ValueAt(services, s.service), s.stats)];
      }
      if s.host != 0 {
        nodes := nodes[NodeKey(s.host) := AddStats(ValueAt(nodes, NodeKey(s.host)), s.stats)];
      }
    }
    assert samples[..|samples|] == samples;
    stats := FillFree(stats, services);
    stats := PutAll(stats, nodes);
  }

  // --------------------------------------------------- what the snapshot says

  predicate Any(samples: seq<Sample>, p: Sample -> bool) {
    samples != [] && (p(Last(samples)) || Any(Init(samples), p))
  }

  /** The stats of the first sample that `p` picks. */
  function FirstOf(samples: seq<Sample>, p: Sample -> bool): Stats {
    if samples == [] then ZERO
    else if Any(Init(samples), p) then FirstOf(Init(samples), p)
    else Last(samples).stats
  }

  lemma {:induction false} NameEntry(samples: seq<Sample>, k: Key, p: Sample -> bool)
    requires forall s :: p(s) <==> s.name == k
    ensures k in ByName(samples) <==> Any(samples, p)
    ensures k in ByName(samples) ==> ByName(samples)[k] == FirstOf(samples, p)
  {
    if samples != [] {
      NameEntry(Init(samples), k, p);
    }
  }

  lemma {:induction false} ServiceEntry(samples: seq<Sample>, k: Key, p: Sample -> bool)
    requires forall s :: p(s) <==> HasService(s) && s.service == k
    ensures k in ByService(samples) <==> Any(samples, p)
    ensures ValueAt(ByService(samples), k) == SumOf(samples, p)
  {
    if samples != [] {
      ServiceEntry(Init(samples), k, p);
    }
  }

  lemma {:induction false} SilentEntry(reporting: seq<nat>, k: Key)
    ensures k in Silent(reporting) <==> k.NodeKey? && k.host != 0 && k.host in reporting
    ensures ValueAt(Silent(reporting), k) == ZERO
  {
    if reporting != [] {
      SilentEntry(Init(reporting), k);
      assert reporting == Init(reporting) + [Last(reporting)];
    }
  }

  lemma {:induction false} NodeEntry(reporting: seq<nat>, samples: seq<Sample>, k: Key, p: Sample -> bool)
    requires forall s :: p(s) <==> s.host != 0 && NodeKey(s.host) == k
    ensures k in ByNode(reporting, samples) <==> Any(samples, p) || k in Silent(reporting)
    ensures ValueAt(ByNode(reporting, samples), k) == SumOf(samples, p)
  {
    SilentEntry(reporting, k);
    if samples != [] {
      NodeEntry(reporting, Init(samples), k, p);
    }
  }

  /** The node `k` stands for has samples, or its agent answered without any. */
  predicate IsNode(samples: seq<Sample>, reporting: seq<nat>, k: Key) {
    Any(samples, (s: Sample) => s.host != 0 && NodeKey(s.host) == k) || (k.NodeKey? && k.host != 0 && k.host in reporting)
  }

  /** What every key holds. A node's entry is the sum of the samples stamped with
      its host; it is there if a sample is stamped with it or its agent answered,
      even with no samples. Any other key, also one of a container named like a
      node that is not there, holds the first sample of its name, or else the sum
      of its service's samples. */
  lemma SnapshotEntry(samples: seq<Sample>, reporting: seq<nat>, k: Key)
    ensures var snapshot := Snapshot(samples, reporting);
            var hosted, called, served := (s: Sample) => s.host != 0 && NodeKey(s.host) == k, (s: Sample) => s.name == k,
                                          (s: Sample) => HasService(s) && s.service == k;
            var node := IsNode(samples, reporting, k);
            && (k in snapshot <==> node || Any(samples, called) || Any(samples, served))
            && (node ==> snapshot[k] == SumOf(samples, hosted))
            && (!node && Any(samples, called) ==> snapshot[k] == FirstOf(samples, called))
            && (!node && !Any(samples, called) && Any(samples, served) ==> snapshot[k] == SumOf(samples, served))
  {
    var hosted, called, served := (s: Sample) => s.host != 0 && NodeKey(s.host) == k, (s: Sample) => s.name == k,
                                  (s: Sample) => HasService(s) && s.service == k;
    NodeEntry(reporting, samples, k, hosted);
    SilentEntry(reporting, k);
    NameEntry(samples, k, called);
    ServiceEntry(samples, k, served);
  }

  lemma {:induction false} AnyIs(samples: seq<Sample>, p: Sample -> bool)
    ensures Any(samples, p) <==> exists i :: 0 <= i < |samples| && p(samples[i])
  {
    if samples != [] {
      var init := Init(samples);
      AnyIs(init, p);
      assert forall i :: 0 <= i < |init| ==> init[i] == samples[i];
      assert Last(samples) == samples[|init|];
    }
  }

  /** The `i`-th sample is the first that `p` picks. */
  predicate IsFirst(samples: seq<Sample>, p: Sample -> bool, i: nat) {
    i < |samples| && p(samples[i]) && forall j :: 0 <= j < i ==> !p(samples[j])
  }

  lemma {:induction false} FirstIs(samples: seq<Sample>, p: Sample -> bool, i: nat)
    requires IsFirst(samples, p, i)
    ensures Any(samples, p) && FirstOf(samples, p) == samples[i].stats
  {
    var init := Init(samples);
    AnyIs(init, p);
    AnyIs(samples, p);
    if i < |init| {
      assert IsFirst(init, p, i);
      FirstIs(init, p, i);
    }
  }

  /** Unless there is a node of that key, a name holds the stats of the first sample
      of that name. */
  lemma FirstHoldsName(samples: seq<Sample>, reporting: seq<nat>, i: nat)
    requires i < |samples| && !IsNode(samples, reporting, samples[i].name)
    requires forall j :: 0 <= j < i ==> samples[j].name != samples[i].name
    ensures var k := samples[i].name;
            k in Snapshot(samples, reporting) && Snapshot(samples, reporting)[k] == samples[i].stats
  {
    var k := samples[i].name;
    FirstIs(samples, (s: Sample) => s.name == k, i);
    SnapshotEntry(samples, reporting, k);
  }

  // ------------------------------------------------------------- what adds up

  /** The metrics that aggregates sum. */
  datatype Metric = Cpu | MemUsage | MemLimit | NetRx | NetTx | NetRxErrors | NetTxErrors | BlockRead | BlockWrite | Pids

  function Value(m: Metric, s: Stats): real {
    match m
    case Cpu => s.cpu
    case MemUsage => s.gauges.memUsage as real
    case MemLimit => s.gauges.memLimit as real
    case NetRx => s.gauges.netRx as real
    case NetTx => s.gauges.netTx as real
    case NetRxErrors => s.gauges.netRxErrors as real
    case NetTxErrors => s.gauges.netTxErrors as real
    case BlockRead => s.gauges.blockRead as real
    case BlockWrite => s.gauges.blockWrite as real
    case Pids => s.gauges.pids as real
  }

  /** The metric over the samples that `p` picks, added up. */
  function Total(m: Metric, samples: seq<Sample>, p: Sample -> bool): real {
    if samples == [] then 0.0
    else Total(m, Init(samples), p) + if p(Last(samples)) then Value(m, Last(samples).stats) else 0.0
  }

  lemma AddsUp(m: Metric, a: Stats, b: Stats)
    ensures Value(m, AddStats(a, b)) == Value(m, a) + Value(m, b) && Value(m, ZERO) == 0.0
  {
  }

  lemma {:induction false} SumIsTotal(m: Metric, samples: seq<Sample>, p: Sample -> bool)
    ensures Value(m, SumOf(samples, p)) == Total(m, samples, p)
  {
    if samples == [] {
      AddsUp(m, ZERO, ZERO);
    } else {
      SumIsTotal(m, Init(samples), p);
      AddsUp(m, SumOf(Init(samples), p), Last(samples).stats);
    }
  }

  /** In every summed metric a node's entry holds the total of the samples of its
      host, and a service's the total of its samples, unless a container has its
      name. */
  lemma EntryIsTotal(m: Metric, samples: seq<Sample>, reporting: seq<nat>, k: Key)
    ensures var snapshot := Snapshot(samples, reporting);
            && (IsNode(samples, reporting, k)
                ==> k in snapshot && Value(m, snapshot[k]) == Total(m, samples, (s: Sample) => s.host != 0 && NodeKey(s.host) == k))
            && (!IsNode(samples, reporting, k) && (forall s :: s in samples ==> s.name != k)
                && (exists s :: s in samples && HasService(s) && s.service == k)
                ==> k in snapshot && Value(m, snapshot[k]) == Total(m, samples, (s: Sample) => HasService(s) && s.service == k))
  {
    var hosted, called, served := (s: Sample) => s.host != 0 && NodeKey(s.host) == k, (s: Sample) => s.name == k,
                                  (s: Sample) => HasService(s) && s.service == k;
    SnapshotEntry(samples, reporting, k);
    SumIsTotal(m, samples, hosted);
    SumIsTotal(m, samples, served);
    AnyIs(samples, called);
    AnyIs(samples, served);
  }

  /** A service makes an entry unless its name is empty or that of a node, and
      without a node, a container or a service of that name there is none. */
  lemma ServiceEntryExactly(samples: seq<Sample>, reporting: seq<nat>, k: Key)
    requires !IsNode(samples, reporting, k) && forall s :: s in samples ==> s.name != k
    ensures k in Snapshot(samples, reporting) <==> k.Named? && k.n != 0 && exists s :: s in samples && s.service == k
  {
    var called, served := (s: Sample) => s.name == k, (s: Sample) => HasService(s) && s.service == k;
    SnapshotEntry(samples, reporting, k);
    AnyIs(samples, called);
    AnyIs(samples, served);
  }

  /** Throttling is the worst container's: no less than that of any sample the
      aggregate is of, and that of one of them unless none is above zero. */
  lemma {:induction false} ThrottledIsWorst(samples: seq<Sample>, p: Sample -> bool)
    ensures var t := SumOf(samples, p).throttled;
            && t >= 0.0
            && (forall s :: s in samples && p(s) ==> s.stats.throttled <= t)
            && (t > 0.0 ==> exists s :: s in samples && p(s) && s.stats.throttled == t)
  {
    if samples != [] {
      var init, last := Init(samples), Last(samples);
      assert samples == init + [last] && last in samples;
      ThrottledIsWorst(init, p);
    }
  }

  /** The metric over the entries of the hosts in the list. */
  function OverHosts(m: Metric, hosts: seq<nat>, entries: map<Key, Stats>): real {
    if hosts == [] then 0.0
    else OverHosts(m, Init(hosts), entries) + Value(m, ValueAt(entries, NodeKey(Last(hosts))))
  }

  predicate NoRepeat(hosts: seq<nat>) {
    hosts == [] || (NoRepeat(Init(hosts)) && Last(hosts) !in Init(hosts))
  }

  lemma {:induction false} OneEntryMore(m: Metric, hosts: seq<nat>, entries: map<Key, Stats>, host: nat, s: Stats)
    requires NoRepeat(hosts)
    ensures OverHosts(m, hosts, entries[NodeKey(host) := AddStats(ValueAt(entries, NodeKey(host)), s)])
            == OverHosts(m, hosts, entries) + if host in hosts then Value(m, s) else 0.0
  {
    if hosts != [] {
      OneEntryMore(m, Init(hosts), entries, host, s);
      AddsUp(m, ValueAt(entries, NodeKey(host)), s);
      assert hosts == Init(hosts) + [Last(hosts)];
    }
  }

  lemma {:induction false} NothingYet(m: Metric, hosts: seq<nat>, reporting: seq<nat>)
    ensures OverHosts(m, hosts, Silent(reporting)) == 0.0
  {
    if hosts != [] {
      NothingYet(m, Init(hosts), reporting);
      SilentEntry(reporting, NodeKey(Last(hosts)));
      AddsUp(m, ZERO, ZERO);
    }
  }

  /** The node entries over all hosts add up to the total of the samples that
      are stamped with a host, in every metric that is summed. */
  lemma {:induction false} NodesAddUp(m: Metric, samples: seq<Sample>, reporting: seq<nat>, hosts: seq<nat>)
    requires NoRepeat(hosts) && forall k :: 0 <= k < |samples| && samples[k].host != 0 ==> samples[k].host in hosts
    ensures OverHosts(m, hosts, ByNode(reporting, samples)) == Total(m, samples, (s: Sample) => s.host != 0)
  {
    if samples == [] {
      NothingYet(m, hosts, reporting);
    } else {
      NodesAddUp(m, Init(samples), reporting, hosts);
      var s := Last(samples);
      OneEntryMore(m, hosts, ByNode(reporting, Init(samples)), s.host, s.stats);
    }
  }
}

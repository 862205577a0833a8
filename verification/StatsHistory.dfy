/** The in-memory stats history (backend/collector/stats_history.go): points in
    time order within a bound of samples, old ones merged into buckets, and
    queries that thin the points until their series fit. Times are nanoseconds. */
module StatsHistory {
  import opened Common

  datatype Name = Name(id: nat)

  /** The metrics of which the last value counts. */
  datatype Gauges = Gauges(memUsage: nat, memLimit: nat, netRx: nat, netTx: nat,
                           netRxErrors: nat, netTxErrors: nat, blockRead: nat, blockWrite: nat, pids: nat)

  datatype Stats = Stats(cpu: real, throttled: real, gauges: Gauges)

  const ZERO := Stats(0.0, 0.0, Gauges(0, 0, 0, 0, 0, 0, 0, 0, 0))

  /** A snapshot at a time in nanoseconds. */
  datatype Point = Point(time: int, stats: map<Name, Stats>)

  const SECOND := 1_000_000_000
  const HOUR := 3600 * SECOND

  function Samples(ps: seq<Point>): nat {
    if ps == [] then 0 else Samples(Init(ps)) + |Last(ps).stats|
  }

  predicate InOrder(ps: seq<Point>) {
    |ps| <= 1 || (ps[|ps| - 2].time <= Last(ps).time && InOrder(Init(ps)))
  }

  function Names(ps: seq<Point>): set<Name> {
    if ps == [] then {} else Names(Init(ps)) + Last(ps).stats.Keys
  }

  lemma SamplesMore(ps: seq<Point>, p: Point)
    ensures Samples(ps + [p]) == Samples(ps) + |p.stats| && Names(ps + [p]) == Names(ps) + p.stats.Keys
  {
    InitMore(ps, p);
  }

  lemma {:induction false} SamplesConcat(a: seq<Point>, b: seq<Point>)
    ensures Samples(a + b) == Samples(a) + Samples(b) && Names(a + b) == Names(a) + Names(b)
  {
    if b == [] {
      assert a + b == a;
    } else {
      var init, last := b[..|b| - 1], b[|b| - 1];
      assert b == init + [last] && a + b == (a + init) + [last];
      SamplesConcat(a, init);
      SamplesMore(init, last);
      SamplesMore(a + init, last);
    }
  }

  lemma SamplesDrop(ps: seq<Point>)
    requires ps != []
    ensures Samples(ps) == |ps[0].stats| + Samples(ps[1..])
  {
    SamplesConcat([ps[0]], ps[1..]);
    assert ps == [ps[0]] + ps[1..];
    assert Init([ps[0]]) == [];
  }

  lemma {:induction false} OrderOfTail(ps: seq<Point>)
    requires InOrder(ps) && ps != []
    ensures InOrder(ps[1..])
  {
    if |ps| > 2 {
      OrderOfTail(Init(ps));
      assert Init(ps)[1..] == Init(ps[1..]);
    }
  }

  lemma {:induction false} OrderOfSuffix(ps: seq<Point>, k: nat)
    requires InOrder(ps) && k <= |ps|
    ensures InOrder(ps[k..])
  {
    if k > 0 {
      OrderOfTail(ps);
      OrderOfSuffix(ps[1..], k - 1);
      assert ps[1..][k - 1..] == ps[k..];
    } else {
      assert ps[0..] == ps;
    }
  }

  // ------------------------------------------------------ record and evict

  /** How many of the oldest points `Record` drops, from `k` on. */
  function Dropped(ps: seq<Point>, k: nat, max: nat): (i: nat)
    requires k < |ps|
    ensures k <= i < |ps| && (Samples(ps[i..]) <= max || i == |ps| - 1)
    decreases |ps| - k
  {
    if k < |ps| - 1 && Samples(ps[k..]) > max then Dropped(ps, k + 1, max) else k
  }

  /** What `Record` keeps: the points without the oldest ones over the bound. */
  function Trimmed(ps: seq<Point>, max: nat): (r: seq<Point>)
    requires ps != []
  {
    ps[Dropped(ps, 0, max)..]
  }

  /** How many points at the front are older than `t`. */
  function Older(ps: seq<Point>, t: int): (k: nat)
    ensures k <= |ps|
  {
    if ps != [] && ps[0].time < t then 1 + Older(ps[1..], t) else 0
  }

  /** What `Evict` keeps. */
  function Since(ps: seq<Point>, t: int): seq<Point> {
    ps[Older(ps, t)..]
  }

  lemma {:induction false} DroppedOverBound(ps: seq<Point>, j: nat, max: nat, k: nat)
    requires j <= k < |ps| && k < Dropped(ps, j, max)
    ensures Samples(ps[k..]) > max
    decreases |ps| - j
  {
    if j < k {
      DroppedOverBound(ps, j + 1, max, k);
    }
  }

  /** `Record` keeps the newest point and the longest run of points before it
      that fits the bound. */
  lemma TrimmedIsLongestFit(ps: seq<Point>, max: nat, k: nat)
    requires k < |ps|
    ensures var r := Trimmed(ps, max);
            0 < |r| <= |ps| && r == ps[|ps| - |r|..] && (Samples(r) <= max || |r| == 1)
            && (Samples(ps[k..]) <= max ==> |ps| - k <= |r|)
  {
    if k < Dropped(ps, 0, max) {
      DroppedOverBound(ps, 0, max, k);
    }
  }

  lemma {:induction false} OlderMembers(ps: seq<Point>, t: int, p: Point)
    requires InOrder(ps)
    ensures p in Since(ps, t) <==> p in ps && p.time >= t
    decreases |ps|
  {
    if ps != [] {
      OrderOfTail(ps);
      assert ps == [ps[0]] + ps[1..];
      if ps[0].time < t {
        OlderMembers(ps[1..], t, p);
        assert ps[1..][Older(ps[1..], t)..] == ps[Older(ps, t)..];
      } else {
        FirstIsOldest(ps, p);
      }
    }
  }

  lemma {:induction false} FirstIsOldest(ps: seq<Point>, p: Point)
    requires InOrder(ps) && ps != []
    ensures p in ps ==> ps[0].time <= p.time
    ensures p in ps ==> p.time <= Last(ps).time
  {
    if |ps| > 1 {
      FirstIsOldest(Init(ps), p);
      FirstIsOldest(Init(ps), ps[|ps| - 2]);
      assert ps == Init(ps) + [Last(ps)];
    }
  }

  // ------------------------------------------------------------ downsampling

  /** `Time.Truncate`. */
  function Truncate(t: int, w: int): (b: int)
    ensures b <= t
    ensures w > 0 ==> t < b + w
  {
    if w <= 0 then t else t - t % w
  }

  lemma TruncateTwice(t: int, w: int)
    ensures Truncate(Truncate(t, w), w) == Truncate(t, w)
    ensures w > 0 ==> Truncate(t, w) % w == 0
  {
    if w > 0 {
      Multiple(t / w, w);
      assert t == w * (t / w) + t % w;
    }
  }

  lemma Multiple(k: int, w: int)
    requires w > 0
    ensures (w * k) % w == 0
  {
    Remainder(k, w, 0);
  }

  lemma {:induction false} Monotone(w: int, a: int, b: int)
    requires w > 0 && a < b
    ensures w * a + w <= w * b
    decreases b - a
  {
    assert w * b == w * (b - 1) + w;
    if a < b - 1 {
      Monotone(w, a, b - 1);
    }
  }

  lemma Remainder(k: int, w: int, r: int)
    requires 0 <= r < w
    ensures (w * k + r) % w == r && (w * k + r) / w == k
  {
    Quotient(w * k + r, k, w);
  }

  lemma Quotient(x: int, k: int, w: int)
    requires w > 0 && w * k <= x < w * k + w
    ensures x / w == k && x % w == x - w * k
  {
    var q := x / w;
    assert x == w * q + x % w;
    if q < k {
      Monotone(w, q, k);
    } else if q > k {
      Monotone(w, k, q);
    }
  }

  /** A time past a bucket truncates past it as well. */
  lemma TruncatePast(start: int, t: int, w: int)
    requires Truncate(start, w) == start && t >= start + w
    ensures Truncate(t, w) >= start + w
  {
    if w > 0 {
      assert start == w * (start / w) + start % w;
      assert t == w * (t / w) + t % w;
      if t / w != start / w + 1 {
        Apart(t / w, start / w, w, t, start);
      }
      assert w * (start / w + 1) == w * (start / w) + w;
    }
  }

  lemma Apart(q: int, k: int, w: int, t: int, start: int)
    requires w > 0 && start == w * k && t >= start + w && w * q <= t < w * q + w && q != k + 1
    ensures w * q >= start + w
  {
    assert w * (k + 1) == w * k + w;
    if q <= k {
      Monotone(w, q, k + 1);
    } else {
      Monotone(w, k, q);
    }
  }

  /** What a bucket adds up for one container. */
  datatype Total = Total(sum: Stats, count: nat)

  function Sum(existing: Stats, s: Stats): Stats {
    Stats(existing.cpu + s.cpu, existing.throttled + s.throttled, s.gauges)
  }

  function Add(t: Total, s: Stats): Total {
    Total(Sum(t.sum, s), t.count + 1)
  }

  function TotalOf(ps: seq<Point>, n: Name): (t: Total)
    ensures n in Names(ps) <==> t.count > 0
    ensures n !in Names(ps) ==> t == Total(ZERO, 0)
  {
    if ps == [] then Total(ZERO, 0)
    else if n in Last(ps).stats then Add(TotalOf(Init(ps), n), Last(ps).stats[n])
    else TotalOf(Init(ps), n)
  }

  function Averaged(t: Total): Stats
    requires t.count > 0
  {
    Stats(t.sum.cpu / t.count as real, t.sum.throttled / t.count as real, t.sum.gauges)
  }

  /** The point that stands for a bucket: rates averaged over the points that
      have the container, gauges as last seen. */
  function Bucket(time: int, ps: seq<Point>): Point {
    Point(time, map n | n in Names(ps) :: Averaged(TotalOf(ps, n)))
  }

  /** `merged` and `counts`, kept as one table, after the points `ps`. */
  function Totals(ps: seq<Point>): map<Name, Total> {
    map n | n in Names(ps) :: TotalOf(ps, n)
  }

  function At(totals: map<Name, Total>, n: Name): Total {
    if n in totals then totals[n] else Total(ZERO, 0)
  }

  lemma TotalMore(ps: seq<Point>, p: Point, n: Name)
    ensures TotalOf(ps + [p], n) == if n in p.stats then Add(TotalOf(ps, n), p.stats[n]) else TotalOf(ps, n)
    ensures Names(ps + [p]) == Names(ps) + p.stats.Keys
  {
    InitMore(ps, p);
  }

  /** The totals once the containers `done` of a point are added. */
  function TotalsWith(totals: map<Name, Total>, stats: map<Name, Stats>, done: set<Name>): map<Name, Total>
    requires done <= stats.Keys
  {
    map n | n in totals.Keys + done :: if n in done then Add(At(totals, n), stats[n]) else totals[n]
  }

  lemma TotalsStep(totals: map<Name, Total>, stats: map<Name, Stats>, left: set<Name>, name: Name, before: map<Name, Total>)
    requires left <= stats.Keys && name in left && before == TotalsWith(totals, stats, stats.Keys - left)
    ensures TotalsWith(totals, stats, stats.Keys - (left - {name})) == before[name := Add(At(before, name), stats[name])]
  {
    var done := stats.Keys - left;
    assert stats.Keys - (left - {name}) == done + {name};
    assert At(before, name) == At(totals, name);
  }

  /** The inner loop, over the containers of one point in any order. */
  method MergePoint(totals: map<Name, Total>, stats: map<Name, Stats>) returns (totals': map<Name, Total>)
    ensures totals' == TotalsWith(totals, stats, stats.Keys)
  {
    totals' := totals;
    var left := stats.Keys;
    while left != {}
      invariant left <= stats.Keys && totals' == TotalsWith(totals, stats, stats.Keys - left)
      decreases left
    {
      var name :| name in left;
      var s, existing := stats[name], At(totals', name);
      TotalsStep(totals, stats, left, name, totals');
      totals' := totals'[name := Total(Sum(existing.sum, s), existing.count + 1)];
      left := left - {name};
    }
  }

  lemma TotalsMore(ps: seq<Point>, p: Point)
    ensures TotalsWith(Totals(ps), p.stats, p.stats.Keys) == Totals(ps + [p])
  {
    var more := ps + [p];
    TotalMore(ps, p, Name(0));
    forall n
      ensures TotalOf(more, n) == if n in p.stats then Add(TotalOf(ps, n), p.stats[n]) else TotalOf(ps, n)
    {
      TotalMore(ps, p, n);
    }
    SameTotals(ps, p.stats, more);
  }

  lemma SameTotals(ps: seq<Point>, stats: map<Name, Stats>, more: seq<Point>)
    requires Names(more) == Names(ps) + stats.Keys
    requires forall n :: TotalOf(more, n) == if n in stats then Add(TotalOf(ps, n), stats[n]) else TotalOf(ps, n)
    ensures TotalsWith(Totals(ps), stats, stats.Keys) == Totals(more)
  {
  }

  /** `downsampleBucket`. */
  method DownsampleBucket(time: int, points: seq<Point>) returns (p: Point)
    ensures p == Bucket(time, points)
  {
    var totals: map<Name, Total> := map[];
    for i := 0 to |points|
      invariant totals == Totals(points[..i])
    {
      totals := MergePoint(totals, points[i].stats);
      TotalsMore(points[..i], points[i]);
      assert points[..i] + [points[i]] == points[..i + 1];
    }
    assert points[..|points|] == points;
    var left, averaged := totals.Keys, map[];
    while left != {}
      invariant left <= totals.Keys && averaged.Keys == totals.Keys - left
      invariant forall n :: n in averaged ==> averaged[n] == Averaged(TotalOf(points, n))
      decreases left
    {
      var name :| name in left;
      var s, n := totals[name].sum, totals[name].count;
      averaged := averaged[name := Stats(s.cpu / n as real, s.throttled / n as real, s.gauges)];
      left := left - {name};
    }
    p := Point(time, averaged);
  }

  /** In how many points a container is, and its CPU over them. */
  function Holders(ps: seq<Point>, n: Name): nat {
    if ps == [] then 0 else Holders(Init(ps), n) + if n in Last(ps).stats then 1 else 0
  }

  function CpuOver(ps: seq<Point>, n: Name): real {
    if ps == [] then 0.0 else CpuOver(Init(ps), n) + if n in Last(ps).stats then Last(ps).stats[n].cpu else 0.0
  }

  lemma {:induction false} TotalIsSum(ps: seq<Point>, n: Name, j: nat)
    requires j < |ps| && n in ps[j].stats && forall k :: j < k < |ps| ==> n !in ps[k].stats
    ensures TotalOf(ps, n).sum.gauges == ps[j].stats[n].gauges
    ensures TotalOf(ps, n).count == Holders(ps, n) && TotalOf(ps, n).sum.cpu == CpuOver(ps, n)
  {
    CpuIsSum(Init(ps), n);
    if j < |ps| - 1 {
      TotalIsSum(Init(ps), n, j);
    }
  }

  lemma {:induction false} CpuIsSum(ps: seq<Point>, n: Name)
    ensures TotalOf(ps, n).count == Holders(ps, n) && TotalOf(ps, n).sum.cpu == CpuOver(ps, n)
  {
    if ps != [] {
      CpuIsSum(Init(ps), n);
    }
  }

  /** A bucket's point has a container's gauges as last seen, in point `j`, and
      its CPU averaged over the points that have it. */
  lemma BucketIsMeanAndLast(time: int, ps: seq<Point>, n: Name, j: nat)
    requires j < |ps| && n in ps[j].stats && forall k :: j < k < |ps| ==> n !in ps[k].stats
    ensures n in Bucket(time, ps).stats && Holders(ps, n) > 0
    ensures Bucket(time, ps).stats[n].gauges == ps[j].stats[n].gauges
    ensures Bucket(time, ps).stats[n].cpu == CpuOver(ps, n) / Holders(ps, n) as real
  {
    TotalIsSum(ps, n, j);
    HolderCounts(ps, n, j);
  }

  lemma {:induction false} HolderCounts(ps: seq<Point>, n: Name, j: nat)
    requires j < |ps| && n in ps[j].stats
    ensures Holders(ps, n) > 0
  {
    if j < |ps| - 1 {
      HolderCounts(Init(ps), n, j);
    }
  }

  datatype Group = Group(start: int, points: seq<Point>)

  /** A point joins the last bucket or starts one. */
  function Placed(gs: seq<Group>, p: Point, w: int): seq<Group> {
    if gs != [] && p.time < Last(gs).start + w then Init(gs) + [Group(Last(gs).start, Last(gs).points + [p])]
    else gs + [Group(Truncate(p.time, w), [p])]
  }

  /** The buckets the loop of `Downsample` cuts the old points into. */
  function Groups(ps: seq<Point>, w: int): (gs: seq<Group>)
    ensures gs == [] <==> ps == []
  {
    if ps == [] then [] else Placed(Groups(Init(ps), w), Last(ps), w)
  }

  function Merged(gs: seq<Group>): (ps: seq<Point>)
    ensures |ps| == |gs|
  {
    if gs == [] then [] else Merged(Init(gs)) + [Bucket(Last(gs).start, Last(gs).points)]
  }

  /** What `Downsample` leaves, with `t` an hour ago. */
  function Downsampled(ps: seq<Point>, t: int, w: int): seq<Point> {
    var k := Older(ps, t);
    if k < 2 then ps else Merged(Groups(ps[..k], w)) + ps[k..]
  }

  /** The loop over the old points. */
  method MergeOld(points: seq<Point>, w: int) returns (downsampled: seq<Point>)
    requires points != []
    ensures downsampled == Merged(Groups(points, w))
  {
    downsampled := [];
    var start, bucket := Truncate(points[0].time, w), [];
    ghost var done: seq<Group> := [];
    for i := 0 to |points|
      invariant downsampled == Merged(done)
      invariant i == 0 ==> bucket == [] && done == [] && start == Truncate(points[0].time, w)
      invariant i > 0 ==> bucket != [] && Groups(points[..i], w) == done + [Group(start, bucket)]
    {
      var p := points[i];
      InitMore(points[..i], p);
      assert points[..i + 1] == points[..i] + [p];
      InitMore(done, Group(start, bucket));
      if p.time < start + w {
        bucket := bucket + [p];
      } else {
        if |bucket| > 0 {
          var merged := DownsampleBucket(start, bucket);
          downsampled := downsampled + [merged];
          done := done + [Group(start, bucket)];
        }
        start, bucket := Truncate(p.time, w), [p];
      }
    }
    if |bucket| > 0 {
      var merged := DownsampleBucket(start, bucket);
      downsampled := downsampled + [merged];
      InitMore(done, Group(start, bucket));
    }
    assert points[..|points|] == points;
  }

  // ------------------------------------------------ what downsampling keeps

  function Flatten(gs: seq<Group>): seq<Point> {
    if gs == [] then [] else Flatten(Init(gs)) + Last(gs).points
  }

  lemma FlattenPlaced(gs: seq<Group>, p: Point, w: int)
    ensures Flatten(Placed(gs, p, w)) == Flatten(gs) + [p]
  {
    if gs != [] && p.time < Last(gs).start + w {
      InitMore(Init(gs), Group(Last(gs).start, Last(gs).points + [p]));
    } else {
      InitMore(gs, Group(Truncate(p.time, w), [p]));
    }
  }

  lemma WholeSequence(ps: seq<Point>)
    requires ps != []
    ensures ps == Init(ps) + [Last(ps)]
  {
  }

  /** The buckets hold all points, in their order. */
  lemma {:induction false} GroupsHoldAll(ps: seq<Point>, w: int)
    ensures Flatten(Groups(ps, w)) == ps
  {
    if ps != [] {
      var init, p := Init(ps), Last(ps);
      GroupsHoldAll(init, w);
      FlattenPlaced(Groups(init, w), p, w);
      WholeSequence(ps);
    }
  }

  lemma {:induction false} FewerNames(ps: seq<Point>)
    ensures |Names(ps)| <= Samples(ps)
  {
    if ps != [] {
      FewerNames(Init(ps));
      var a, b := Names(Init(ps)), Last(ps).stats.Keys;
      assert |a + b| == |a| + |b| - |a * b|;
      assert |b| == |Last(ps).stats|;
    }
  }

  lemma BucketNames(time: int, ps: seq<Point>)
    ensures Bucket(time, ps).stats.Keys == Names(ps)
    ensures |Bucket(time, ps).stats| <= Samples(ps)
  {
    FewerNames(ps);
    assert |Bucket(time, ps).stats| == |Bucket(time, ps).stats.Keys|;
  }

  lemma {:induction false} MergedKeepsNames(gs: seq<Group>)
    ensures Names(Merged(gs)) == Names(Flatten(gs))
    ensures Samples(Merged(gs)) <= Samples(Flatten(gs))
  {
    if gs != [] {
      var g := Last(gs);
      MergedKeepsNames(Init(gs));
      BucketNames(g.start, g.points);
      InitMore(Merged(Init(gs)), Bucket(g.start, g.points));
      SamplesConcat(Flatten(Init(gs)), g.points);
    }
  }

  /** Downsampling loses no series and adds none, and never holds more samples
      than before. */
  lemma DownsampledKeepsNames(ps: seq<Point>, t: int, w: int)
    ensures Names(Downsampled(ps, t, w)) == Names(ps)
    ensures Samples(Downsampled(ps, t, w)) <= Samples(ps)
  {
    var k := Older(ps, t);
    if k >= 2 {
      assert ps == ps[..k] + ps[k..];
      OldKeepsNames(ps[..k], ps[k..], w);
    }
  }

  lemma OldKeepsNames(a: seq<Point>, b: seq<Point>, w: int)
    ensures Names(Merged(Groups(a, w)) + b) == Names(a + b)
    ensures Samples(Merged(Groups(a, w)) + b) <= Samples(a + b)
  {
    GroupsHoldAll(a, w);
    MergedKeepsNames(Groups(a, w));
    SamplesConcat(Merged(Groups(a, w)), b);
    SamplesConcat(a, b);
  }

  /** Every point stands at the start of its bucket, past the bucket before. */
  predicate Settled(ps: seq<Point>, w: int) {
    ps == [] || (Truncate(Last(ps).time, w) == Last(ps).time && Settled(Init(ps), w)
                 && (|ps| > 1 ==> ps[|ps| - 2].time + w <= Last(ps).time))
  }

  lemma {:induction false} MergedSettles(ps: seq<Point>, w: int)
    ensures Settled(Merged(Groups(ps, w)), w)
    ensures ps != [] ==> Last(Merged(Groups(ps, w))).time == Last(Groups(ps, w)).start
  {
    if ps != [] {
      MergedSettles(Init(ps), w);
      var gs, p := Groups(Init(ps), w), Last(ps);
      TruncateTwice(p.time, w);
      if gs != [] && p.time < Last(gs).start + w {
        Resettle(gs, Last(gs).points + [p], w);
      } else {
        var g := Group(Truncate(p.time, w), [p]);
        if gs != [] {
          TruncatePast(Last(gs).start, p.time, w);
        }
        InitMore(gs, g);
        SettledMore(Merged(gs), Bucket(g.start, g.points), w);
      }
    }
  }

  lemma SettledMore(ps: seq<Point>, p: Point, w: int)
    requires Settled(ps, w) && Truncate(p.time, w) == p.time
    requires ps != [] ==> Last(ps).time + w <= p.time
    ensures Settled(ps + [p], w) && Last(ps + [p]) == p
  {
    InitMore(ps, p);
  }

  lemma Resettle(gs: seq<Group>, points: seq<Point>, w: int)
    requires gs != [] && Settled(Merged(gs), w) && Last(Merged(gs)).time == Last(gs).start
    ensures var gs' := Init(gs) + [Group(Last(gs).start, points)];
            Settled(Merged(gs'), w) && Last(Merged(gs')).time == Last(gs').start
  {
    var init, g := Init(gs), Group(Last(gs).start, points);
    InitMore(init, g);
    assert Init(Merged(gs)) == Merged(init);
    SettledMore(Merged(init), Bucket(g.start, g.points), w);
  }

  /** A bucket of one point is that point. */
  lemma BucketOfOne(p: Point)
    ensures Bucket(p.time, [p]) == p
  {
    assert Init([p]) == [];
    var stats := Bucket(p.time, [p]).stats;
    forall n | n in p.stats
      ensures n in stats && stats[n] == p.stats[n]
    {
      assert TotalOf([p], n) == Add(Total(ZERO, 0), p.stats[n]);
    }
    assert stats.Keys == p.stats.Keys;
  }

  lemma {:induction false} SettledUnchanged(ps: seq<Point>, w: int)
    requires Settled(ps, w)
    ensures Merged(Groups(ps, w)) == ps
    ensures ps != [] ==> Last(Groups(ps, w)).start == Last(ps).time
  {
    if ps != [] {
      SettledUnchanged(Init(ps), w);
      var gs, p := Groups(Init(ps), w), Last(ps);
      assert ps == Init(ps) + [p];
      InitMore(gs, Group(p.time, [p]));
      BucketOfOne(p);
      assert Groups(ps, w) == gs + [Group(p.time, [p])];
    }
  }

  predicate AllBefore(ps: seq<Point>, t: int) {
    ps == [] || (Last(ps).time < t && AllBefore(Init(ps), t))
  }

  lemma {:induction false} MergedBefore(ps: seq<Point>, t: int, w: int)
    requires AllBefore(ps, t)
    ensures AllBefore(Merged(Groups(ps, w)), t)
  {
    if ps != [] {
      MergedBefore(Init(ps), t, w);
      var gs, p := Groups(Init(ps), w), Last(ps);
      if gs != [] && p.time < Last(gs).start + w {
        InitMore(Init(gs), Group(Last(gs).start, Last(gs).points + [p]));
        InitMore(Merged(Init(gs)), Bucket(Last(gs).start, Last(gs).points + [p]));
        InitMore(Merged(Init(gs)), Bucket(Last(gs).start, Last(gs).points));
      } else {
        InitMore(gs, Group(Truncate(p.time, w), [p]));
        InitMore(Merged(gs), Bucket(Truncate(p.time, w), [p]));
      }
    }
  }

  lemma {:induction false} AllBeforeFront(ps: seq<Point>, t: int)
    ensures AllBefore(ps, t) <==> forall p :: p in ps ==> p.time < t
  {
    if ps != [] {
      AllBeforeFront(Init(ps), t);
      assert ps == Init(ps) + [Last(ps)];
    }
  }

  lemma {:induction false} OlderIsBefore(ps: seq<Point>, t: int)
    ensures var k := Older(ps, t);
            (forall p :: p in ps[..k] ==> p.time < t) && (k < |ps| ==> ps[k].time >= t)
  {
    if ps != [] && ps[0].time < t {
      OlderIsBefore(ps[1..], t);
      var k := Older(ps[1..], t);
      assert ps[..k + 1] == [ps[0]] + ps[1..][..k];
    }
  }

  lemma {:induction false} OlderOfParts(a: seq<Point>, b: seq<Point>, t: int)
    requires forall p :: p in a ==> p.time < t
    requires b != [] ==> b[0].time >= t
    ensures Older(a + b, t) == |a|
  {
    if a == [] {
      assert a + b == b;
    } else {
      OlderOfParts(a[1..], b, t);
      assert (a + b)[1..] == a[1..] + b;
    }
  }

  lemma PartsStay(a: seq<Point>, b: seq<Point>, t: int, w: int)
    requires Older(a + b, t) == |a| && Merged(Groups(a, w)) == a
    ensures Downsampled(a + b, t, w) == a + b
  {
    assert (a + b)[..|a|] == a;
    assert (a + b)[|a|..] == b;
  }

  lemma MergedPartIsOlder(ps: seq<Point>, t: int, w: int)
    ensures var k := Older(ps, t);
            var a := Merged(Groups(ps[..k], w));
            Older(a + ps[k..], t) == |a|
  {
    var k := Older(ps, t);
    var front := ps[..k];
    OlderIsBefore(ps, t);
    AllBeforeFront(front, t);
    MergedBefore(front, t, w);
    AllBeforeFront(Merged(Groups(front, w)), t);
    OlderOfParts(Merged(Groups(front, w)), ps[k..], t);
  }

  /** At a fixed clock a second run changes nothing. */
  lemma DownsampledTwice(ps: seq<Point>, t: int, w: int)
    ensures Downsampled(Downsampled(ps, t, w), t, w) == Downsampled(ps, t, w)
  {
    var k := Older(ps, t);
    if k >= 2 {
      var a := Merged(Groups(ps[..k], w));
      MergedPartIsOlder(ps, t, w);
      MergedSettles(ps[..k], w);
      SettledUnchanged(a, w);
      PartsStay(a, ps[k..], t, w);
    }
  }

  /** The points of one bucket, by the definition of a bucket. */
  function InBucket(ps: seq<Point>, b: int, w: int): (r: seq<Point>) {
    if ps == [] then []
    else if Truncate(Last(ps).time, w) == b then InBucket(Init(ps), b, w) + [Last(ps)]
    else InBucket(Init(ps), b, w)
  }

  lemma {:induction false} NoneInBucket(ps: seq<Point>, b: int, w: int)
    requires forall p :: p in ps ==> Truncate(p.time, w) != b
    ensures InBucket(ps, b, w) == []
  {
    if ps != [] {
      NoneInBucket(Init(ps), b, w);
      assert Last(ps) in ps;
    }
  }

  lemma {:induction false} AllBelowEnd(ps: seq<Point>, w: int, p: Point)
    requires w > 0 && InOrder(ps) && p in ps
    ensures p.time < Last(Groups(ps, w)).start + w && Last(Groups(ps, w)).start <= Last(ps).time
  {
    FirstIsOldest(ps, p);
    LastBucket(ps, w);
  }

  lemma {:induction false} LastBucket(ps: seq<Point>, w: int)
    requires w > 0 && InOrder(ps) && ps != []
    ensures Last(Groups(ps, w)).start == Truncate(Last(ps).time, w)
  {
    if |ps| > 1 {
      LastBucket(Init(ps), w);
      var gs, p := Groups(Init(ps), w), Last(ps);
      TruncateTwice(Last(Init(ps)).time, w);
      if p.time < Last(gs).start + w {
        SameBucket(Last(gs).start, p.time, w);
      }
    }
  }

  lemma SameBucket(start: int, t: int, w: int)
    requires w > 0 && Truncate(start, w) == start && start <= t < start + w
    ensures Truncate(t, w) == start
  {
    assert start == w * (start / w) + start % w;
    Remainder(start / w, w, t - start);
  }

  predicate Exact(gs: seq<Group>, ps: seq<Point>, w: int) {
    forall k :: 0 <= k < |gs| ==> gs[k].points == InBucket(ps, gs[k].start, w)
  }

  /** Bucket `k` starts before the last one does. */
  predicate StartsBeforeLast(gs: seq<Group>, k: nat) {
    k + 1 < |gs| ==> gs[k].start < Last(gs).start
  }

  lemma PlacedAfter(gs: seq<Group>, p: Point, w: int, k: nat)
    requires w > 0 && StartsBeforeLast(gs, k) && (gs != [] ==> Truncate(Last(gs).start, w) == Last(gs).start)
    ensures StartsBeforeLast(Placed(gs, p, w), k)
  {
    if gs != [] && p.time >= Last(gs).start + w {
      TruncatePast(Last(gs).start, p.time, w);
    }
  }

  lemma {:induction false} StartsIncrease(ps: seq<Point>, w: int, k: nat)
    requires w > 0
    ensures StartsBeforeLast(Groups(ps, w), k)
  {
    if ps != [] {
      var init, p := Init(ps), Last(ps);
      StartsIncrease(init, w, k);
      MergedSettles(init, w);
      LastSettled(Merged(Groups(init, w)), w);
      PlacedAfter(Groups(init, w), p, w, k);
    }
  }

  lemma LastSettled(ps: seq<Point>, w: int)
    requires Settled(ps, w)
    ensures ps != [] ==> Truncate(Last(ps).time, w) == Last(ps).time
  {
  }

  lemma NewBucketIsEmpty(ps: seq<Point>, p: Point, w: int)
    requires w > 0 && InOrder(ps) && (ps != [] ==> p.time >= Last(Groups(ps, w)).start + w)
    ensures InBucket(ps, Truncate(p.time, w), w) == []
  {
    forall q | q in ps
      ensures Truncate(q.time, w) != Truncate(p.time, w)
    {
      AllBelowEnd(ps, w, q);
      MergedSettles(ps, w);
      LastSettled(Merged(Groups(ps, w)), w);
      TruncatePast(Last(Groups(ps, w)).start, p.time, w);
    }
    NoneInBucket(ps, Truncate(p.time, w), w);
  }

  lemma BucketsPlaced(gs: seq<Group>, ps: seq<Point>, p: Point, w: int, k: nat)
    requires Exact(gs, ps, w) && k < |Placed(gs, p, w)|
    requires Last(Placed(gs, p, w)).start == Truncate(p.time, w) && StartsBeforeLast(Placed(gs, p, w), k)
    requires |Placed(gs, p, w)| > |gs| ==> InBucket(ps, Truncate(p.time, w), w) == []
    ensures Placed(gs, p, w)[k].points == InBucket(ps + [p], Placed(gs, p, w)[k].start, w)
  {
    InitMore(ps, p);
    if k < |gs| {
      assert gs[k].points == InBucket(ps, gs[k].start, w);
    }
  }

  /** For points in time order each bucket holds exactly the points whose time
      truncates to its start. */
  lemma {:induction false} GroupsAreBuckets(ps: seq<Point>, w: int)
    requires w > 0 && InOrder(ps)
    ensures Exact(Groups(ps, w), ps, w)
  {
    if ps != [] {
      var init, p := Init(ps), Last(ps);
      GroupsAreBuckets(init, w);
      LastBucket(ps, w);
      WholeSequence(ps);
      var gs := Groups(init, w);
      if gs == [] || p.time >= Last(gs).start + w {
        NewBucketIsEmpty(init, p, w);
      }
      forall k | 0 <= k < |Placed(gs, p, w)|
        ensures Placed(gs, p, w)[k].points == InBucket(ps, Placed(gs, p, w)[k].start, w)
      {
        StartsIncrease(ps, w, k);
        BucketsPlaced(gs, init, p, w, k);
      }
    }
  }

  // ------------------------------------------------------------ the history

  /** The oldest of the points from `i` on goes. */
  lemma DropOne(ps: seq<Point>, i: nat, t: int)
    requires i < |ps|
    ensures Samples(ps[i..]) == |ps[i].stats| + Samples(ps[i + 1..])
    ensures ps[i].time < t ==> Older(ps[i..], t) == 1 + Older(ps[i + 1..], t)
  {
    SamplesDrop(ps[i..]);
    assert ps[i..][1..] == ps[i + 1..];
  }

  lemma NoneOlder(ps: seq<Point>, i: nat, t: int)
    requires i <= |ps| && (i < |ps| ==> ps[i].time >= t)
    ensures Older(ps[i..], t) == 0
  {
  }

  /** The loop that splits old points from recent ones. */
  method FirstSince(points: seq<Point>, t: int) returns (split: nat)
    ensures split == Older(points, t)
  {
    split := 0;
    assert points[0..] == points;
    while split < |points| && points[split].time < t
      invariant split <= |points| && Older(points, t) == split + Older(points[split..], t)
    {
      assert points[split..][1..] == points[split + 1..];
      split := split + 1;
    }
  }

  /** The loop that counts the samples anew. */
  method CountSamples(points: seq<Point>) returns (samples: nat)
    ensures samples == Samples(points)
  {
    samples := 0;
    for i := 0 to |points|
      invariant samples == Samples(points[..i])
    {
      InitMore(points[..i], points[i]);
      assert points[..i + 1] == points[..i] + [points[i]];
      samples := samples + |points[i].stats|;
    }
    assert points[..|points|] == points;
  }

  class StatsHistory {
    var points: seq<Point>
    var samples: nat
    const retention: nat
    const max: nat

    ghost predicate Valid()
      reads this
    {
      samples == Samples(points)
    }

    constructor (retention: nat, max: nat)
      ensures Valid() && points == [] && this.retention == retention && this.max == max
    {
      points, samples := [], 0;
      this.retention, this.max := retention, max;
    }

    method Record(ts: int, stats: map<Name, Stats>)
      requires Valid()
      modifies this
      ensures Valid() && points == Trimmed(old(points) + [Point(ts, stats)], max)
    {
      InitMore(points, Point(ts, stats));
      points := points + [Point(ts, stats)];
      samples := samples + |stats|;
      var i := 0;
      ghost var all := points;
      assert all[0..] == all;
      while samples > max && i < |points| - 1
        invariant 0 <= i < |points| && points == all
        invariant samples == Samples(points[i..])
        invariant Dropped(all, 0, max) == Dropped(all, i, max)
      {
        DropOne(points, i, 0);
        samples := samples - |points[i].stats|;
        i := i + 1;
      }
      points := points[i..];
    }

    method Evict(now: int)
      requires Valid()
      modifies this
      ensures Valid() && points == Since(old(points), now - retention)
    {
      var cutoff := now - retention;
      var i := 0;
      ghost var all := points;
      assert all[0..] == all;
      while i < |points| && points[i].time < cutoff
        invariant 0 <= i <= |all| && points == all
        invariant samples == Samples(all[i..])
        invariant Older(all, cutoff) == i + Older(all[i..], cutoff)
      {
        DropOne(all, i, cutoff);
        samples := samples - |points[i].stats|;
        i := i + 1;
      }
      NoneOlder(all, i, cutoff);
      points := points[i..];
    }

    method Downsample(now: int, w: int)
      requires Valid()
      modifies this
      ensures Valid() && points == Downsampled(old(points), now - HOUR, w)
    {
      var hourAgo := now - HOUR;
      var split := FirstSince(points, hourAgo);
      if split < 2 {
        return;
      }
      var downsampled := MergeOld(points[..split], w);
      points := downsampled + points[split..];
      samples := CountSamples(points);
    }
  }

  // ------------------------------------------------------------------- runs

  datatype Event = Recorded(now: int, stats: map<Name, Stats>) | Evicted(now: int) | Merge(now: int, w: int)

  function Step(ps: seq<Point>, e: Event, retention: nat, max: nat): (r: seq<Point>)
    ensures Kept(ps, e.now, max) ==> Kept(r, e.now, max)
  {
    match e
    case Recorded(now, stats) => RecordKeeps(ps, Point(now, stats), max); Trimmed(ps + [Point(now, stats)], max)
    case Evicted(now) => EvictKeeps(ps, now - retention, now, max); Since(ps, now - retention)
    case Merge(now, w) => MergeKeeps(ps, now, now - HOUR, w, max); Downsampled(ps, now - HOUR, w)
  }

  function Run(es: seq<Event>, retention: nat, max: nat): seq<Point> {
    if es == [] then [] else Step(Run(Init(es), retention, max), Last(es), retention, max)
  }

  predicate ClockRuns(es: seq<Event>) {
    |es| <= 1 || (es[|es| - 2].now <= Last(es).now && ClockRuns(Init(es)))
  }

  /** In time order, nothing after `now`, within the bound. */
  predicate Kept(ps: seq<Point>, now: int, max: nat) {
    InOrder(ps) && (ps != [] ==> Last(ps).time <= now) && (Samples(ps) <= max || |ps| == 1)
  }

  lemma OrderMore(ps: seq<Point>, p: Point)
    requires InOrder(ps) && (ps != [] ==> Last(ps).time <= p.time)
    ensures InOrder(ps + [p])
  {
    InitMore(ps, p);
  }

  lemma {:induction false} OrderOfParts(a: seq<Point>, b: seq<Point>)
    requires InOrder(a) && InOrder(b)
    requires a != [] && b != [] ==> Last(a).time <= b[0].time
    ensures InOrder(a + b)
  {
    if b == [] {
      assert a + b == a;
    } else {
      OrderOfParts(a, Init(b));
      assert a + b == a + Init(b) + [Last(b)];
      OrderMore(a + Init(b), Last(b));
    }
  }

  lemma {:induction false} MergedInOrder(ps: seq<Point>, w: int)
    requires InOrder(ps)
    ensures InOrder(Merged(Groups(ps, w)))
    ensures ps != [] ==> Last(Merged(Groups(ps, w))).time <= Last(ps).time
  {
    if ps != [] {
      MergedInOrder(Init(ps), w);
      var gs, p := Groups(Init(ps), w), Last(ps);
      MergedSettles(Init(ps), w);
      if gs != [] && p.time < Last(gs).start + w {
        SameOrder(gs, Last(gs).points + [p]);
      } else {
        var g := Group(Truncate(p.time, w), [p]);
        if gs != [] {
          LastSettled(Merged(gs), w);
          StartsAfter(Last(gs).start, p.time, w, Last(Init(ps)).time);
        }
        MergedMore(gs, g);
      }
    }
  }

  lemma MergedMore(gs: seq<Group>, g: Group)
    requires InOrder(Merged(gs)) && (gs != [] ==> Last(Merged(gs)).time <= g.start)
    ensures InOrder(Merged(gs + [g])) && Last(Merged(gs + [g])).time == g.start
  {
    InitMore(gs, g);
    OrderMore(Merged(gs), Bucket(g.start, g.points));
  }

  lemma SameOrder(gs: seq<Group>, points: seq<Point>)
    requires gs != [] && InOrder(Merged(gs))
    ensures var gs' := Init(gs) + [Group(Last(gs).start, points)];
            InOrder(Merged(gs')) && Last(Merged(gs')).time == Last(gs).start
  {
    InitMore(Merged(Init(gs)), Bucket(Last(gs).start, Last(gs).points));
    MergedMore(Init(gs), Group(Last(gs).start, points));
  }

  /** A new bucket does not start before the last one. */
  lemma StartsAfter(start: int, t: int, w: int, before: int)
    requires Truncate(start, w) == start && start <= before <= t && t >= start + w
    ensures Truncate(t, w) >= start
  {
    TruncatePast(start, t, w);
  }

  lemma {:induction false} OrderOfFront(ps: seq<Point>, k: nat)
    requires InOrder(ps) && k <= |ps|
    ensures InOrder(ps[..k])
  {
    if k < |ps| {
      OrderOfFront(Init(ps), k);
      assert Init(ps)[..k] == ps[..k];
    } else {
      assert ps[..k] == ps;
    }
  }

  lemma PartsInOrder(a: seq<Point>, b: seq<Point>, w: int)
    requires InOrder(a) && InOrder(b) && a != [] && (b != [] ==> Last(a).time <= b[0].time)
    ensures var r := Merged(Groups(a, w)) + b;
            InOrder(r) && 0 < |r| <= |a| + |b| && Last(r).time <= (if b == [] then Last(a) else Last(b)).time
  {
    MergedInOrder(a, w);
    FewerGroups(a, w);
    OrderOfParts(Merged(Groups(a, w)), b);
  }

  lemma SplitInOrder(ps: seq<Point>, k: nat)
    requires InOrder(ps) && 0 < k <= |ps|
    ensures InOrder(ps[..k]) && InOrder(ps[k..])
    ensures k < |ps| ==> ps[k - 1].time <= ps[k].time
  {
    OrderOfFront(ps, k);
    OrderOfSuffix(ps, k);
    if k < |ps| {
      OrderOfFront(ps, k + 1);
      assert Last(ps[..k + 1]) == ps[k];
    }
  }

  lemma FrontMergedInOrder(ps: seq<Point>, k: nat, w: int)
    requires InOrder(ps) && 0 < k <= |ps|
    ensures var r := Merged(Groups(ps[..k], w)) + ps[k..];
            InOrder(r) && 0 < |r| <= |ps| && Last(r).time <= Last(ps).time
  {
    var a, b := ps[..k], ps[k..];
    SplitInOrder(ps, k);
    assert Last(a) == ps[k - 1] && (b != [] ==> b[0] == ps[k] && Last(b) == Last(ps));
    PartsInOrder(a, b, w);
  }

  lemma DownsampledInOrder(ps: seq<Point>, t: int, w: int)
    requires InOrder(ps)
    ensures var r := Downsampled(ps, t, w);
            InOrder(r) && |r| <= |ps| && (ps != [] ==> r != [] && Last(r).time <= Last(ps).time)
  {
    if Older(ps, t) >= 2 {
      FrontMergedInOrder(ps, Older(ps, t), w);
    }
  }

  lemma {:induction false} FewerGroups(ps: seq<Point>, w: int)
    ensures |Groups(ps, w)| <= |ps|
  {
    if ps != [] {
      FewerGroups(Init(ps), w);
    }
  }

  lemma RecordedKept(all: seq<Point>, max: nat)
    requires InOrder(all) && all != []
    ensures Kept(Trimmed(all, max), Last(all).time, max)
  {
    OrderOfSuffix(all, Dropped(all, 0, max));
  }

  lemma RecordKeeps(ps: seq<Point>, p: Point, max: nat)
    ensures Kept(ps, p.time, max) ==> Kept(Trimmed(ps + [p], max), p.time, max)
  {
    if Kept(ps, p.time, max) {
      OrderMore(ps, p);
      RecordedKept(ps + [p], max);
    }
  }

  lemma EvictKeeps(ps: seq<Point>, t: int, now: int, max: nat)
    ensures Kept(ps, now, max) ==> Kept(Since(ps, t), now, max)
  {
    if Kept(ps, now, max) {
      OrderOfSuffix(ps, Older(ps, t));
      FewerSamples(ps, Older(ps, t));
    }
  }

  lemma {:induction false} FewerSamples(ps: seq<Point>, k: nat)
    requires k <= |ps|
    ensures Samples(ps[k..]) <= Samples(ps)
  {
    if k == 0 {
      assert ps[0..] == ps;
    } else {
      SamplesDrop(ps);
      FewerSamples(ps[1..], k - 1);
      assert ps[1..][k - 1..] == ps[k..];
    }
  }

  lemma KeptLater(ps: seq<Point>, now: int, later: int, max: nat)
    requires Kept(ps, now, max) && now <= later
    ensures Kept(ps, later, max)
  {
  }

  lemma MergeKeeps(ps: seq<Point>, now: int, t: int, w: int, max: nat)
    ensures Kept(ps, now, max) ==> Kept(Downsampled(ps, t, w), now, max)
  {
    if Kept(ps, now, max) {
      var r := Downsampled(ps, t, w);
      DownsampledInOrder(ps, t, w);
      DownsampledKeepsNames(ps, t, w);
      assert r != [] ==> ps != [] by {
        assert |r| <= |ps|;
      }
    }
  }

  /** In every run with a clock that does not go back, the points are in time
      order and hold at most `max` samples, or are one point. */
  lemma {:induction false} RunKeeps(es: seq<Event>, retention: nat, max: nat)
    requires ClockRuns(es)
    ensures es != [] ==> Kept(Run(es, retention, max), Last(es).now, max)
  {
    if es != [] {
      RunKeeps(Init(es), retention, max);
      var now := if |es| > 1 then es[|es| - 2].now else Last(es).now;
      KeptLater(Run(Init(es), retention, max), now, Last(es).now, max);
    }
  }

  // ------------------------------------------------------------------ query

  /** Every `step`-th point counting back from the newest. */
  function EveryNth(ps: seq<Point>, step: nat): (r: seq<Point>)
    requires step > 0
    ensures ps == [] <==> r == []
  {
    if ps == [] then []
    else if |ps| <= step then [Last(ps)]
    else EveryNth(ps[..|ps| - step], step) + [Last(ps)]
  }

  /** The kept points are evenly spaced and end with the newest. */
  lemma {:induction false} EvenlyThinned(ps: seq<Point>, step: nat, k: nat)
    requires step > 0
    ensures var r := EveryNth(ps, step);
            k < |r| ==> k * step < |ps| && r[|r| - 1 - k] == ps[|ps| - 1 - k * step]
    ensures k * step < |ps| ==> k < |EveryNth(ps, step)|
  {
    if ps != [] {
      if |ps| <= step {
        if k > 0 {
          AtLeast(k, step);
        }
      } else if k > 0 {
        var front := ps[..|ps| - step];
        EvenlyThinned(front, step, k - 1);
        StepLess(k, step);
        assert EveryNth(ps, step) == EveryNth(front, step) + [Last(ps)];
      }
    }
  }

  lemma StepLess(k: nat, step: nat)
    requires k > 0
    ensures (k - 1) * step == k * step - step >= 0
  {
  }

  lemma AtLeast(k: nat, step: nat)
    requires k > 0 && step > 0
    ensures k * step >= step
  {
    assert (k - 1) * step >= 0;
  }

  function Accepted(ps: seq<Point>, keep: Name -> bool): set<Name> {
    set n | n in Names(ps) && keep(n)
  }

  lemma AcceptedMore(ps: seq<Point>, p: Point, keep: Name -> bool)
    ensures Accepted(ps + [p], keep) == Accepted(ps, keep) + set n | n in p.stats && keep(n)
  {
    InitMore(ps, p);
  }

  /** The points `everyNth` has kept when it comes to `i`. */
  function KeptUpTo(ps: seq<Point>, step: nat, i: nat): seq<Point>
    requires 0 < step && i < |ps| + step
  {
    if i < step then [] else EveryNth(ps[..i + 1 - step], step)
  }

  lemma KeptUpToMore(ps: seq<Point>, step: nat, i: nat)
    requires 0 < step && i < |ps|
    ensures KeptUpTo(ps, step, i + step) == KeptUpTo(ps, step, i) + [ps[i]]
  {
    if i >= step {
      assert ps[..i + 1][..i + 1 - step] == ps[..i + 1 - step];
    }
  }

  lemma OneStepLess(left: int, step: nat)
    ensures (left - 1) * step == left * step - step
  {
  }

  /** `everyNth`. */
  method Thin(points: seq<Point>, step: nat, keep: Name -> bool) returns (kept: seq<Point>, names: set<Name>)
    requires step > 0
    ensures kept == EveryNth(points, step) && names == Accepted(kept, keep)
  {
    kept, names := [], {};
    if |points| == 0 {
      return;
    }
    var i := (|points| - 1) % step;
    ghost var left := (|points| - 1) / step;
    while i < |points|
      invariant 0 <= i < |points| + step && i + left * step == |points| - 1
      invariant left >= -1
      invariant kept == KeptUpTo(points, step, i)
      invariant names == Accepted(kept, keep)
      decreases |points| - i
    {
      KeptUpToMore(points, step, i);
      AcceptedMore(kept, points[i], keep);
      OneStepLess(left, step);
      kept := kept + [points[i]];
      names := names + set n | n in points[i].stats && keep(n);
      i, left := i + step, left - 1;
    }
    assert points[..|points|] == points;
  }

  /** The parallel series of one container. */
  datatype Series = Series(cpu: seq<real>, mem: seq<nat>, netRx: seq<nat>, netTx: seq<nat>,
                           blockRead: seq<nat>, blockWrite: seq<nat>)

  function StatsOf(p: Point, n: Name): Stats {
    if n in p.stats then p.stats[n] else ZERO
  }

  function Append(t: Series, s: Stats): Series {
    Series(t.cpu + [s.cpu], t.mem + [s.gauges.memUsage], t.netRx + [s.gauges.netRx], t.netTx + [s.gauges.netTx],
           t.blockRead + [s.gauges.blockRead], t.blockWrite + [s.gauges.blockWrite])
  }

  function SeriesOf(ps: seq<Point>, n: Name): (t: Series)
    ensures |t.cpu| == |t.mem| == |t.netRx| == |t.netTx| == |t.blockRead| == |t.blockWrite| == |ps|
  {
    if ps == [] then Series([], [], [], [], [], []) else Append(SeriesOf(Init(ps), n), StatsOf(Last(ps), n))
  }

  /** Each series has the container's value at every timestamp, zero where the
      point has none. */
  lemma {:induction false} SeriesAligned(ps: seq<Point>, n: Name, i: nat)
    requires i < |ps|
    ensures var t, s := SeriesOf(ps, n), StatsOf(ps[i], n);
            t.cpu[i] == s.cpu && t.mem[i] == s.gauges.memUsage && t.netRx[i] == s.gauges.netRx
            && t.netTx[i] == s.gauges.netTx && t.blockRead[i] == s.gauges.blockRead && t.blockWrite[i] == s.gauges.blockWrite
  {
    if i < |ps| - 1 {
      SeriesAligned(Init(ps), n, i);
    }
  }

  function InRange(ps: seq<Point>, from: int, to: int): seq<Point> {
    if ps == [] then []
    else if from <= Last(ps).time <= to then InRange(Init(ps), from, to) + [Last(ps)]
    else InRange(Init(ps), from, to)
  }

  /** Unix seconds, rounded down. */
  function Timestamps(ps: seq<Point>): (r: seq<int>)
    ensures |r| == |ps|
  {
    if ps == [] then [] else Timestamps(Init(ps)) + [Last(ps).time / SECOND]
  }

  /** A query's points are exactly those within its range, each as often as it is
      in the history. */
  lemma {:induction false} InRangeExactly(ps: seq<Point>, from: int, to: int, p: Point)
    ensures multiset(InRange(ps, from, to))[p] == if from <= p.time <= to then multiset(ps)[p] else 0
  {
    if ps != [] {
      InRangeExactly(Init(ps), from, to, p);
      assert ps == Init(ps) + [Last(ps)];
    }
  }

  /** Timestamps are whole seconds, rounded down. */
  lemma {:induction false} TimestampsAreSeconds(ps: seq<Point>, i: nat)
    requires i < |ps|
    ensures Timestamps(ps)[i] * 1_000_000_000 <= ps[i].time < (Timestamps(ps)[i] + 1) * 1_000_000_000
  {
    if i < |ps| - 1 {
      TimestampsAreSeconds(Init(ps), i);
    }
  }

  lemma {:induction false} InRangeInOrder(ps: seq<Point>, from: int, to: int)
    requires InOrder(ps)
    ensures var r := InRange(ps, from, to); InOrder(r) && (r != [] ==> ps != [] && Last(r).time <= Last(ps).time)
  {
    if ps != [] {
      InRangeInOrder(Init(ps), from, to);
      if from <= Last(ps).time <= to {
        OrderMore(InRange(Init(ps), from, to), Last(ps));
      }
    }
  }

  lemma {:induction false} EveryNthInOrder(ps: seq<Point>, step: nat)
    requires InOrder(ps) && step > 0
    ensures InOrder(EveryNth(ps, step)) && (ps != [] ==> Last(EveryNth(ps, step)) == Last(ps))
  {
    if |ps| > step {
      var older := ps[..|ps| - step];
      OrderOfFront(ps, |ps| - step);
      EveryNthInOrder(older, step);
      FirstIsOldest(ps, Last(older));
      OrderMore(EveryNth(older, step), Last(ps));
    }
  }

  /** What a query selects is in time order and ends with the newest point in
      range. */
  lemma SelectionInOrder(ps: seq<Point>, from: int, to: int, step: nat)
    requires InOrder(ps) && step > 0
    ensures var inRange := InRange(ps, from, to);
            InOrder(EveryNth(inRange, step)) && (inRange != [] ==> Last(EveryNth(inRange, step)) == Last(inRange))
  {
    InRangeInOrder(ps, from, to);
    EveryNthInOrder(InRange(ps, from, to), step);
  }

  predicate Fits(ps: seq<Point>, keep: Name -> bool, maxCells: nat) {
    |Accepted(ps, keep)| * |ps| <= maxCells || |ps| <= 1
  }

  function TwoTo(e: nat): (r: nat)
    ensures r > 0
  {
    if e == 0 then 1 else 2 * TwoTo(e - 1)
  }

  /** One point of every 2 to the `e`. */
  function Thinned(ps: seq<Point>, e: nat): seq<Point> {
    EveryNth(ps, TwoTo(e))
  }

  /** Keeping one point of any smaller power of two is too much. */
  predicate NoneSmallerFits(ps: seq<Point>, e: nat, keep: Name -> bool, maxCells: nat) {
    e == 0 || (!Fits(Thinned(ps, e - 1), keep, maxCells) && NoneSmallerFits(ps, e - 1, keep, maxCells))
  }

  /** The least thinning that fits. */
  predicate LeastThinning(ps: seq<Point>, e: nat, keep: Name -> bool, maxCells: nat) {
    Fits(Thinned(ps, e), keep, maxCells) && NoneSmallerFits(ps, e, keep, maxCells)
  }

  lemma {:induction false} SmallerDoesNotFit(ps: seq<Point>, d: nat, e: nat, keep: Name -> bool, maxCells: nat)
    requires d < e && NoneSmallerFits(ps, e, keep, maxCells)
    ensures !Fits(Thinned(ps, d), keep, maxCells)
  {
    if d < e - 1 {
      SmallerDoesNotFit(ps, d, e - 1, keep, maxCells);
    }
  }

  /** A query has one answer: there is one least thinning. */
  lemma OneThinning(ps: seq<Point>, d: nat, e: nat, keep: Name -> bool, maxCells: nat)
    requires LeastThinning(ps, d, keep, maxCells) && LeastThinning(ps, e, keep, maxCells)
    ensures d == e
  {
    if d < e {
      SmallerDoesNotFit(ps, d, e, keep, maxCells);
    } else if e < d {
      SmallerDoesNotFit(ps, e, d, keep, maxCells);
    }
  }

  /** The loop that picks the points in range. */
  method SelectRange(points: seq<Point>, from: int, to: int) returns (inRange: seq<Point>)
    ensures inRange == InRange(points, from, to)
  {
    inRange := [];
    for i := 0 to |points|
      invariant inRange == InRange(points[..i], from, to)
    {
      InitMore(points[..i], points[i]);
      assert points[..i + 1] == points[..i] + [points[i]];
      if points[i].time >= from && points[i].time <= to {
        inRange := inRange + [points[i]];
      }
    }
    assert points[..|points|] == points;
  }

  lemma MoreThanOneLeft(ps: seq<Point>, e: nat, keep: Name -> bool, maxCells: nat)
    requires !Fits(Thinned(ps, e), keep, maxCells)
    ensures TwoTo(e) < |ps|
  {
  }

  /** The loop's guard. */
  method TooMany(filtered: seq<Point>, names: set<Name>, ghost keep: Name -> bool, maxCells: nat) returns (r: bool)
    requires names == Accepted(filtered, keep)
    ensures r == !Fits(filtered, keep, maxCells)
  {
    r := |names| * |filtered| > maxCells && |filtered| > 1;
  }

  /** The loop that doubles the step. */
  method ThinUntilFits(inRange: seq<Point>, keep: Name -> bool, maxCells: nat)
    returns (filtered: seq<Point>, names: set<Name>, ghost e: nat)
    ensures LeastThinning(inRange, e, keep, maxCells)
    ensures filtered == Thinned(inRange, e) && names == Accepted(filtered, keep)
  {
    var n := 1;
    e := 0;
    filtered, names := Thin(inRange, n, keep);
    var again := TooMany(filtered, names, keep, maxCells);
    while again
      invariant n == TwoTo(e) && filtered == Thinned(inRange, e) && names == Accepted(filtered, keep)
      invariant again == !Fits(filtered, keep, maxCells) && NoneSmallerFits(inRange, e, keep, maxCells)
      decreases |inRange| - n
    {
      MoreThanOneLeft(inRange, e, keep, maxCells);
      e := e + 1;
      n := n * 2;
      filtered, names := Thin(inRange, n, keep);
      again := TooMany(filtered, names, keep, maxCells);
    }
  }

  /** What a query answers: the aligned series of the accepted containers over the
      least thinning that fits. */
  ghost predicate Answers(ps: seq<Point>, keep: Name -> bool, maxCells: nat, timestamps: seq<int>, containers: map<Name, Series>) {
    exists e :: LeastThinning(ps, e, keep, maxCells) && timestamps == Timestamps(Thinned(ps, e))
                && containers == AllSeries(Thinned(ps, e), Accepted(Thinned(ps, e), keep))
  }

  /** The names a query may answer with: accepted, and in some point kept. */
  lemma {:induction false} NamesExactly(ps: seq<Point>, keep: Name -> bool, n: Name)
    ensures n in Accepted(ps, keep) <==> keep(n) && exists p :: p in ps && n in p.stats
  {
    if ps != [] {
      NamesExactly(Init(ps), keep, n);
      assert ps == Init(ps) + [Last(ps)];
    }
  }

  /** An answer has no more values per metric than `maxCells`, or only one point. */
  lemma AnswerFits(ps: seq<Point>, keep: Name -> bool, maxCells: nat, timestamps: seq<int>, containers: map<Name, Series>)
    requires Answers(ps, keep, maxCells, timestamps, containers)
    ensures |containers| * |timestamps| <= maxCells || |timestamps| <= 1
  {
    var e :| LeastThinning(ps, e, keep, maxCells) && timestamps == Timestamps(Thinned(ps, e))
             && containers == AllSeries(Thinned(ps, e), Accepted(Thinned(ps, e), keep));
    var t := Thinned(ps, e);
    if |t| > 1 {
      SeriesOfAll(t, Accepted(t, keep));
    }
  }

  lemma SeriesOfAll(ps: seq<Point>, names: set<Name>)
    requires ps != []
    ensures |AllSeries(ps, names)| == |names|
  {
    assert AllSeries(ps, names).Keys == names;
    assert |AllSeries(ps, names).Keys| == |AllSeries(ps, names)|;
  }

  /** `Query`: the points in range thinned until they fit, as aligned series. */
  method Query(points: seq<Point>, from: int, to: int, keep: Name -> bool, maxCells: nat)
    returns (timestamps: seq<int>, containers: map<Name, Series>)
    ensures Answers(InRange(points, from, to), keep, maxCells, timestamps, containers)
  {
    var inRange := SelectRange(points, from, to);
    var filtered, names, e := ThinUntilFits(inRange, keep, maxCells);
    timestamps, containers := Fill(filtered, names);
  }

  /** The result's series after the points `ps`. */
  function AllSeries(ps: seq<Point>, names: set<Name>): map<Name, Series> {
    if ps == [] then map[] else map n | n in names :: SeriesOf(ps, n)
  }

  /** The loop that fills the result. */
  method Fill(filtered: seq<Point>, names: set<Name>) returns (timestamps: seq<int>, containers: map<Name, Series>)
    ensures timestamps == Timestamps(filtered)
    ensures containers == AllSeries(filtered, names)
  {
    timestamps, containers := [], map[];
    for i := 0 to |filtered|
      invariant timestamps == Timestamps(filtered[..i])
      invariant containers == AllSeries(filtered[..i], names)
    {
      InitMore(filtered[..i], filtered[i]);
      assert filtered[..i + 1] == filtered[..i] + [filtered[i]];
      timestamps := timestamps + [filtered[i].time / SECOND];
      containers := FillPoint(containers, filtered[i], names);
      FilledIsSeries(filtered[..i], filtered[i], names);
    }
    assert filtered[..|filtered|] == filtered;
  }

  /** The series once the containers `done` have their value at `p`. */
  function FilledWith(containers: map<Name, Series>, p: Point, done: set<Name>): map<Name, Series> {
    map n | n in containers.Keys + done ::
      if n in done then Append(SeriesAt(containers, n), StatsOf(p, n)) else containers[n]
  }

  function SeriesAt(containers: map<Name, Series>, n: Name): Series {
    if n in containers then containers[n] else Series([], [], [], [], [], [])
  }

  lemma FillStep(containers: map<Name, Series>, p: Point, names: set<Name>, left: set<Name>, name: Name, before: map<Name, Series>)
    requires left <= names && name in left && before == FilledWith(containers, p, names - left)
    ensures FilledWith(containers, p, names - (left - {name})) == before[name := Append(SeriesAt(before, name), StatsOf(p, name))]
  {
    var done := names - left;
    assert names - (left - {name}) == done + {name};
    assert SeriesAt(before, name) == SeriesAt(containers, name);
  }

  method FillPoint(containers: map<Name, Series>, p: Point, names: set<Name>) returns (containers': map<Name, Series>)
    ensures containers' == FilledWith(containers, p, names)
  {
    containers' := containers;
    var left := names;
    while left != {}
      invariant left <= names && containers' == FilledWith(containers, p, names - left)
      decreases left
    {
      var name :| name in left;
      FillStep(containers, p, names, left, name, containers');
      containers' := containers'[name := Append(SeriesAt(containers', name), StatsOf(p, name))];
      left := left - {name};
    }
  }

  lemma FilledIsSeries(done: seq<Point>, p: Point, names: set<Name>)
    ensures FilledWith(AllSeries(done, names), p, names) == AllSeries(done + [p], names)
  {
    InitMore(done, p);
    forall n | n in names
      ensures SeriesOf(done + [p], n) == Append(SeriesAt(AllSeries(done, names), n), StatsOf(p, n))
    {
      assert SeriesAt(AllSeries(done, names), n) == SeriesOf(done, n);
    }
  }
}

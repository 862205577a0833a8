/** Paging log history (backend/api/logs_aggregate.go). */
module LogHistory {
  // One page merges the newest lines of several sources, and paging back from a
  // page's oldest line skips nothing (fetchLogHistory is in backend/api/logs.go).

  import opened Common
  import LogReader
  import opened LogLines
  import opened NewestLines
  import opened Reordering

  /** A container's log: stamps parse, and the log is in time order. */
  predicate Stamped(log: seq<Line>) {
    && (forall l :: l in log ==> l.time == Some(l.rank))
    && Strict(log)
  }

  predicate Strict(s: seq<Line>) {
    forall i, j :: 0 <= i < j < |s| ==> s[i].rank < s[j].rank
  }

  // ------------------------------------------------------------- one source

  /** The lines at or before `until`: Docker's Until is inclusive. */
  function UpTo(log: seq<Line>, until: Option<int>): seq<Line> {
    if until.None? then log else Older(log, Some(until.value + 1))
  }

  /** What Docker answers for Tail and Until. */
  function Answer(log: seq<Line>, tail: nat, until: Option<int>): seq<Line> {
    LastN(UpTo(log, until), tail)
  }

  function TailFor(before: Option<int>, limit: nat): nat {
    if before.Some? then limit + 1 else limit
  }

  /** The page made of an answer: read within the byte budget, without the line at
      the cursor, at most `limit` lines. */
  function PageOf(answer: seq<Line>, before: Option<int>, limit: nat, budget: nat): seq<Line> {
    LastN(Older(Newest(answer, budget), before), limit)
  }

  /** The page of a source that answers in full. */
  function Fetch(log: seq<Line>, before: Option<int>, limit: nat, budget: nat): seq<Line> {
    PageOf(Answer(log, TailFor(before, limit), before), before, limit, budget)
  }

  /** A source. One that fails or times out sends only the first lines of its
      answer, or none. */
  datatype Source = Source(log: seq<Line>, sends: Option<nat>)

  function Sent(answer: seq<Line>, sends: Option<nat>): seq<Line> {
    if sends.None? || sends.value >= |answer| then answer else answer[..sends.value]
  }

  function FetchFrom(src: Source, before: Option<int>, limit: nat, budget: nat): seq<Line> {
    PageOf(Sent(Answer(src.log, TailFor(before, limit), before), src.sends), before, limit, budget)
  }

  method FetchLogHistory(src: Source, before: Option<int>, limit: nat, budget: nat) returns (lines: seq<Line>)
    ensures lines == FetchFrom(src, before, limit, budget)
    ensures src.sends.None? ==> lines == Fetch(src.log, before, limit, budget)
  {
    var tail := TailFor(before, limit);
    var sent := Sent(Answer(src.log, tail, before), src.sends);
    assert |sent| <= tail && sent[..|sent|] == sent;
    lines := ReadLogLines(sent, tail, budget);
    lines := Older(lines, before);
    if |lines| > limit {
      lines := lines[|lines| - limit..];
    }
  }

  // ------------------------------------------------------------- one page

  predicate MayHoldOlderSpec(lines: seq<Line>, limit: nat, budget: nat, maxLine: nat) {
    lines != [] && (|lines| >= limit || Size(lines) > budget - maxLine)
  }

  method MayHoldOlder(lines: seq<Line>, limit: nat, budget: nat, maxLine: nat) returns (r: bool)
    ensures r == MayHoldOlderSpec(lines, limit, budget, maxLine)
  {
    if |lines| == 0 {
      return false;
    }
    var size := 0;
    for i := 0 to |lines|
      invariant size == Size(lines[..i])
    {
      SizeConcat(lines[..i], [lines[i]]);
      assert lines[..i + 1] == lines[..i] + [lines[i]];
      size := size + |lines[i].text|;
    }
    assert lines[..|lines|] == lines;
    return |lines| >= limit || size > budget - maxLine;
  }

  function Raise(floor: Option<int>, lines: seq<Line>, limit: nat, budget: nat, maxLine: nat): Option<int> {
    if MayHoldOlderSpec(lines, limit, budget, maxLine) && (floor.None? || lines[0].rank > floor.value)
    then Some(lines[0].rank) else floor
  }

  /** Where the latest-ending cut source's lines end. */
  function Floor(pages: seq<seq<Line>>, limit: nat, budget: nat, maxLine: nat): Option<int> {
    if pages == [] then None
    else Raise(Floor(pages[..|pages| - 1], limit, budget, maxLine), pages[|pages| - 1], limit, budget, maxLine)
  }

  function Concat(pages: seq<seq<Line>>): seq<Line> {
    if pages == [] then [] else Concat(pages[..|pages| - 1]) + pages[|pages| - 1]
  }

  lemma Extend(pages: seq<seq<Line>>, page: seq<Line>, limit: nat, budget: nat, maxLine: nat)
    ensures Concat(pages + [page]) == Concat(pages) + page
    ensures Floor(pages + [page], limit, budget, maxLine)
            == Raise(Floor(pages, limit, budget, maxLine), page, limit, budget, maxLine)
  {
    assert (pages + [page])[..|pages|] == pages;
  }

  function FetchAll(srcs: seq<Source>, before: Option<int>, limit: nat, budget: nat): (r: seq<seq<Line>>)
    ensures |r| == |srcs|
    ensures forall i :: 0 <= i < |srcs| ==> r[i] == FetchFrom(srcs[i], before, limit, budget)
  {
    if srcs == [] then [] else FetchAll(Init(srcs), before, limit, budget) + [FetchFrom(Last(srcs), before, limit, budget)]
  }

  /** The lines from the first one at or after the floor: `slices.BinarySearchFunc`
      and the slice from its answer. */
  function From(lines: seq<Line>, floor: Option<int>): seq<Line> {
    if lines == [] || floor.None? || lines[0].rank >= floor.value then lines else From(lines[1..], floor)
  }

  /** The page of sources that answer in the order `srcs`. */
  function Collect(srcs: seq<Source>, before: Option<int>, limit: nat, budget: nat, maxLine: nat): seq<Line> {
    var pages := FetchAll(srcs, before, limit, budget);
    From(Page(Concat(pages), before, limit, budget), Floor(pages, limit, budget, maxLine))
  }

  /** `collectHistory`, the sources taking the lock in the order of `srcs`. */
  method CollectHistory(srcs: seq<Source>, before: Option<int>, limit: nat, budget: nat, maxLine: nat)
      returns (lines: seq<Line>)
    ensures lines == Collect(srcs, before, limit, budget, maxLine)
  {
    var page := new Selector(before, limit, budget);
    var floor := MergeSources(page, srcs, maxLine);
    lines := page.Result();
    lines := From(lines, floor);
  }

  lemma TakeOneMore<T>(s: seq<T>, i: nat)
    requires i < |s|
    ensures s[..i + 1] == s[..i] + [s[i]]
  {
  }

  method MergeSources(page: Selector, srcs: seq<Source>, maxLine: nat) returns (floor: Option<int>)
    requires page.Valid() && page.stream == []
    modifies page
    ensures page.Valid() && page.stream == Concat(FetchAll(srcs, page.cut, page.limit, page.budget))
    ensures floor == Floor(FetchAll(srcs, page.cut, page.limit, page.budget), page.limit, page.budget, maxLine)
  {
    floor := None;
    ghost var all := FetchAll(srcs, page.cut, page.limit, page.budget);
    ghost var pages := [];
    for i := 0 to |srcs|
      invariant page.Valid() && page.stream == Concat(pages) && floor == Floor(pages, page.limit, page.budget, maxLine)
      invariant pages == all[..i]
    {
      TakeOneMore(all, i);
      floor, pages := MergeSource(page, floor, srcs[i], maxLine, pages);
    }
    assert all[..|srcs|] == all;
  }

  /** One source's answer joins the page under the lock. */
  method MergeSource(page: Selector, floor: Option<int>, src: Source, maxLine: nat, ghost pages: seq<seq<Line>>)
      returns (floor': Option<int>, ghost pages': seq<seq<Line>>)
    requires page.Valid() && page.stream == Concat(pages) && floor == Floor(pages, page.limit, page.budget, maxLine)
    modifies page
    ensures pages' == pages + [FetchFrom(src, page.cut, page.limit, page.budget)]
    ensures page.Valid() && page.stream == Concat(pages')
    ensures floor' == Floor(pages', page.limit, page.budget, maxLine)
  {
    var lines := FetchLogHistory(src, page.cut, page.limit, page.budget);
    pages' := pages + [lines];
    Extend(pages, lines, page.limit, page.budget, maxLine);
    var full := MayHoldOlder(lines, page.limit, page.budget, maxLine);
    floor' := if full && (floor.None? || lines[0].rank > floor.value) then Some(lines[0].rank) else floor;
    AddAll(page, lines);
  }

  method AddAll(page: Selector, lines: seq<Line>)
    requires page.Valid()
    modifies page
    ensures page.Valid() && page.stream == old(page.stream) + lines
  {
    for j := 0 to |lines|
      invariant page.Valid() && page.stream == old(page.stream) + lines[..j]
    {
      page.Add(lines[j]);
      assert lines[..j + 1] == lines[..j] + [lines[j]];
    }
    assert lines[..|lines|] == lines;
  }

  // ------------------------------------------- facts about each ingredient

  lemma {:induction false} OlderMembers(s: seq<Line>, cut: Option<int>)
    ensures forall x :: x in Older(s, cut) <==> x in s && !Excluded(x, cut)
    ensures multiset(Older(s, cut)) <= multiset(s)
  {
    if s != [] {
      OlderMembers(s[..|s| - 1], cut);
      assert s == s[..|s| - 1] + [s[|s| - 1]];
    }
  }

  /** The cursor splits a log: what it keeps, then what it drops. */
  ghost predicate Splits(log: seq<Line>, h: seq<Line>, t: seq<Line>, cut: Option<int>) {
    && log == h + t
    && (forall x :: x in h ==> !Excluded(x, cut))
    && (forall x :: x in t ==> Excluded(x, cut))
  }

  lemma {:induction false} SplitAtCursor(log: seq<Line>, cut: Option<int>) returns (h: seq<Line>, t: seq<Line>)
    requires Stamped(log)
    ensures Splits(log, h, t, cut)
  {
    if log == [] {
      h, t := [], [];
    } else {
      var init, last := log[..|log| - 1], log[|log| - 1];
      assert log == init + [last];
      PartIsStamped(init, [last]);
      if Excluded(last, cut) {
        h, t := SplitAtCursor(init, cut);
        t := t + [last];
      } else {
        h, t := log, [];
        forall x | x in log ensures !Excluded(x, cut) {
          LastIsHighest(log, x);
        }
      }
    }
  }

  lemma {:induction false} OlderOfSplit(log: seq<Line>, h: seq<Line>, t: seq<Line>, cut: Option<int>)
    requires Splits(log, h, t, cut)
    ensures Older(log, cut) == h
  {
    if log != [] {
      var init, last := log[..|log| - 1], log[|log| - 1];
      assert last in log && log == init + [last];
      if t == [] {
        assert h == init + [last] && last in h;
        OlderOfSplit(init, init, [], cut);
      } else {
        assert t[|t| - 1] == last && last in t;
        assert init == h + t[..|t| - 1];
        OlderOfSplit(init, h, t[..|t| - 1], cut);
      }
    }
  }

  lemma OlderOfKept(s: seq<Line>, cut: Option<int>)
    requires forall x :: x in s ==> !Excluded(x, cut)
    ensures Older(s, cut) == s
  {
    assert s + [] == s;
    OlderOfSplit(s, s, [], cut);
  }

  lemma PartIsStamped(a: seq<Line>, b: seq<Line>)
    requires Stamped(a + b)
    ensures Stamped(a) && Stamped(b)
  {
    assert forall l :: l in a ==> l in a + b;
    assert forall l :: l in b ==> l in a + b;
    assert forall i :: 0 <= i < |a| ==> a[i] == (a + b)[i];
    assert forall i :: 0 <= i < |b| ==> b[i] == (a + b)[|a| + i];
  }

  /** Every `n` consecutive lines fit in a page. */
  ghost predicate Roomy(s: seq<Line>, n: nat, budget: nat) {
    forall i, j :: 0 <= i <= j <= |s| && j <= i + n ==> FitsBytes(s[i..j], budget)
  }

  /** The lines up to the cursor are `up`, of which at most the last, at the
      cursor, is not older than it. */
  ghost predicate Before(log: seq<Line>, up: seq<Line>, h: seq<Line>, c: seq<Line>, before: Option<int>, limit: nat) {
    && up <= log && UpTo(log, before) == up && Splits(up, h, c, before) && Older(log, before) == h
    && |c| <= 1 && limit + |c| <= TailFor(before, limit)
  }

  lemma CursorParts(log: seq<Line>, up: seq<Line>, later: seq<Line>, before: int) returns (h: seq<Line>, c: seq<Line>)
    requires Stamped(log) && Splits(log, up, later, Some(before + 1))
    ensures Splits(up, h, c, Some(before)) && Older(log, Some(before)) == h && |c| <= 1
  {
    PartIsStamped(up, later);
    h, c := SplitAtCursor(up, Some(before));
    AtMostCursor(up, h, c, before);
    assert log == h + (c + later);
    LaterIsExcluded(later, before);
    OlderOfSplit(log, h, c + later, Some(before));
  }

  lemma AtCursor(log: seq<Line>, before: Option<int>, limit: nat) returns (up: seq<Line>, h: seq<Line>, c: seq<Line>)
    requires Stamped(log)
    ensures Before(log, up, h, c, before, limit)
  {
    if before.None? {
      OlderOfAll(log);
      up, h, c := log, log, [];
    } else {
      up, h, c := AtStamp(log, before.value);
    }
  }

  lemma AtStamp(log: seq<Line>, before: int) returns (up: seq<Line>, h: seq<Line>, c: seq<Line>)
    requires Stamped(log)
    ensures up <= log && Older(log, Some(before + 1)) == up && Splits(up, h, c, Some(before))
    ensures Older(log, Some(before)) == h && |c| <= 1
  {
    var later;
    up, later := SplitAtCursor(log, Some(before + 1));
    OlderOfSplit(log, up, later, Some(before + 1));
    h, c := CursorParts(log, up, later, before);
  }

  lemma LaterIsExcluded(later: seq<Line>, before: int)
    requires forall x :: x in later ==> Excluded(x, Some(before + 1))
    ensures forall x :: x in later ==> Excluded(x, Some(before))
  {
  }

  /** Only the line at the cursor separates "up to" from "older than". */
  lemma AtMostCursor(up: seq<Line>, h: seq<Line>, c: seq<Line>, before: int)
    requires Stamped(up) && Splits(up, h, c, Some(before))
    requires forall x :: x in up ==> !Excluded(x, Some(before + 1))
    ensures |c| <= 1
  {
    PartIsStamped(h, c);
    assert |c| <= 1 || c[0].rank < c[1].rank;
    forall i | 0 <= i < |c| ensures c[i].rank == before {
      assert c[i] in c && up[|h| + i] == c[i] && c[i] in up;
    }
  }

  /** What is read of an answer is an end of it; without the line at the cursor it
      is an end of what is older. */
  lemma ReadEnd(up: seq<Line>, h: seq<Line>, c: seq<Line>, u: seq<Line>, before: Option<int>)
    requires Splits(up, h, c, before) && Suffix(u, up)
    ensures Suffix(Older(u, before), h)
    ensures |u| >= |c| ==> |Older(u, before)| == |u| - |c|
  {
    if |u| <= |c| {
      assert u == c[|c| - |u|..];
      OlderOfSplit(u, [], u, before);
    } else {
      var k := h[|h| + |c| - |u|..];
      assert u == k + c;
      OlderOfSplit(u, k, c, before);
    }
  }

  lemma SuffixOfSuffix(a: seq<Line>, b: seq<Line>, c: seq<Line>)
    requires Suffix(a, b) && Suffix(b, c)
    ensures Suffix(a, c)
  {
  }

  lemma LastNIsSuffix(s: seq<Line>, n: nat)
    ensures Suffix(LastN(s, n), s)
  {
  }

  lemma NewestIsSuffix(s: seq<Line>, budget: nat)
    ensures Suffix(Newest(s, budget), s)
  {
    var a := NewestStops(s, budget);
  }

  /** What the budget keeps includes every end that fits. */
  lemma NewestKeeps(s: seq<Line>, k: nat, budget: nat)
    requires k <= |s| && FitsBytes(s[|s| - k..], budget)
    ensures |Newest(s, budget)| >= k
  {
    assert s == s[..|s| - k] + s[|s| - k..];
    FittingIsInCut(s[..|s| - k], s[|s| - k..], |s|, budget);
  }

  /** With pages under the byte bound, a source answers its newest lines older
      than the cursor. */
  lemma FetchIsTail(log: seq<Line>, before: Option<int>, limit: nat, budget: nat)
    requires Stamped(log) && Roomy(log, limit + 1, budget)
    ensures Fetch(log, before, limit, budget) == LastN(Older(log, before), limit)
  {
    var up, h, c := AtCursor(log, before, limit);
    assert up == log[..|up|];
    RoomyTail(log, |up|, limit + 1, TailFor(before, limit), budget);
    EndOfAnswer(up, h, c, before, limit);
  }

  lemma EndOfAnswer(up: seq<Line>, h: seq<Line>, c: seq<Line>, before: Option<int>, limit: nat)
    requires Splits(up, h, c, before) && limit + |c| <= TailFor(before, limit)
    ensures LastN(Older(LastN(up, TailFor(before, limit)), before), limit) == LastN(h, limit)
  {
    var answer := LastN(up, TailFor(before, limit));
    LastNIsSuffix(up, TailFor(before, limit));
    ReadEnd(up, h, c, answer, before);
    SameEnd(h, Older(answer, before), limit);
  }

  lemma RoomyTail(s: seq<Line>, up: nat, n: nat, m: nat, budget: nat)
    requires Roomy(s, n, budget) && up <= |s| && m <= n
    ensures FitsBytes(LastN(s[..up], m), budget)
  {
    var t := LastN(s[..up], m);
    assert t == s[up - |t|..up];
  }

  lemma SameEnd(h: seq<Line>, u: seq<Line>, limit: nat)
    requires Suffix(u, h) && (u == h || |u| >= limit)
    ensures LastN(u, limit) == LastN(h, limit)
  {
  }

  /** The lines older than the first line of an end of a log are what is left. */
  lemma OlderThanEnd(all: seq<Line>, h: seq<Line>, t: seq<Line>)
    requires Stamped(all) && all == h + t && t != []
    ensures Older(all, Some(t[0].rank)) == h
  {
    forall x | x in h ensures !Excluded(x, Some(t[0].rank)) {
      var i :| 0 <= i < |h| && h[i] == x;
      assert all[i] == x && all[|h|] == t[0] && x in all;
    }
    forall x | x in t ensures Excluded(x, Some(t[0].rank)) {
      var i :| 0 <= i < |t| && t[i] == x;
      assert all[|h| + i] == x && all[|h|] == t[0] && x in all;
    }
    OlderOfSplit(all, h, t, Some(t[0].rank));
  }

  // ------------------------------------------------- paging one source

  /** The page is an end of what is older than the cursor, and empty only when
      nothing is. */
  predicate NoGap(page: seq<Line>, older: seq<Line>) {
    Suffix(page, older) && (page == [] ==> older == [])
  }

  /** What a source sends is an end of what is older than the cursor, whatever the
      bounds are. */
  lemma FetchIsEnd(log: seq<Line>, before: Option<int>, limit: nat, budget: nat)
    requires Stamped(log)
    ensures Suffix(Fetch(log, before, limit, budget), Older(log, before))
  {
    var up, h, c := AtCursor(log, before, limit);
    var answer := LastN(up, TailFor(before, limit));
    var read := Newest(answer, budget);
    LastNIsSuffix(up, TailFor(before, limit));
    NewestIsSuffix(answer, budget);
    SuffixOfSuffix(read, answer, up);
    ReadEnd(up, h, c, read, before);
    LastNIsSuffix(Older(read, before), limit);
    SuffixOfSuffix(LastN(Older(read, before), limit), Older(read, before), h);
  }

  lemma ReadFindsOlder(up: seq<Line>, h: seq<Line>, c: seq<Line>, read: seq<Line>, before: Option<int>, limit: nat)
    requires Splits(up, h, c, before) && Suffix(read, up) && |read| > |c| && limit > 0
    ensures LastN(Older(read, before), limit) != []
  {
    ReadEnd(up, h, c, read, before);
  }

  lemma FetchFindsOlder(log: seq<Line>, before: Option<int>, limit: nat, budget: nat)
    requires Stamped(log) && Roomy(log, 2, budget) && limit > 0 && Older(log, before) != []
    ensures Fetch(log, before, limit, budget) != []
  {
    var up, h, c := AtCursor(log, before, limit);
    var tail := TailFor(before, limit);
    var answer := LastN(up, tail);
    assert up == log[..|up|];
    LastTwoRead(log, |up|, tail, |c| + 1, budget);
    LastNIsSuffix(up, tail);
    NewestIsSuffix(answer, budget);
    SuffixOfSuffix(Newest(answer, budget), answer, up);
    ReadFindsOlder(up, h, c, Newest(answer, budget), before, limit);
  }

  lemma LastTwoRead(log: seq<Line>, up: nat, tail: nat, k: nat, budget: nat)
    requires Roomy(log, 2, budget) && k <= up <= |log| && k <= 2 && k <= tail
    ensures |Newest(LastN(log[..up], tail), budget)| >= k
  {
    var answer := LastN(log[..up], tail);
    assert answer[|answer| - k..] == log[up - k..up];
    NewestKeeps(answer, k, budget);
  }

  /** A single source's page never has a gap, and is never empty while something
      older exists, as long as any two lines that follow each other fit. */
  lemma OneSourceHasNoGap(log: seq<Line>, before: Option<int>, limit: nat, budget: nat)
    requires Stamped(log) && Roomy(log, 2, budget) && limit > 0
    ensures NoGap(Fetch(log, before, limit, budget), Older(log, before))
  {
    FetchIsEnd(log, before, limit, budget);
    if Older(log, before) != [] {
      FetchFindsOlder(log, before, limit, budget);
    }
  }

  /** Lines of at most `m` bytes leave room for `n` of them in `n * m` bytes. */
  lemma {:induction false} RoomForShort(s: seq<Line>, m: nat, n: nat, budget: nat)
    requires AtMost(s, m) && m * n <= budget
    ensures Roomy(s, n, budget)
  {
    forall i, j | 0 <= i <= j <= |s| && j <= i + n
      ensures FitsBytes(s[i..j], budget)
    {
      AtMostMembers(s, m);
      AtMostMembers(s[i..j], m);
      SizeAtMost(s[i..j], m);
      Times(m, j - i, n);
    }
  }

  ghost predicate OneSourceGapFree(log: seq<Line>, before: Option<int>, m: nat, limit: nat, budget: nat) {
    Stamped(log) && AtMost(log, m) ==> NoGap(Fetch(log, before, limit, budget), Older(log, before))
  }

  lemma OnlyLastRead(d: seq<Line>, s: seq<Line>, budget: nat)
    requires |d| == 1 && FitsBytes(s, budget) && s != [] && Size(d) + Size(s) > budget
    ensures Newest(d + s, budget) == s
  {
    SizeConcat(d, s);
    assert [Last(d)] == d;
    NewestIsLongest(d, s, budget);
  }

  lemma ReadWithout(d: Line, s: seq<Line>, c: Line, budget: nat)
    requires FitsBytes(s + [c], budget) && |d.text| + Size(s) + |c.text| > budget
    ensures Newest([d] + s + [c], budget) == s + [c]
  {
    SizeConcat(s, [c]);
    assert Size([c]) == |c.text| && Size([d]) == |d.text|;
    assert [d] + s + [c] == [d] + (s + [c]);
    OnlyLastRead([d], s + [c], budget);
  }

  lemma LastLine(d: Line, s: seq<Line>, c: Line)
    requires Stamped([d] + s + [c])
    ensures UpTo([d] + s + [c], Some(c.rank)) == [d] + s + [c] && Older(s + [c], Some(c.rank)) == s
    ensures Older([d] + s + [c], Some(c.rank)) == [d] + s
  {
    UpToLast([d] + s + [c]);
    OlderThanLast([d] + s, c);
    assert [d] + s + [c] == [d] + (s + [c]);
    PartIsStamped([d], s + [c]);
    OlderThanLast(s, c);
  }

  /** What is read when the line before `s + [c]` does not fit, with the cursor
      at `c`. */
  lemma FetchWithout(d: Line, s: seq<Line>, c: Line, limit: nat, budget: nat)
    requires Stamped([d] + s + [c]) && |s| < limit
    requires FitsBytes(s + [c], budget) && |d.text| + Size(s) + |c.text| > budget
    ensures Fetch([d] + s + [c], Some(c.rank), limit, budget) == s
    ensures Older([d] + s + [c], Some(c.rank)) == [d] + s
  {
    LastLine(d, s, c);
    ReadWithout(d, s, c, budget);
  }

  lemma OlderThanLast(s: seq<Line>, c: Line)
    requires Stamped(s + [c])
    ensures Older(s + [c], Some(c.rank)) == s
  {
    OlderThanEnd(s + [c], s, [c]);
  }

  lemma NoneAfterLast(log: seq<Line>, k: int)
    requires Stamped(log) && log != [] && Last(log).rank < k
    ensures forall x :: x in log ==> !Excluded(x, Some(k))
  {
    forall x | x in log ensures !Excluded(x, Some(k)) {
      LastIsHighest(log, x);
    }
  }

  lemma UpToLast(log: seq<Line>)
    requires Stamped(log) && log != []
    ensures UpTo(log, Some(Last(log).rank)) == log
  {
    var k := Last(log).rank + 1;
    NoneAfterLast(log, k);
    OlderOfKept(log, Some(k));
  }

  lemma StampedPair(d: Line, c: Line)
    requires d.time == Some(d.rank) && c.time == Some(c.rank) && d.rank < c.rank
    ensures Stamped([d] + [] + [c])
  {
    assert [d] + [] + [c] == [d, c];
  }

  lemma OneSourceGap(m: nat, limit: nat, budget: nat) returns (log: seq<Line>, before: Option<int>)
    requires limit > 0 && 2 * m > budget
    ensures Stamped(log) && AtMost(log, m)
    ensures Fetch(log, before, limit, budget) == [] && Older(log, before) != []
  {
    var d, c := Sized(0, m), Sized(1, m);
    StampedPair(d, c);
    log, before := [d] + [] + [c], Some(c.rank);
    assert [] + [c] == [c];
    FetchWithout(d, [], c, limit, budget);
    PairAtMost(d, c, m);
  }

  lemma PairAtMost(d: Line, c: Line, m: nat)
    requires |d.text| <= m && |c.text| <= m
    ensures AtMost([d] + [] + [c], m)
  {
    AtMostMore([], d, m);
    assert [] + [d] == [d] && [d] + [] == [d];
    AtMostMore([d], c, m);
  }

  /** Over all logs with lines of at most `m` bytes, a source pages without gaps
      if and only if two such lines fit. */
  lemma OneSourceGapFreeExactly(m: nat, limit: nat, budget: nat)
    requires limit > 0
    ensures (forall log, before :: OneSourceGapFree(log, before, m, limit, budget)) <==> 2 * m <= budget
  {
    if 2 * m <= budget {
      forall log, before ensures OneSourceGapFree(log, before, m, limit, budget) {
        if Stamped(log) && AtMost(log, m) {
          RoomForShort(log, m, 2, budget);
          OneSourceHasNoGap(log, before, limit, budget);
        }
      }
    } else {
      var log, before := OneSourceGap(m, limit, budget);
      assert !OneSourceGapFree(log, before, m, limit, budget);
    }
  }

  // ------------------------------------------- ends of strictly ordered lines

  lemma SuffixIsPart(a: seq<Line>, b: seq<Line>)
    requires Suffix(a, b)
    ensures multiset(a) <= multiset(b)
  {
    assert b == b[..|b| - |a|] + a;
  }

  lemma InitMember(s: seq<Line>, x: Line)
    requires Strict(s) && s != []
    ensures x in s[..|s| - 1] <==> x in s && x.rank < Last(s).rank
  {
    if x in s {
      var i :| 0 <= i < |s| && s[i] == x;
      assert i < |s| - 1 ==> s[..|s| - 1][i] == x;
    }
    assert s == s[..|s| - 1] + [Last(s)];
  }

  lemma LastIsHighest(s: seq<Line>, x: Line)
    requires Strict(s) && x in s
    ensures x.rank < Last(s).rank || x == Last(s)
  {
    InitMember(s, x);
    assert s == s[..|s| - 1] + [Last(s)];
  }

  ghost predicate UpwardClosed(p: seq<Line>, e: seq<Line>) {
    && (forall x :: x in p ==> x in e)
    && (forall x, y :: x in e && y in p && x.rank > y.rank ==> x in p)
  }

  lemma SameLast(p: seq<Line>, e: seq<Line>)
    requires Strict(p) && Strict(e) && UpwardClosed(p, e) && p != []
    ensures e != [] && Last(p) == Last(e)
  {
    assert Last(p) in p;
    LastIsHighest(e, Last(p));
    if Last(e) in p {
      LastIsHighest(p, Last(e));
    }
  }

  lemma InitsUpwardClosed(p: seq<Line>, e: seq<Line>)
    requires Strict(p) && Strict(e) && UpwardClosed(p, e) && p != [] && e != [] && Last(p) == Last(e)
    ensures UpwardClosed(p[..|p| - 1], e[..|e| - 1])
  {
    forall x ensures x in p[..|p| - 1] <==> x in p && x.rank < Last(p).rank {
      InitMember(p, x);
    }
    forall x ensures x in e[..|e| - 1] <==> x in e && x.rank < Last(e).rank {
      InitMember(e, x);
    }
  }

  lemma SuffixMore(p: seq<Line>, e: seq<Line>)
    requires p != [] && e != [] && Suffix(p[..|p| - 1], e[..|e| - 1]) && Last(p) == Last(e)
    ensures Suffix(p, e)
  {
    assert e[|e| - |p|..] == e[..|e| - 1][|e| - |p|..] + [Last(e)];
  }

  /** A part of a strictly ordered sequence that leaves out nothing newer than
      any of its lines is an end of it. */
  lemma {:induction false} UpwardClosedIsSuffix(p: seq<Line>, e: seq<Line>)
    requires Strict(p) && Strict(e) && UpwardClosed(p, e)
    ensures Suffix(p, e)
  {
    if p != [] {
      SameLast(p, e);
      InitsUpwardClosed(p, e);
      UpwardClosedIsSuffix(p[..|p| - 1], e[..|e| - 1]);
      SuffixMore(p, e);
    }
  }

  lemma EndIsStrict(a: seq<Line>, b: seq<Line>)
    requires Strict(b) && Suffix(a, b)
    ensures Strict(a)
  {
    assert forall i :: 0 <= i < |a| ==> a[i] == b[|b| - |a| + i];
  }

  lemma LastNUpward(s: seq<Line>, n: nat, x: Line, y: Line)
    requires Sorted(s) && x in s && y in LastN(s, n) && x.rank > y.rank
    ensures x in LastN(s, n)
  {
    var t := LastN(s, n);
    var i :| 0 <= i < |s| && s[i] == x;
    var j :| 0 <= j < |t| && t[j] == y;
    var k := |s| - |t|;
    assert s[k + j] == y;
    if k + j < i {
      assert t[i - k] == x;
    }
  }

  // ------------------------------------------------ a cut source tells so

  /** The page of a source is an end of what it has, and if it is not all of it,
      the page says that older lines may follow. */
  predicate Told(page: seq<Line>, older: seq<Line>, limit: nat, budget: nat, maxLine: nat) {
    Suffix(page, older) && (page == older || MayHoldOlderSpec(page, limit, budget, maxLine))
  }

  /** No line is longer than half of `maxLine`. */
  predicate Short(log: seq<Line>, budget: nat, maxLine: nat) {
    AtMost(log, maxLine / 2) && maxLine <= budget
  }

  lemma TailTells(log: seq<Line>, before: Option<int>, limit: nat, budget: nat, maxLine: nat)
    requires Stamped(log) && Roomy(log, limit + 1, budget) && limit > 0
    ensures Told(Fetch(log, before, limit, budget), Older(log, before), limit, budget, maxLine)
  {
    FetchIsTail(log, before, limit, budget);
    LastNIsSuffix(Older(log, before), limit);
  }

  /** A line the budget shut out was at most `m` bytes too much. */
  lemma ByteCut(answer: seq<Line>, m: nat, budget: nat)
    requires Newest(answer, budget) != answer && AtMost(answer, m)
    ensures Size(Newest(answer, budget)) + m > budget
  {
    var read := Newest(answer, budget);
    var a := NewestStops(answer, budget);
    assert a != [] by {
      assert [] + read == read;
    }
    SizeConcat([Last(a)], read);
    assert Size([Last(a)]) == |Last(a).text|;
    AtMostMembers(answer, m);
    assert Last(a) in a && Last(a) in answer;
  }

  /** Dropping the line at the cursor takes at most `m` bytes more. */
  lemma WithoutCursor(up: seq<Line>, h: seq<Line>, c: seq<Line>, u: seq<Line>, before: Option<int>, m: nat)
    requires Splits(up, h, c, before) && Suffix(u, up) && |c| <= 1 && Size(c) <= m
    ensures Size(u) <= Size(Older(u, before)) + m
  {
    if |u| <= |c| {
      assert u == [] || u == c;
    } else {
      var k := h[|h| + |c| - |u|..];
      assert u == k + c;
      OlderOfSplit(u, k, c, before);
      SizeConcat(k, c);
    }
  }

  lemma CutTells(o: seq<Line>, limit: nat, budget: nat, maxLine: nat)
    requires Size(o) > budget - maxLine && o != [] && limit > 0
    ensures MayHoldOlderSpec(LastN(o, limit), limit, budget, maxLine)
  {
  }

  lemma PartsAtMost(up: seq<Line>, h: seq<Line>, c: seq<Line>, m: nat)
    requires up == h + c && AtMost(up, m) && |c| <= 1
    ensures Size(c) <= m
  {
    EndAtMost(up, |h|, m);
    assert c == up[|h|..];
    SizeAtMost(c, m);
    Times(m, |c|, 1);
  }

  lemma AnswerAtMost(log: seq<Line>, up: seq<Line>, tail: nat, m: nat)
    requires AtMost(log, m) && up <= log
    ensures AtMost(up, m) && AtMost(LastN(up, tail), m)
  {
    AtMostMembers(log, m);
    assert log == up + log[|up|..];
    AtMostMembers(up, m);
    AtMostMembers(LastN(up, tail), m);
  }

  /** When lines are at most half as long as the margin, a page cut by bytes is
      within the margin even without the line at the cursor. */
  lemma ShortTells(log: seq<Line>, before: Option<int>, m: nat, limit: nat, budget: nat, maxLine: nat)
    requires Stamped(log) && AtMost(log, m) && 2 * m <= maxLine && 2 * m <= budget && limit > 0
    ensures Told(Fetch(log, before, limit, budget), Older(log, before), limit, budget, maxLine)
  {
    var up, h, c := AtCursor(log, before, limit);
    var tail := TailFor(before, limit);
    var answer := LastN(up, tail);
    AnswerAtMost(log, up, tail, m);
    PartsAtMost(up, h, c, m);
    FetchIsEnd(log, before, limit, budget);
    if Newest(answer, budget) == answer {
      EndOfAnswer(up, h, c, before, limit);
    } else {
      ByteCutTells(up, h, c, answer, before, m, limit, budget, maxLine);
    }
  }

  lemma ByteCutTells(up: seq<Line>, h: seq<Line>, c: seq<Line>, answer: seq<Line>, before: Option<int>,
                     m: nat, limit: nat, budget: nat, maxLine: nat)
    requires Splits(up, h, c, before) && |c| <= 1 && Size(c) <= m && Suffix(answer, up) && AtMost(answer, m)
    requires 2 * m <= maxLine && 2 * m <= budget && limit > 0 && Newest(answer, budget) != answer
    ensures MayHoldOlderSpec(PageOf(answer, before, limit, budget), limit, budget, maxLine)
  {
    var read := Newest(answer, budget);
    ByteCut(answer, m, budget);
    NewestIsSuffix(answer, budget);
    SuffixOfSuffix(read, answer, up);
    WithoutCursor(up, h, c, read, before, m);
    CutTells(Older(read, before), limit, budget, maxLine);
  }

  /** Enough for the cuts of a source to show: a page and one more line fit, or its
      lines are short. */
  ghost predicate CutsShow(log: seq<Line>, limit: nat, budget: nat, maxLine: nat) {
    Roomy(log, limit + 1, budget) || Short(log, budget, maxLine)
  }

  lemma FetchTells(log: seq<Line>, before: Option<int>, limit: nat, budget: nat, maxLine: nat)
    requires Stamped(log) && CutsShow(log, limit, budget, maxLine) && limit > 0
    ensures Told(Fetch(log, before, limit, budget), Older(log, before), limit, budget, maxLine)
  {
    if Roomy(log, limit + 1, budget) {
      TailTells(log, before, limit, budget, maxLine);
    } else {
      ShortTells(log, before, maxLine / 2, limit, budget, maxLine);
    }
  }

  // ------------------------------------------------- a merged page has no gap

  /** Every source's log is in order and no two lines of any source share a
      stamp: `all` is the lines of every source in order. */
  ghost predicate Sources(logs: seq<seq<Line>>, all: seq<Line>) {
    && (forall log :: log in logs ==> Stamped(log))
    && multiset(Concat(logs)) == multiset(all)
    && Stamped(all)
  }

  /** Pages stay under the byte bound: a page of all sources fits, and each source
      tells when its page was cut. */
  ghost predicate UnderBound(logs: seq<seq<Line>>, all: seq<Line>, limit: nat, budget: nat, maxLine: nat) {
    && limit > 0 && Roomy(all, limit, budget)
    && forall log :: log in logs ==> CutsShow(log, limit, budget, maxLine)
  }

  lemma {:induction false} ConcatMember(pages: seq<seq<Line>>, x: Line) returns (i: nat)
    requires x in Concat(pages)
    ensures i < |pages| && x in pages[i]
  {
    if x in pages[|pages| - 1] {
      i := |pages| - 1;
    } else {
      i := ConcatMember(pages[..|pages| - 1], x);
    }
  }

  lemma {:induction false} MemberOfConcat(pages: seq<seq<Line>>, i: nat, x: Line)
    requires i < |pages| && x in pages[i]
    ensures x in Concat(pages)
  {
    if i < |pages| - 1 {
      MemberOfConcat(pages[..|pages| - 1], i, x);
    }
  }

  lemma Once(s: seq<Line>, l: Line)
    requires Strict(s) && l in s
    ensures multiset(s)[l] == 1
  {
    var i :| 0 <= i < |s| && s[i] == l;
    assert s == s[..i] + [l] + s[i + 1..];
  }

  lemma Twice(s: seq<Line>, i: nat, j: nat)
    requires i < j < |s| && s[i] == s[j]
    ensures multiset(s)[s[i]] >= 2
  {
    assert s == s[..j] + [s[j]] + s[j + 1..];
    assert s[..j][i] in multiset(s[..j]);
  }

  lemma SortedPartIsStrict(t: seq<Line>, all: seq<Line>)
    requires Strict(all) && Sorted(t) && multiset(t) <= multiset(all)
    ensures Strict(t)
  {
    forall i, j | 0 <= i < j < |t| ensures t[i].rank < t[j].rank {
      assert t[i] in multiset(t) && t[j] in multiset(t);
      if t[i].rank == t[j].rank {
        var m :| 0 <= m < |all| && all[m] == t[i];
        var n :| 0 <= n < |all| && all[n] == t[j];
        Twice(t, i, j);
        Once(all, t[i]);
      }
    }
  }

  /** The floor is the highest oldest line among the pages that may hold older ones. */
  lemma {:induction false} FloorIsHighest(pages: seq<seq<Line>>, limit: nat, budget: nat, maxLine: nat)
    ensures forall i :: 0 <= i < |pages| && MayHoldOlderSpec(pages[i], limit, budget, maxLine)
              ==> Floor(pages, limit, budget, maxLine).Some?
                  && pages[i][0].rank <= Floor(pages, limit, budget, maxLine).value
    ensures Floor(pages, limit, budget, maxLine).Some?
            ==> exists i :: 0 <= i < |pages| && pages[i] != [] && pages[i][0].rank == Floor(pages, limit, budget, maxLine).value
  {
    if pages != [] {
      var init, last := pages[..|pages| - 1], pages[|pages| - 1];
      FloorIsHighest(init, limit, budget, maxLine);
      assert forall i :: 0 <= i < |init| ==> init[i] == pages[i];
    }
  }

  /** Sources that answer in full. */
  function Whole(logs: seq<seq<Line>>): (srcs: seq<Source>)
    ensures |srcs| == |logs| && forall i :: 0 <= i < |logs| ==> srcs[i] == Source(logs[i], None)
  {
    if logs == [] then [] else Whole(Init(logs)) + [Source(Last(logs), None)]
  }

  lemma PartMore(x: seq<Line>, y: seq<Line>, a: seq<Line>, b: seq<Line>)
    requires multiset(x) <= multiset(a) && multiset(y) <= multiset(b)
    ensures multiset(x + y) <= multiset(a + b)
  {
  }

  lemma {:induction false} FetchAllIsPart(logs: seq<seq<Line>>, before: Option<int>, limit: nat, budget: nat)
    requires forall log :: log in logs ==> Stamped(log)
    ensures multiset(Concat(FetchAll(Whole(logs), before, limit, budget))) <= multiset(Concat(logs))
  {
    if logs != [] {
      var init, last := Init(logs), Last(logs);
      assert logs == init + [last];
      var pages, page := FetchAll(Whole(init), before, limit, budget), Fetch(last, before, limit, budget);
      FetchAllIsPart(init, before, limit, budget);
      FetchIsPart(last, before, limit, budget);
      FetchAllMore(init, last, before, limit, budget);
      Extend(pages, page, limit, budget, 0);
      PartMore(Concat(pages), page, Concat(init), last);
    }
  }

  lemma FetchAllMore(init: seq<seq<Line>>, last: seq<Line>, before: Option<int>, limit: nat, budget: nat)
    ensures FetchAll(Whole(init + [last]), before, limit, budget)
            == FetchAll(Whole(init), before, limit, budget) + [Fetch(last, before, limit, budget)]
  {
    InitMore(init, last);
    InitMore(Whole(init), Source(last, None));
  }

  lemma FetchIsPart(log: seq<Line>, before: Option<int>, limit: nat, budget: nat)
    requires Stamped(log)
    ensures multiset(Fetch(log, before, limit, budget)) <= multiset(log)
  {
    FetchIsEnd(log, before, limit, budget);
    SuffixIsPart(Fetch(log, before, limit, budget), Older(log, before));
    OlderMembers(log, before);
  }

  lemma OlderIsStrict(all: seq<Line>, before: Option<int>)
    requires Stamped(all)
    ensures Strict(Older(all, before))
  {
    var h, t := SplitAtCursor(all, before);
    OlderOfSplit(all, h, t, before);
    PartIsStamped(h, t);
  }

  lemma FetchWhole(logs: seq<seq<Line>>, i: nat, before: Option<int>, limit: nat, budget: nat)
    requires i < |logs|
    ensures FetchAll(Whole(logs), before, limit, budget)[i] == Fetch(logs[i], before, limit, budget)
  {
    assert Whole(logs)[i] == Source(logs[i], None);
  }

  lemma SourceOf(logs: seq<seq<Line>>, all: seq<Line>, before: Option<int>, x: Line) returns (i: nat)
    requires Sources(logs, all) && x in Older(all, before)
    ensures i < |logs| && x in Older(logs[i], before)
  {
    OlderMembers(all, before);
    assert x in multiset(all);
    assert x in multiset(Concat(logs));
    i := ConcatMember(logs, x);
    OlderMembers(logs[i], before);
  }

  lemma FetchedIsOlder(log: seq<Line>, before: Option<int>, limit: nat, budget: nat, x: Line)
    requires x in Fetch(log, before, limit, budget)
    ensures !Excluded(x, before)
  {
    var read := Newest(Answer(log, TailFor(before, limit), before), budget);
    OlderMembers(read, before);
    assert x in Older(read, before);
  }

  lemma FetchedInOlder(logs: seq<seq<Line>>, all: seq<Line>, before: Option<int>, limit: nat, budget: nat, x: Line)
    requires Sources(logs, all) && x in Concat(FetchAll(Whole(logs), before, limit, budget))
    ensures x in Older(all, before)
  {
    var pages := FetchAll(Whole(logs), before, limit, budget);
    FetchAllIsPart(logs, before, limit, budget);
    assert x in multiset(Concat(pages));
    assert x in multiset(all);
    var i := ConcatMember(pages, x);
    FetchWhole(logs, i, before, limit, budget);
    FetchedIsOlder(logs[i], before, limit, budget, x);
    OlderMembers(all, before);
  }

  lemma InEndOrBefore(page: seq<Line>, o: seq<Line>, x: Line)
    requires Strict(o) && Suffix(page, o) && page != [] && x in o
    ensures x in page || x.rank < page[0].rank
  {
    var j :| 0 <= j < |o| && o[j] == x;
    var k := |o| - |page|;
    assert o[k] == page[0];
    if j >= k {
      assert page[j - k] == x;
    }
  }

  /** A line that was not fetched is below the floor: its source was cut above it,
      and told so. */
  lemma MissingIsBelowFloor(logs: seq<seq<Line>>, all: seq<Line>, before: Option<int>, limit: nat, budget: nat, maxLine: nat,
                            x: Line)
    requires Sources(logs, all) && UnderBound(logs, all, limit, budget, maxLine)
    requires x in Older(all, before) && x !in Concat(FetchAll(Whole(logs), before, limit, budget))
    ensures var floor := Floor(FetchAll(Whole(logs), before, limit, budget), limit, budget, maxLine);
            floor.Some? && x.rank < floor.value
  {
    var pages := FetchAll(Whole(logs), before, limit, budget);
    var i := SourceOf(logs, all, before, x);
    FetchWhole(logs, i, before, limit, budget);
    FetchTells(logs[i], before, limit, budget, maxLine);
    if x in pages[i] {
      MemberOfConcat(pages, i, x);
    }
    OlderIsStrict(logs[i], before);
    FloorIsHighest(pages, limit, budget, maxLine);
    InEndOrBefore(pages[i], Older(logs[i], before), x);
  }

  /** The floor is the stamp of a fetched line. */
  lemma FloorIsFetched(pages: seq<seq<Line>>, limit: nat, budget: nat, maxLine: nat) returns (y: Line)
    requires Floor(pages, limit, budget, maxLine).Some?
    ensures y in Concat(pages) && y.rank == Floor(pages, limit, budget, maxLine).value
  {
    FloorIsHighest(pages, limit, budget, maxLine);
    var i :| 0 <= i < |pages| && pages[i] != [] && pages[i][0].rank == Floor(pages, limit, budget, maxLine).value;
    y := pages[i][0];
    MemberOfConcat(pages, i, y);
  }

  lemma {:induction false} FromMembers(q: seq<Line>, floor: Option<int>)
    requires Strict(q)
    ensures forall x :: x in From(q, floor) <==> x in q && (floor.None? || x.rank >= floor.value)
    ensures Suffix(From(q, floor), q)
  {
    if q != [] && floor.Some? && q[0].rank < floor.value {
      assert q == [q[0]] + q[1..];
      FromMembers(q[1..], floor);
    }
  }

  /** The newest of what was fetched, cut at the floor, leave out nothing newer
      than any of them. */
  lemma CutAtFloor(s: seq<Line>, e: seq<Line>, limit: nat, floor: Option<int>)
    requires Strict(s) && Strict(e) && forall x :: x in s ==> x in e
    requires forall x :: x in e && x !in s ==> floor.Some? && x.rank < floor.value
    ensures Suffix(From(LastN(s, limit), floor), e)
  {
    var q := LastN(s, limit);
    LastNIsSuffix(s, limit);
    EndIsStrict(q, s);
    FromMembers(q, floor);
    EndIsStrict(From(q, floor), q);
    EndMembers(q, s);
    NothingAbove(s, e, q, From(q, floor), limit, floor);
    UpwardClosedIsSuffix(From(q, floor), e);
  }

  lemma EndMembers(a: seq<Line>, b: seq<Line>)
    requires Suffix(a, b)
    ensures forall x :: x in a ==> x in b
  {
    assert b == b[..|b| - |a|] + a;
  }

  lemma NothingAbove(s: seq<Line>, e: seq<Line>, q: seq<Line>, p: seq<Line>, limit: nat, floor: Option<int>)
    requires Sorted(s) && (forall x :: x in q ==> x in e) && q == LastN(s, limit)
    requires forall x :: x in e && x !in s ==> floor.Some? && x.rank < floor.value
    requires forall x :: x in p <==> x in q && (floor.None? || x.rank >= floor.value)
    ensures UpwardClosed(p, e)
  {
    forall x, y | x in e && y in p && x.rank > y.rank ensures x in p {
      assert x in s;
      LastNUpward(s, limit, x, y);
    }
  }

  lemma NewestStays(s: seq<Line>, limit: nat, floor: Option<int>)
    requires Strict(s) && s != [] && limit > 0 && (floor.Some? ==> exists y :: y in s && y.rank == floor.value)
    ensures Last(s) in From(LastN(s, limit), floor)
  {
    var q := LastN(s, limit);
    assert Last(q) == Last(s) && Last(s) in q;
    LastNIsSuffix(s, limit);
    EndIsStrict(q, s);
    FromMembers(q, floor);
    if floor.Some? {
      var y :| y in s && y.rank == floor.value;
      LastIsHighest(s, y);
    }
  }

  /** What was fetched, sorted: a strictly ordered part of what is older. */
  lemma FetchedSorted(logs: seq<seq<Line>>, all: seq<Line>, before: Option<int>, limit: nat, budget: nat) returns (s: seq<Line>)
    requires Sources(logs, all)
    ensures s == StableSort(Concat(FetchAll(Whole(logs), before, limit, budget)))
    ensures Strict(s) && (forall x :: x in s ==> x in Older(all, before))
    ensures forall x :: x in s <==> x in Concat(FetchAll(Whole(logs), before, limit, budget))
  {
    var stream := Concat(FetchAll(Whole(logs), before, limit, budget));
    s := StableSort(stream);
    StableSortSorts(stream);
    FetchAllIsPart(logs, before, limit, budget);
    SortedPartIsStrict(s, all);
    SameMembers(s, stream);
    forall x | x in stream ensures x in Older(all, before) {
      FetchedInOlder(logs, all, before, limit, budget, x);
    }
  }

  lemma SameMembers(s: seq<Line>, t: seq<Line>)
    requires multiset(s) == multiset(t)
    ensures forall x :: x in s <==> x in t
  {
    assert forall x :: x in s <==> x in multiset(s);
    assert forall x :: x in t <==> x in multiset(t);
  }

  lemma FirstNotInEnd(r: seq<Line>, p: seq<Line>)
    requires Strict(r) && Suffix(p, r) && |p| < |r|
    ensures r[0] !in p
  {
    forall i | 0 <= i < |p| ensures p[i] != r[0] {
      assert p[i] == r[|r| - |p| + i];
    }
  }

  lemma {:induction false} FromKeeps(j: seq<Line>, p: seq<Line>, floor: Option<int>)
    requires p != [] ==> floor.None? || floor.value <= p[0].rank
    ensures Suffix(p, From(j + p, floor))
  {
    if j == [] {
      assert j + p == p;
    } else {
      assert (j + p)[1..] == j[1..] + p;
      FromKeeps(j[1..], p, floor);
    }
  }

  /** What is left of a page above the floor is no more than the newest fetched. */
  lemma NothingMore(s: seq<Line>, q: seq<Line>, p: seq<Line>, r: seq<Line>, limit: nat, floor: Option<int>)
    requires Strict(s) && Strict(r) && q == LastN(s, limit) && p == From(q, floor) && Suffix(p, r)
    requires |r| <= limit && (forall x :: x in r ==> x in s && (floor.None? || floor.value <= x.rank))
    ensures r == p
  {
    if |p| < |r| {
      FirstNotInEnd(r, p);
      NotLost(s, q, r[0], floor, limit);
      LastNIsSuffix(s, limit);
      EndIsStrict(q, s);
      FromMembers(q, floor);
      assert false;
    }
  }

  lemma PageAtFloor(s: seq<Line>, q: seq<Line>, page: seq<Line>, p: seq<Line>, limit: nat, floor: Option<int>)
    requires Strict(s) && Strict(page) && (forall x :: x in page ==> x in s) && |page| <= limit
    requires q == LastN(s, limit) && p == From(q, floor) && Suffix(p, page)
    ensures From(page, floor) == p
  {
    FromStarts(q, floor);
    assert page == page[..|page| - |p|] + p;
    FromKeeps(page[..|page| - |p|], p, floor);
    FromMembers(page, floor);
    EndIsStrict(From(page, floor), page);
    NothingMore(s, q, p, From(page, floor), limit, floor);
  }

  lemma {:induction false} FromStarts(q: seq<Line>, floor: Option<int>)
    ensures From(q, floor) != [] ==> floor.None? || floor.value <= From(q, floor)[0].rank
  {
    if q != [] {
      FromStarts(q[1..], floor);
    }
  }

  /** A line at or above the floor is among the newest, or these are all above it. */
  lemma NotLost(s: seq<Line>, q: seq<Line>, x: Line, floor: Option<int>, limit: nat)
    requires Strict(s) && q == LastN(s, limit) && limit > 0 && x in s && (floor.None? || floor.value <= x.rank)
    ensures x in q || (|q| == limit && From(q, floor) == q)
  {
    LastNIsSuffix(s, limit);
    if q != [] {
      InEndOrBefore(q, s, x);
    }
  }

  lemma EndIsRoomy(all: seq<Line>, e: seq<Line>, q: seq<Line>, limit: nat, budget: nat)
    requires e <= all && Suffix(q, e) && |q| <= limit && Roomy(all, limit, budget)
    ensures FitsBytes(q, budget)
  {
    assert q == all[|e| - |q|..|e|];
  }

  lemma OlderIsFront(all: seq<Line>, before: Option<int>)
    requires Stamped(all)
    ensures Older(all, before) <= all
  {
    var h, t := SplitAtCursor(all, before);
    OlderOfSplit(all, h, t, before);
  }

  lemma PageKeeps(stream: seq<Line>, s: seq<Line>, p: seq<Line>, before: Option<int>, limit: nat, budget: nat)
    requires Older(stream, before) == stream && s == StableSort(stream) && Suffix(p, s) && Fits(p, limit, budget)
    ensures Suffix(p, Page(stream, before, limit, budget))
  {
    assert s == s[..|s| - |p|] + p;
    FittingIsInCut(s[..|s| - |p|], p, limit, budget);
    ReferenceIsSuffix(stream, before, limit, budget);
    SuffixOfSuffix(p, Reference(stream, before, limit, budget), Page(stream, before, limit, budget));
  }

  /** The merged page cut at the floor is the newest of what was fetched, cut at
      the floor, as long as that fits. */
  lemma MergedPage(stream: seq<Line>, s: seq<Line>, before: Option<int>, limit: nat, budget: nat, floor: Option<int>)
    requires (forall x :: x in stream ==> !Excluded(x, before)) && s == StableSort(stream) && Strict(s) && limit > 0
    requires FitsBytes(From(LastN(s, limit), floor), budget)
    ensures From(Page(stream, before, limit, budget), floor) == From(LastN(s, limit), floor)
  {
    var q := LastN(s, limit);
    var p := From(q, floor);
    OlderOfKept(stream, before);
    LastNIsSuffix(s, limit);
    EndIsStrict(q, s);
    FromMembers(q, floor);
    SuffixOfSuffix(p, q, s);
    PageKeeps(stream, s, p, before, limit, budget);
    PageIsStrict(stream, s, before, limit, budget);
    PageAtFloor(s, q, Page(stream, before, limit, budget), p, limit, floor);
  }

  lemma PageIsStrict(stream: seq<Line>, s: seq<Line>, before: Option<int>, limit: nat, budget: nat)
    requires Older(stream, before) == stream && s == StableSort(stream) && Strict(s)
    ensures var page := Page(stream, before, limit, budget);
            Strict(page) && |page| <= limit && forall x :: x in page ==> x in s
  {
    var page := Page(stream, before, limit, budget);
    PageIsPart(stream, before, limit, budget);
    PageIsSorted(stream, before, limit, budget);
    StableSortSorts(stream);
    SortedPartIsStrict(page, s);
    forall x | x in page ensures x in s {
      assert x in multiset(page);
      assert x in multiset(s);
    }
  }

  lemma FetchedEnd(logs: seq<seq<Line>>, all: seq<Line>, s: seq<Line>, before: Option<int>,
                   limit: nat, budget: nat, maxLine: nat, floor: Option<int>)
    requires Sources(logs, all) && UnderBound(logs, all, limit, budget, maxLine)
    requires floor == Floor(FetchAll(Whole(logs), before, limit, budget), limit, budget, maxLine)
    requires Strict(s) && forall x :: x in s ==> x in Older(all, before)
    requires forall x :: x in s <==> x in Concat(FetchAll(Whole(logs), before, limit, budget))
    ensures NoGap(From(LastN(s, limit), floor), Older(all, before))
  {
    var e := Older(all, before);
    OlderIsStrict(all, before);
    assert e != [] ==> e[0] in e;
    forall x | x in e && x !in s ensures floor.Some? && x.rank < floor.value {
      MissingIsBelowFloor(logs, all, before, limit, budget, maxLine, x);
    }
    CutAtFloor(s, e, limit, floor);
    if floor.Some? {
      var y := FloorIsFetched(FetchAll(Whole(logs), before, limit, budget), limit, budget, maxLine);
      NewestStays(s, limit, floor);
    } else if s != [] {
      NewestStays(s, limit, floor);
    }
  }

  /** A page is an end of what is older than the cursor: no gap, and never empty
      while anything older exists. */
  lemma PageHasNoGap(logs: seq<seq<Line>>, all: seq<Line>, before: Option<int>, limit: nat, budget: nat, maxLine: nat)
    requires Sources(logs, all) && UnderBound(logs, all, limit, budget, maxLine)
    ensures var p := Collect(Whole(logs), before, limit, budget, maxLine);
            NoGap(p, Older(all, before)) && |p| <= limit
  {
    var pages := FetchAll(Whole(logs), before, limit, budget);
    var floor := Floor(pages, limit, budget, maxLine);
    var s := FetchedSorted(logs, all, before, limit, budget);
    FetchedEnd(logs, all, s, before, limit, budget, maxLine, floor);
    NotLonger(s, limit, floor);
    OlderIsFront(all, before);
    EndIsRoomy(all, Older(all, before), From(LastN(s, limit), floor), limit, budget);
    OlderMembers(all, before);
    MergedPage(Concat(pages), s, before, limit, budget, floor);
  }

  lemma NotLonger(s: seq<Line>, limit: nat, floor: Option<int>)
    requires Strict(s)
    ensures |From(LastN(s, limit), floor)| <= limit
  {
    LastNIsSuffix(s, limit);
    EndIsStrict(LastN(s, limit), s);
    FromMembers(LastN(s, limit), floor);
  }

  // -------------------------------------- when a page of all sources has a gap

  /** Lines at the stamps `k`, `k + 1`, ... */
  predicate Ticks(s: seq<Line>, k: int) {
    forall i :: 0 <= i < |s| ==> s[i].rank == k + i && s[i].time == Some(k + i)
  }

  lemma TicksStamped(s: seq<Line>, k: int)
    requires Ticks(s, k)
    ensures Stamped(s)
  {
  }

  lemma TicksConcat(a: seq<Line>, b: seq<Line>, k: int)
    requires Ticks(a, k) && Ticks(b, k + |a|)
    ensures Ticks(a + b, k)
  {
  }

  function Smaller(a: nat, b: nat): nat {
    if a < b then a else b
  }

  lemma RestFits(n: nat, t: nat, m: nat)
    requires n > 0 && t <= m * n
    ensures t - Smaller(t, m) <= m * (n - 1)
  {
    TimesMore(m, n - 1);
    Times(m, 0, n - 1);
  }

  lemma OneMoreTick(s: seq<Line>, l: Line, m: nat)
    requires AtMost(s, m) && Ticks(s, 1) && |l.text| <= m && l.rank == |s| + 1 && l.time == Some(l.rank)
    ensures Size(s + [l]) == Size(s) + |l.text| && AtMost(s + [l], m) && Ticks(s + [l], 1)
  {
    SizeConcat(s, [l]);
    assert Size([l]) == |l.text|;
    AtMostMore(s, l, m);
  }

  /** `n` lines of `t` bytes together, from the stamp 1 on. */
  lemma {:induction false} Filled(n: nat, t: nat, m: nat) returns (s: seq<Line>)
    requires t <= m * n
    ensures |s| == n && Size(s) == t && AtMost(s, m) && Ticks(s, 1)
  {
    s := [];
    if n > 0 {
      RestFits(n, t, m);
      var k := Smaller(t, m);
      s := Filled(n - 1, t - k, m);
      OneMoreTick(s, Sized(n, k), m);
      s := s + [Sized(n, k)];
    }
  }

  lemma {:induction false} ConcatAtMost(a: seq<Line>, b: seq<Line>, m: nat)
    requires AtMost(a, m) && AtMost(b, m)
    ensures AtMost(a + b, m)
  {
    AtMostMembers(a, m);
    AtMostMembers(b, m);
    AtMostMembers(a + b, m);
  }

  lemma OneAtMost(l: Line, m: nat)
    requires |l.text| <= m
    ensures AtMost([l], m)
  {
    AtMostMore([], l, m);
    assert [] + [l] == [l];
  }

  lemma OnePage(p: seq<Line>, limit: nat, budget: nat, maxLine: nat)
    ensures Concat([p]) == p && Floor([p], limit, budget, maxLine) == Raise(None, p, limit, budget, maxLine)
  {
    Extend([], p, limit, budget, maxLine);
    assert [] + [p] == [p] && [] + p == p;
  }

  lemma TwoPages(p: seq<Line>, q: seq<Line>, limit: nat, budget: nat, maxLine: nat)
    requires !MayHoldOlderSpec(p, limit, budget, maxLine) && !MayHoldOlderSpec(q, limit, budget, maxLine)
    ensures Concat([p, q]) == p + q && Floor([p, q], limit, budget, maxLine) == None
  {
    OnePage(p, limit, budget, maxLine);
    Extend([p], q, limit, budget, maxLine);
    assert [p] + [q] == [p, q];
  }

  lemma FetchOne(a: seq<Line>, before: Option<int>, limit: nat, budget: nat)
    ensures FetchAll(Whole([a]), before, limit, budget) == [Fetch(a, before, limit, budget)]
  {
    FetchWhole([a], 0, before, limit, budget);
  }

  lemma FetchTwo(a: seq<Line>, b: seq<Line>, before: Option<int>, limit: nat, budget: nat)
    ensures FetchAll(Whole([a, b]), before, limit, budget)
            == [Fetch(a, before, limit, budget), Fetch(b, before, limit, budget)]
  {
    FetchWhole([a, b], 0, before, limit, budget);
    FetchWhole([a, b], 1, before, limit, budget);
  }

  lemma CollectOne(a: seq<Line>, before: Option<int>, limit: nat, budget: nat, maxLine: nat)
    requires Fetch(a, before, limit, budget) == []
    ensures Collect(Whole([a]), before, limit, budget, maxLine) == []
  {
    FetchOne(a, before, limit, budget);
    OnePage([], limit, budget, maxLine);
  }

  lemma CollectTwo(a: seq<Line>, b: seq<Line>, p: seq<Line>, q: seq<Line>, before: Option<int>,
                   limit: nat, budget: nat, maxLine: nat)
    requires p == Fetch(a, before, limit, budget) && q == Fetch(b, before, limit, budget)
    requires !MayHoldOlderSpec(p, limit, budget, maxLine) && !MayHoldOlderSpec(q, limit, budget, maxLine)
    ensures Collect(Whole([a, b]), before, limit, budget, maxLine) == Page(p + q, before, limit, budget)
  {
    FetchTwo(a, b, before, limit, budget);
    TwoPages(p, q, limit, budget, maxLine);
  }

  lemma OneSource(log: seq<Line>)
    requires Stamped(log)
    ensures Sources([log], log)
  {
    OnePage(log, 0, 0, 0);
  }

  /** Two lines that do not fit: a source's page is empty while it has an older line. */
  lemma EmptyPage(m: nat, limit: nat, budget: nat, maxLine: nat)
      returns (logs: seq<seq<Line>>, all: seq<Line>, before: Option<int>)
    requires limit > 0 && 2 * m > budget
    ensures Sources(logs, all) && AtMost(all, m)
    ensures !NoGap(Collect(Whole(logs), before, limit, budget, maxLine), Older(all, before))
  {
    all, before := OneSourceGap(m, limit, budget);
    logs := [all];
    OneSource(all);
    CollectOne(all, before, limit, budget, maxLine);
  }

  lemma TicksBefore(s: seq<Line>, k: int)
    requires Ticks(s, k)
    ensures Sorted(s) && forall l :: l in s ==> k <= l.rank && !Excluded(l, Some(k + |s|))
  {
  }

  /** A page of lines and one empty older line of another source. */
  lemma MergeOlderLine(s: seq<Line>, e: Line, before: Option<int>, limit: nat, budget: nat)
    requires Sorted(s) && e.text == "" && forall l :: l in s ==> e.rank < l.rank
    requires !Excluded(e, before) && forall l :: l in s ==> !Excluded(l, before)
    requires |s| < limit && Size(s) <= budget
    ensures Page(s + [e], before, limit, budget) == [e] + s
  {
    OlderOfKept(s + [e], before);
    SortFirst(s, e);
    EmptyFits(s, e, budget);
    PageOfFew(s + [e], [e] + s, before, limit, budget);
  }

  lemma PageOfFew(stream: seq<Line>, r: seq<Line>, before: Option<int>, limit: nat, budget: nat)
    requires Older(stream, before) == stream && StableSort(stream) == r && |r| <= limit && FitsBytes(r, budget)
    ensures Page(stream, before, limit, budget) == r
  {
    assert LastN(r, limit) == r;
    ExactUnderBudget(stream, before, limit, budget);
  }

  lemma EmptyFits(s: seq<Line>, e: Line, budget: nat)
    requires e.text == "" && Size(s) <= budget
    ensures FitsBytes([e] + s, budget)
  {
    SizeConcat([e], s);
    assert Size([e]) == 0;
  }

  lemma Skips(d: Line, s: seq<Line>, e: Line)
    requires d != e
    ensures !Suffix([e] + s, [e] + ([d] + s))
  {
    var older := [e] + ([d] + s);
    assert older[|older| - |[e] + s|] == d;
  }

  /** The line at the cursor takes room in the budget and is then dropped, so what
      is left of a cut page looks too small to have been cut: the page skips the
      line `d`, which the next one cannot return. */
  lemma SkippedLine(s: seq<Line>, m: nat, limit: nat, budget: nat, maxLine: nat)
      returns (logs: seq<seq<Line>>, all: seq<Line>, before: Option<int>)
    requires Ticks(s, 1) && AtMost(s, m) && |s| == limit - 1 > 0
    requires Size(s) + m <= budget < Size(s) + 2 * m && Size(s) + maxLine <= budget
    ensures Sources(logs, all) && AtMost(all, m)
    ensures !NoGap(Collect(Whole(logs), before, limit, budget, maxLine), Older(all, before))
  {
    var d, c, e := Sized(0, m), Sized(|s| + 1, m), Sized(-1, 0);
    logs, all, before := [[d] + s + [c], [e]], [e] + ([d] + s + [c]), Some(|s| + 1);
    SkippedStamped(d, s, c, e);
    SkippedAtMost(d, s, c, e, m);
    SkippedPage(d, s, c, e, limit, budget, maxLine);
    Skips(d, s, e);
  }

  lemma LogTicks(d: Line, s: seq<Line>, c: Line)
    requires Ticks([d], 0) && Ticks(s, 1) && Ticks([c], |s| + 1)
    ensures Ticks([d] + s + [c], 0)
  {
    TicksConcat([d], s, 0);
    TicksConcat([d] + s, [c], 0);
  }

  lemma TwoSources(log: seq<Line>, e: Line)
    requires Ticks(log, 0) && Ticks([e], -1)
    ensures Sources([log, [e]], [e] + log) && Stamped([e] + log)
  {
    TicksConcat([e], log, -1);
    TicksStamped(log, 0);
    TicksStamped([e], -1);
    TicksStamped([e] + log, -1);
    TwoLogs(log, [e]);
  }

  lemma SkippedStamped(d: Line, s: seq<Line>, c: Line, e: Line)
    requires Ticks([d], 0) && Ticks(s, 1) && Ticks([c], |s| + 1) && Ticks([e], -1)
    ensures var log := [d] + s + [c]; Sources([log, [e]], [e] + log)
    ensures Older([e] + ([d] + s + [c]), Some(c.rank)) == [e] + ([d] + s)
  {
    LogTicks(d, s, c);
    TwoSources([d] + s + [c], e);
    assert [e] + ([d] + s + [c]) == ([e] + ([d] + s)) + [c];
    OlderThanLast([e] + ([d] + s), c);
  }

  lemma SkippedAtMost(d: Line, s: seq<Line>, c: Line, e: Line, m: nat)
    requires |d.text| <= m && AtMost(s, m) && |c.text| <= m && |e.text| <= m
    ensures AtMost([e] + ([d] + s + [c]), m)
  {
    OneAtMost(d, m);
    OneAtMost(c, m);
    OneAtMost(e, m);
    ConcatAtMost([d], s, m);
    ConcatAtMost([d] + s, [c], m);
    ConcatAtMost([e], [d] + s + [c], m);
  }

  lemma SkippedPage(d: Line, s: seq<Line>, c: Line, e: Line, limit: nat, budget: nat, maxLine: nat)
    requires Ticks([d], 0) && Ticks(s, 1) && Ticks([c], |s| + 1) && Ticks([e], -1) && e.text == ""
    requires |s| == limit - 1 > 0 && Size(s) + maxLine <= budget
    requires Size(s) + |c.text| <= budget < |d.text| + Size(s) + |c.text|
    ensures Collect(Whole([[d] + s + [c], [e]]), Some(|s| + 1), limit, budget, maxLine) == [e] + s
  {
    var log, before := [d] + s + [c], Some(|s| + 1);
    LogTicks(d, s, c);
    TicksStamped(log, 0);
    CursorFits(s, c, budget);
    assert c == [c][0];
    FetchWithout(d, s, c, limit, budget);
    assert e == [e][0];
    FetchLone(e, before, limit, budget);
    NotCut(e, limit, budget, maxLine);
    CollectTwo(log, [e], s, [e], before, limit, budget, maxLine);
    TicksBefore(s, 1);
    MergeOlderLine(s, e, before, limit, budget);
  }

  lemma CursorFits(s: seq<Line>, c: Line, budget: nat)
    requires Size(s) + |c.text| <= budget
    ensures FitsBytes(s + [c], budget)
  {
    SizeConcat(s, [c]);
    assert Size([c]) == |c.text|;
  }

  lemma NotCut(l: Line, limit: nat, budget: nat, maxLine: nat)
    requires limit > 1 && |l.text| + maxLine <= budget
    ensures !MayHoldOlderSpec([l], limit, budget, maxLine)
  {
    assert Size([l]) == |l.text|;
  }

  lemma OlderOne(l: Line, cut: Option<int>)
    requires !Excluded(l, cut)
    ensures Older([l], cut) == [l]
  {
    assert [l][..0] == [] && [] + [l] == [l];
  }

  lemma AnswersLone(l: Line, before: Option<int>, limit: nat)
    requires l.time == Some(l.rank) && limit > 0 && (before.Some? ==> l.rank < before.value)
    ensures Answer([l], TailFor(before, limit), before) == [l]
  {
    if before.Some? {
      OlderOne(l, Some(before.value + 1));
    }
  }

  lemma FetchLone(l: Line, before: Option<int>, limit: nat, budget: nat)
    requires l.time == Some(l.rank) && limit > 0 && (before.Some? ==> l.rank < before.value)
    ensures Fetch([l], before, limit, budget) == [l]
  {
    AnswersLone(l, before, limit);
    OlderOne(l, before);
  }

  lemma TwoLogs(a: seq<Line>, b: seq<Line>)
    ensures Concat([a, b]) == a + b && multiset(a + b) == multiset(b + a)
  {
    Extend([], a, 0, 0, 0);
    Extend([a], b, 0, 0, 0);
    assert [] + [a] == [a] && [] + a == a && [a] + [b] == [a, b];
  }

  /** Where the line at the cursor may hide a cut: the margin is less than two
      lines, and `limit + 1` lines do not fit. */
  lemma CursorLineMayHideACut(m: nat, limit: nat, budget: nat, maxLine: nat)
      returns (logs: seq<seq<Line>>, all: seq<Line>, before: Option<int>)
    requires limit > 0 && m <= maxLine < 2 * m && m * (limit + 1) > budget
    ensures Sources(logs, all) && AtMost(all, m)
    ensures !NoGap(Collect(Whole(logs), before, limit, budget, maxLine), Older(all, before))
  {
    if budget < 2 * m {
      logs, all, before := EmptyPage(m, limit, budget, maxLine);
    } else {
      TimesMore(m, limit);
      TimesMore(m, limit - 1);
      Times(m, 0, limit - 1);
      var t := if budget - maxLine < m * (limit - 1) then budget - maxLine else m * (limit - 1);
      var s := Filled(limit - 1, t, m);
      logs, all, before := SkippedLine(s, m, limit, budget, maxLine);
    }
  }

  /** Each line a source of its own. */
  function Singles(s: seq<Line>): seq<seq<Line>> {
    if s == [] then [] else Singles(Init(s)) + [[Last(s)]]
  }

  lemma {:induction false} SinglesFetched(s: seq<Line>, m: nat, limit: nat, budget: nat, maxLine: nat)
    requires AtMost(s, m) && (forall l :: l in s ==> l.time == Some(l.rank)) && limit > 1 && m + maxLine <= budget
    ensures Concat(Singles(s)) == s
    ensures FetchAll(Whole(Singles(s)), None, limit, budget) == Singles(s)
    ensures Floor(Singles(s), limit, budget, maxLine) == None
  {
    if s != [] {
      var init, l := Init(s), Last(s);
      assert s == init + [l];
      SinglesFetched(init, m, limit, budget, maxLine);
      Extend(Singles(init), [l], limit, budget, maxLine);
      FetchLone(l, None, limit, budget);
      NotCut(l, limit, budget, maxLine);
      InitMore(Singles(init), [l]);
      InitMore(Whole(Singles(init)), Source([l], None));
    }
  }

  lemma {:induction false} SinglesStamped(s: seq<Line>)
    requires forall l :: l in s ==> l.time == Some(l.rank)
    ensures forall log :: log in Singles(s) ==> Stamped(log)
  {
    if s != [] {
      assert s == Init(s) + [Last(s)];
      SinglesStamped(Init(s));
    }
  }

  lemma CollectSingles(s: seq<Line>, m: nat, limit: nat, budget: nat, maxLine: nat)
    requires AtMost(s, m) && (forall l :: l in s ==> l.time == Some(l.rank)) && limit > 1 && m + maxLine <= budget
    ensures Concat(Singles(s)) == s && forall log :: log in Singles(s) ==> Stamped(log)
    ensures Collect(Whole(Singles(s)), None, limit, budget, maxLine) == Page(s, None, limit, budget)
  {
    SinglesStamped(s);
    SinglesFetched(s, m, limit, budget, maxLine);
  }

  /** The page of a stream that is not the wanted one has a gap. */
  lemma JumpIsGap(stream: seq<Line>, all: seq<Line>, limit: nat, budget: nat)
    requires StableSort(stream) == all && Page(stream, None, limit, budget) != Reference(stream, None, limit, budget)
    ensures !NoGap(Page(stream, None, limit, budget), Older(all, None))
  {
    OlderOfAll(all);
    OlderOfAll(stream);
    ExactWhenContiguous(stream, None, limit, budget);
  }

  lemma JumpAtMost(s: seq<Line>, e: Line, m: nat)
    requires Even(s, m) && e.text == ""
    ensures AtMost([e] + s, m) && AtMost(s + [e], m)
  {
    EvenSize(s, m);
    OneAtMost(e, m);
    ConcatAtMost(s, [e], m);
    ConcatAtMost([e], s, m);
  }

  lemma NumberedTicks(s: seq<Line>, m: nat)
    requires Numbered(s, m)
    ensures Ticks(s, 0)
  {
  }

  lemma JumpStamped(s: seq<Line>, e: Line)
    requires Ticks(s, 0) && Ticks([e], -1)
    ensures Stamped([e] + s) && StableSort(s + [e]) == [e] + s && multiset(s + [e]) == multiset([e] + s)
    ensures forall l :: l in s + [e] ==> l.time == Some(l.rank)
  {
    TicksConcat([e], s, -1);
    TicksStamped([e] + s, -1);
    TicksBefore(s, 0);
    assert [e][0] == e;
    SortFirst(s, e);
  }

  lemma MergeJumps(s: seq<Line>, e: Line, m: nat, limit: nat, budget: nat, maxLine: nat)
    requires Ticks(s, 0) && Even(s, m) && Ticks([e], -1) && e.text == "" && limit > 1 && m + maxLine <= budget
    requires Page(s + [e], None, limit, budget) != Reference(s + [e], None, limit, budget)
    ensures Sources(Singles(s + [e]), [e] + s) && AtMost([e] + s, m)
    ensures !NoGap(Collect(Whole(Singles(s + [e])), None, limit, budget, maxLine), Older([e] + s, None))
  {
    JumpAtMost(s, e, m);
    JumpStamped(s, e);
    CollectSingles(s + [e], m, limit, budget, maxLine);
    JumpIsGap(s + [e], [e] + s, limit, budget);
  }

  lemma EmptyTick() returns (e: Line)
    ensures e == Sized(-1, 0) && e.text == "" && Ticks([e], -1)
  {
    e := Sized(-1, 0);
    assert Text(0) == "";
  }

  /** Where the merged page itself may jump over a line: `limit` lines do not fit. */
  lemma MergeMayJump(m: nat, limit: nat, budget: nat, maxLine: nat)
      returns (logs: seq<seq<Line>>, all: seq<Line>, before: Option<int>)
    requires limit > 1 && m + maxLine <= budget < m * limit
    ensures Sources(logs, all) && AtMost(all, m)
    ensures !NoGap(Collect(Whole(logs), before, limit, budget, maxLine), Older(all, before))
  {
    var s := JumpOverEven(m, limit, budget);
    var e := EmptyTick();
    NumberedTicks(s, m);
    MergeJumps(s, e, m, limit, budget, maxLine);
    logs, all, before := Singles(s + [e]), [e] + s, None;
  }

  /** The page of these sources at this cursor, if their lines are of at most `m`
      bytes. */
  ghost predicate PageGapFree(logs: seq<seq<Line>>, all: seq<Line>, before: Option<int>,
                              m: nat, limit: nat, budget: nat, maxLine: nat) {
    Sources(logs, all) && AtMost(all, m) ==> NoGap(Collect(Whole(logs), before, limit, budget, maxLine), Older(all, before))
  }

  /** No page of any such sources has a gap, at any cursor. */
  ghost predicate AlwaysGapFree(m: nat, limit: nat, budget: nat, maxLine: nat) {
    forall logs, all, before :: PageGapFree(logs, all, before, m, limit, budget, maxLine)
  }

  /** How many lines of the longest kind have to fit. */
  function Room(m: nat, limit: nat, maxLine: nat): nat {
    if 2 * m <= maxLine then limit else limit + 1
  }

  lemma LogAtMost(logs: seq<seq<Line>>, all: seq<Line>, log: seq<Line>, m: nat)
    requires Sources(logs, all) && AtMost(all, m) && log in logs
    ensures AtMost(log, m)
  {
    var i :| 0 <= i < |logs| && logs[i] == log;
    forall l | l in log ensures |l.text| <= m {
      MemberOfConcat(logs, i, l);
      assert l in multiset(Concat(logs));
      assert l in multiset(all);
      AtMostMembers(all, m);
    }
    AtMostMembers(log, m);
  }

  lemma MoreAtMost(s: seq<Line>, m: nat, n: nat)
    requires AtMost(s, m) && m <= n
    ensures AtMost(s, n)
  {
    AtMostMembers(s, m);
    AtMostMembers(s, n);
  }

  lemma LinesUnderBound(logs: seq<seq<Line>>, all: seq<Line>, m: nat, limit: nat, budget: nat, maxLine: nat)
    requires Sources(logs, all) && AtMost(all, m) && limit > 0
    requires m <= maxLine && (maxLine < 2 * m || m + maxLine <= budget)
    requires m * Room(m, limit, maxLine) <= budget
    ensures UnderBound(logs, all, limit, budget, maxLine)
  {
    Times(m, limit, Room(m, limit, maxLine));
    RoomForShort(all, m, limit, budget);
    forall log | log in logs ensures CutsShow(log, limit, budget, maxLine) {
      LogAtMost(logs, all, log, m);
      if 2 * m <= maxLine {
        MoreAtMost(log, m, maxLine / 2);
      } else {
        RoomForShort(log, m, limit + 1, budget);
      }
    }
  }

  /** Over all sources with lines of at most `m` bytes, pages have no gap if and
      only if `limit + 1` such lines fit, or `limit` when two are within the
      margin. */
  lemma GapFreeExactly(m: nat, limit: nat, budget: nat, maxLine: nat)
    requires limit > 0 && m <= maxLine && (maxLine < 2 * m || m + maxLine <= budget)
    ensures AlwaysGapFree(m, limit, budget, maxLine) <==> m * Room(m, limit, maxLine) <= budget
  {
    if m * Room(m, limit, maxLine) <= budget {
      forall logs, all, before ensures PageGapFree(logs, all, before, m, limit, budget, maxLine) {
        if Sources(logs, all) && AtMost(all, m) {
          LinesUnderBound(logs, all, m, limit, budget, maxLine);
          PageHasNoGap(logs, all, before, limit, budget, maxLine);
        }
      }
    } else if maxLine < 2 * m {
      var logs, all, before := CursorLineMayHideACut(m, limit, budget, maxLine);
      assert !PageGapFree(logs, all, before, m, limit, budget, maxLine);
    } else {
      var logs, all, before := MergeMayJump(m, limit, budget, maxLine);
      assert !PageGapFree(logs, all, before, m, limit, budget, maxLine);
    }
  }

  /** 512 KiB, the byte budget of a page. */
  const MAX_PAGE_BYTES: nat := 524288

  /** The lines a page is asked for unless the request says otherwise. */
  const DEFAULT_LIMIT: nat := 200

  /** With the budget, the line cap and the limit of a plain request, pages have no
      gap if and only if no line is longer than 2621 bytes, though lines of 16 KiB
      are let through. */
  lemma DefaultPageGapFree(m: nat)
    requires m <= LogReader.MAX_LINE
    ensures AlwaysGapFree(m, DEFAULT_LIMIT, MAX_PAGE_BYTES, LogReader.MAX_LINE) <==> m <= 2621
  {
    var limit, budget, maxLine := DEFAULT_LIMIT, MAX_PAGE_BYTES, LogReader.MAX_LINE;
    GapFreeExactly(m, limit, budget, maxLine);
    DefaultRoom(m);
  }

  lemma DefaultRoom(m: nat)
    ensures m * Room(m, DEFAULT_LIMIT, LogReader.MAX_LINE) <= MAX_PAGE_BYTES <==> m <= 2621
  {
    var room := Room(m, DEFAULT_LIMIT, LogReader.MAX_LINE);
    if room == 201 {
      assert m * 201 > MAX_PAGE_BYTES;
    }
  }

  // --------------------------------------------------------- paging back

  /** The last page came back empty. */
  predicate Done(pages: seq<seq<Line>>) {
    pages != [] && pages[|pages| - 1] == []
  }

  /** `before` of the next request: the oldest stamp of the last page. */
  function NextCursor(pages: seq<seq<Line>>): Option<int> {
    if pages == [] || pages[|pages| - 1] == [] then None else Some(pages[|pages| - 1][0].rank)
  }

  /** Some order in which the sources may answer gives this page. */
  ghost predicate IsPage(page: seq<Line>, before: Option<int>, logs: seq<seq<Line>>, limit: nat, budget: nat, maxLine: nat) {
    exists arrivals :: multiset(arrivals) == multiset(logs) && Collect(Whole(arrivals), before, limit, budget, maxLine) == page
  }

  /** Asking again and again for the lines before the oldest line of the last
      page, until a page comes back empty, over fixed logs and pages under the
      byte bound. */
  ghost predicate Run(pages: seq<seq<Line>>, logs: seq<seq<Line>>, all: seq<Line>, limit: nat, budget: nat, maxLine: nat) {
    if pages == [] then Sources(logs, all) && UnderBound(logs, all, limit, budget, maxLine)
    else
      && Run(Init(pages), logs, all, limit, budget, maxLine)
      && !Done(Init(pages))
      && IsPage(Last(pages), NextCursor(Init(pages)), logs, limit, budget, maxLine)
  }

  lemma {:induction false} RunSources(pages: seq<seq<Line>>, logs: seq<seq<Line>>, all: seq<Line>,
                                      limit: nat, budget: nat, maxLine: nat)
    requires Run(pages, logs, all, limit, budget, maxLine)
    ensures Sources(logs, all) && UnderBound(logs, all, limit, budget, maxLine)
  {
    if pages != [] {
      RunSources(Init(pages), logs, all, limit, budget, maxLine);
    }
  }

  /** The same for one source, whose pages may be cut by bytes as well. */
  ghost predicate OneSourceRun(pages: seq<seq<Line>>, log: seq<Line>, limit: nat, budget: nat) {
    if pages == [] then Stamped(log) && Roomy(log, 2, budget) && limit > 0
    else
      && OneSourceRun(Init(pages), log, limit, budget)
      && !Done(Init(pages))
      && Last(pages) == Fetch(log, NextCursor(Init(pages)), limit, budget)
  }

  /** All pages so far, oldest line first. */
  function Collected(pages: seq<seq<Line>>): seq<Line> {
    if pages == [] then [] else pages[|pages| - 1] + Collected(pages[..|pages| - 1])
  }

  lemma {:induction false} ConcatUnion(pages: seq<seq<Line>>, f: seq<Line> -> multiset<Line>)
    requires forall page :: f(page) == multiset(page)
    ensures multiset(Concat(pages)) == Union(pages, f)
  {
    if pages != [] {
      ConcatUnion(pages[..|pages| - 1], f);
    }
  }

  /** What is assumed of the sources does not depend on the order they answer in. */
  lemma AnyArrivalOrder(logs: seq<seq<Line>>, arrivals: seq<seq<Line>>, all: seq<Line>, limit: nat, budget: nat, maxLine: nat)
    requires Sources(logs, all) && UnderBound(logs, all, limit, budget, maxLine) && multiset(arrivals) == multiset(logs)
    ensures Sources(arrivals, all) && UnderBound(arrivals, all, limit, budget, maxLine)
  {
    var f := (page: seq<Line>) => multiset(page);
    ConcatUnion(logs, f);
    ConcatUnion(arrivals, f);
    UnionOfReordered(arrivals, logs, f);
    forall log | log in arrivals ensures log in logs {
      assert log in multiset(arrivals);
      assert log in multiset(logs);
    }
  }

  /** Every page of the run is an end of what is older than its cursor. */
  ghost predicate GapFree(pages: seq<seq<Line>>, all: seq<Line>) {
    pages == [] ||
    (GapFree(Init(pages), all) && !Done(Init(pages)) && NoGap(Last(pages), Older(all, NextCursor(Init(pages)))))
  }

  lemma {:induction false} RunIsGapFree(pages: seq<seq<Line>>, logs: seq<seq<Line>>, all: seq<Line>,
                                        limit: nat, budget: nat, maxLine: nat)
    requires Run(pages, logs, all, limit, budget, maxLine)
    ensures GapFree(pages, all)
  {
    if pages != [] {
      RunIsGapFree(Init(pages), logs, all, limit, budget, maxLine);
      RunSources(pages, logs, all, limit, budget, maxLine);
      var page, before := Last(pages), NextCursor(Init(pages));
      assert IsPage(page, before, logs, limit, budget, maxLine);
      var arrivals :| multiset(arrivals) == multiset(logs) && Collect(Whole(arrivals), before, limit, budget, maxLine) == page;
      AnyArrivalOrder(logs, arrivals, all, limit, budget, maxLine);
      PageHasNoGap(arrivals, all, before, limit, budget, maxLine);
    }
  }

  lemma {:induction false} OneSourceRunIsGapFree(pages: seq<seq<Line>>, log: seq<Line>, limit: nat, budget: nat)
    requires OneSourceRun(pages, log, limit, budget)
    ensures GapFree(pages, log) && Stamped(log) && Roomy(log, 2, budget) && limit > 0
  {
    if pages != [] {
      OneSourceRunIsGapFree(Init(pages), log, limit, budget);
      OneSourceHasNoGap(log, NextCursor(Init(pages)), limit, budget);
    }
  }

  /** What the pages so far leave for the next request. */
  ghost predicate Leaves(pages: seq<seq<Line>>, rest: seq<Line>, all: seq<Line>) {
    && all == rest + Collected(pages)
    && (if Done(pages) then rest == [] else Older(all, NextCursor(pages)) == rest)
    && |pages| <= |Collected(pages)| + (if Done(pages) then 1 else 0)
  }

  lemma TakePage(later: seq<Line>, page: seq<Line>, rest: seq<Line>, all: seq<Line>) returns (rest': seq<Line>)
    requires Stamped(all) && all == rest + later && page != [] && Suffix(page, rest)
    ensures all == rest' + (page + later) && Older(all, Some(page[0].rank)) == rest'
  {
    rest' := rest[..|rest| - |page|];
    assert rest == rest' + page;
    assert all == rest' + (page + later);
    OlderThanEnd(all, rest', page + later);
  }

  lemma {:induction false} GapFreePagesCollect(pages: seq<seq<Line>>, all: seq<Line>) returns (rest: seq<Line>)
    requires Stamped(all) && GapFree(pages, all)
    ensures Leaves(pages, rest, all)
  {
    if pages == [] {
      rest := all;
      OlderOfAll(all);
    } else {
      var init, page := Init(pages), Last(pages);
      rest := GapFreePagesCollect(init, all);
      if page != [] {
        rest := TakePage(Collected(init), page, rest, all);
      }
    }
  }

  /** Paging back: the pages of any run, put together, are an end of everything
      every source holds, newest page first, with no line skipped or repeated.
      There are at most as many pages as lines, plus the empty one, and once a
      page comes back empty every line has been returned. */
  lemma PagingIsComplete(pages: seq<seq<Line>>, logs: seq<seq<Line>>, all: seq<Line>,
                         limit: nat, budget: nat, maxLine: nat)
    requires Run(pages, logs, all, limit, budget, maxLine)
    ensures Suffix(Collected(pages), all) && |pages| <= |all| + 1
    ensures Done(pages) ==> Collected(pages) == all
  {
    RunIsGapFree(pages, logs, all, limit, budget, maxLine);
    RunSources(pages, logs, all, limit, budget, maxLine);
    var rest := GapFreePagesCollect(pages, all);
    assert all[|rest|..] == Collected(pages);
  }

  /** Paging back through one source: the same, however its pages are cut by
      bytes, as long as any two lines that follow each other fit. */
  lemma OneSourcePagingIsComplete(pages: seq<seq<Line>>, log: seq<Line>, limit: nat, budget: nat)
    requires OneSourceRun(pages, log, limit, budget)
    ensures Suffix(Collected(pages), log) && |pages| <= |log| + 1
    ensures Done(pages) ==> Collected(pages) == log
  {
    OneSourceRunIsGapFree(pages, log, limit, budget);
    var rest := GapFreePagesCollect(pages, log);
    assert log[|rest|..] == Collected(pages);
  }

  // ------------------------------------------- whatever the sources send

  /** The stamps of all lines of all sources parse. */
  predicate Parsed(srcs: seq<Source>) {
    forall src, l :: src in srcs && l in src.log ==> l.time == Some(l.rank)
  }

  /** Asking for the lines before the oldest line of the last page, of any sources
      each time: they may fail, change, come and go, and have any lines. */
  ghost predicate AnyRun(pages: seq<seq<Line>>, limit: nat, budget: nat, maxLine: nat) {
    pages == [] ||
    (AnyRun(Init(pages), limit, budget, maxLine) && !Done(Init(pages))
     && AnyPage(Last(pages), NextCursor(Init(pages)), limit, budget, maxLine))
  }

  ghost predicate AnyPage(page: seq<Line>, before: Option<int>, limit: nat, budget: nat, maxLine: nat) {
    exists srcs :: Parsed(srcs) && Collect(srcs, before, limit, budget, maxLine) == page
  }

  lemma {:induction false} FromIsEnd(q: seq<Line>, floor: Option<int>)
    ensures Suffix(From(q, floor), q)
  {
    if q != [] && floor.Some? && q[0].rank < floor.value {
      FromIsEnd(q[1..], floor);
    }
  }

  lemma AnswerMembers(log: seq<Line>, tail: nat, until: Option<int>)
    ensures forall x :: x in Answer(log, tail, until) ==> x in log
  {
    var upTo := UpTo(log, until);
    LastNIsSuffix(upTo, tail);
    EndMembers(LastN(upTo, tail), upTo);
    if until.Some? {
      OlderMembers(log, Some(until.value + 1));
    }
  }

  lemma FetchedMembers(src: Source, before: Option<int>, limit: nat, budget: nat)
    ensures forall x :: x in FetchFrom(src, before, limit, budget) ==> x in src.log
  {
    var answer := Answer(src.log, TailFor(before, limit), before);
    var sent := Sent(answer, src.sends);
    var read := Newest(sent, budget);
    var older := Older(read, before);
    LastNIsSuffix(older, limit);
    EndMembers(LastN(older, limit), older);
    OlderMembers(read, before);
    NewestIsSuffix(sent, budget);
    EndMembers(read, sent);
    assert forall x :: x in sent ==> x in answer;
    AnswerMembers(src.log, TailFor(before, limit), before);
  }

  lemma StreamParses(srcs: seq<Source>, before: Option<int>, limit: nat, budget: nat)
    requires Parsed(srcs)
    ensures forall x :: x in Concat(FetchAll(srcs, before, limit, budget)) ==> x.time == Some(x.rank)
  {
    var pages := FetchAll(srcs, before, limit, budget);
    forall x | x in Concat(pages) ensures x.time == Some(x.rank) {
      var i := ConcatMember(pages, x);
      FetchedMembers(srcs[i], before, limit, budget);
      assert srcs[i] in srcs;
    }
  }

  lemma PageMembers(stream: seq<Line>, before: Option<int>, limit: nat, budget: nat, x: Line)
    requires x in Page(stream, before, limit, budget)
    ensures x in stream && !Excluded(x, before)
  {
    PageIsPart(stream, before, limit, budget);
    OlderMembers(stream, before);
    assert x in multiset(Page(stream, before, limit, budget));
    assert x in multiset(Older(stream, before));
  }

  lemma EndIsSorted(a: seq<Line>, b: seq<Line>)
    requires Sorted(b) && Suffix(a, b)
    ensures Sorted(a)
  {
    assert forall i :: 0 <= i < |a| ==> a[i] == b[|b| - |a| + i];
  }

  /** Any page, of sources that answer or fail, whatever the bounds are: in order,
      and nothing at or after the cursor. */
  lemma PageIsOlder(srcs: seq<Source>, before: Option<int>, limit: nat, budget: nat, maxLine: nat)
    ensures var p := Collect(srcs, before, limit, budget, maxLine);
            Sorted(p) && (forall x :: x in p ==> !Excluded(x, before))
            && (Parsed(srcs) ==> forall x :: x in p ==> x.time == Some(x.rank))
  {
    var pages := FetchAll(srcs, before, limit, budget);
    var floor, q := Floor(pages, limit, budget, maxLine), Page(Concat(pages), before, limit, budget);
    PageIsSorted(Concat(pages), before, limit, budget);
    FromIsEnd(q, floor);
    EndIsSorted(From(q, floor), q);
    EndMembers(From(q, floor), q);
    if Parsed(srcs) {
      StreamParses(srcs, before, limit, budget);
    }
    forall x | x in From(q, floor) ensures !Excluded(x, before) && x in Concat(pages) {
      PageMembers(Concat(pages), before, limit, budget, x);
    }
  }

  /** A page against the cursor it was asked for. */
  ghost predicate Follows(page: seq<Line>, before: Option<int>) {
    Sorted(page) && (before.Some? ==> forall x :: x in page ==> x.rank < before.value)
  }

  lemma AnyPageFollows(page: seq<Line>, before: Option<int>, limit: nat, budget: nat, maxLine: nat)
    requires AnyPage(page, before, limit, budget, maxLine)
    ensures Follows(page, before)
  {
    var srcs :| Parsed(srcs) && Collect(srcs, before, limit, budget, maxLine) == page;
    PageIsOlder(srcs, before, limit, budget, maxLine);
  }

  /** Every line of `a` is older than every line of `b`. */
  predicate AllOlder(a: seq<Line>, b: seq<Line>) {
    forall x, y :: x in a && y in b ==> x.rank < y.rank
  }

  predicate OlderThanAll(page: seq<Line>, pages: seq<seq<Line>>) {
    pages == [] || (AllOlder(page, Last(pages)) && OlderThanAll(page, Init(pages)))
  }

  /** Every page is in order, and older than all pages before it. */
  predicate Descends(pages: seq<seq<Line>>) {
    pages == [] || (Descends(Init(pages)) && Sorted(Last(pages)) && OlderThanAll(Last(pages), Init(pages)))
  }

  lemma OlderThanFirst(page: seq<Line>, last: seq<Line>)
    requires last != [] && Sorted(last) && forall x :: x in page ==> x.rank < last[0].rank
    ensures AllOlder(page, last)
  {
    forall x, y | x in page && y in last ensures x.rank < y.rank {
      var n :| 0 <= n < |last| && last[n] == y;
    }
  }

  lemma {:induction false} OlderThrough(page: seq<Line>, last: seq<Line>, pages: seq<seq<Line>>)
    requires AllOlder(page, last) && last != [] && OlderThanAll(last, pages)
    ensures OlderThanAll(page, pages)
  {
    if pages != [] {
      OlderThrough(page, last, Init(pages));
      assert last[0] in last;
    }
  }

  lemma {:induction false} PagesDescend(pages: seq<seq<Line>>, limit: nat, budget: nat, maxLine: nat)
    requires AnyRun(pages, limit, budget, maxLine)
    ensures Descends(pages)
  {
    if pages != [] {
      var init, page := Init(pages), Last(pages);
      PagesDescend(init, limit, budget, maxLine);
      AnyPageFollows(page, NextCursor(init), limit, budget, maxLine);
      if init != [] {
        OlderThanFirst(page, Last(init));
        OlderThrough(page, Last(init), Init(init));
      }
    }
  }

  lemma {:induction false} OlderThanEach(page: seq<Line>, pages: seq<seq<Line>>, i: nat)
    requires OlderThanAll(page, pages) && i < |pages|
    ensures AllOlder(page, pages[i])
  {
    if i < |pages| - 1 {
      OlderThanEach(page, Init(pages), i);
    }
  }

  lemma {:induction false} DescendsAt(pages: seq<seq<Line>>, i: nat, j: nat)
    requires Descends(pages) && i < j < |pages|
    ensures AllOlder(pages[j], pages[i])
  {
    if j < |pages| - 1 {
      DescendsAt(Init(pages), i, j);
    } else {
      OlderThanEach(Last(pages), Init(pages), i);
    }
  }

  /** Paging back never returns a line again: every line of a page is older than
      every line of the pages before it, for any bounds and any sources, also ones
      that fail or change from page to page. */
  lemma PagesNeverRepeat(pages: seq<seq<Line>>, limit: nat, budget: nat, maxLine: nat, i: nat, j: nat, x: Line, y: Line)
    requires AnyRun(pages, limit, budget, maxLine) && i < j < |pages| && x in pages[j] && y in pages[i]
    ensures x.rank < y.rank
  {
    PagesDescend(pages, limit, budget, maxLine);
    DescendsAt(pages, i, j);
  }
}

/** The newest lines of a stream (backend/api/logs.go). */
module NewestLines {
  // What a page keeps, and how the streaming form that trims as it goes, in
  // bounded memory, compares with sorting the whole stream and cutting once.

  import opened Common
  import opened LogLines

  // ---------------------------------------------------------------- the cut

  /** Fits in the byte budget; one line always does, so that a page moves on. */
  predicate FitsBytes(s: seq<Line>, budget: nat) {
    |s| <= 1 || Size(s) <= budget
  }

  predicate Fits(s: seq<Line>, limit: nat, budget: nat) {
    |s| <= limit && FitsBytes(s, budget)
  }

  /** Drops oldest lines until the rest fits. */
  function Newest(s: seq<Line>, budget: nat): (r: seq<Line>)
    ensures |r| <= |s|
  {
    if FitsBytes(s, budget) then s else Newest(s[1..], budget)
  }

  function LastN(s: seq<Line>, n: nat): seq<Line> {
    if |s| > n then s[|s| - n..] else s
  }

  /** The newest lines of a sorted sequence within both bounds. */
  function Cut(s: seq<Line>, limit: nat, budget: nat): seq<Line> {
    Newest(LastN(s, limit), budget)
  }

  /** `t` is as long an end of `a + t` as fits in the byte budget. */
  predicate StopsAt(a: seq<Line>, t: seq<Line>, budget: nat) {
    FitsBytes(t, budget) && (a != [] ==> !FitsBytes([Last(a)] + t, budget))
  }

  /** `Newest` keeps the longest end that fits. */
  lemma {:induction false} NewestIsLongest(a: seq<Line>, t: seq<Line>, budget: nat)
    requires StopsAt(a, t, budget)
    ensures Newest(a + t, budget) == t
  {
    if a == [] {
      assert a + t == t;
    } else {
      assert (a + t)[1..] == a[1..] + t;
      assert a + t == a[..|a| - 1] + ([Last(a)] + t);
      SizeConcat(a[..|a| - 1], [Last(a)] + t);
      NewestIsLongest(a[1..], t, budget);
    }
  }

  lemma StopsBehind(x: Line, a: seq<Line>, t: seq<Line>, budget: nat)
    requires StopsAt(a, t, budget) && !FitsBytes([x] + (a + t), budget)
    ensures StopsAt([x] + a, t, budget)
  {
    if a == [] {
      assert [x] + (a + t) == [x] + t;
    } else {
      assert Last([x] + a) == Last(a);
    }
  }

  lemma {:induction false} NewestStops(s: seq<Line>, budget: nat) returns (a: seq<Line>)
    ensures s == a + Newest(s, budget) && StopsAt(a, Newest(s, budget), budget)
  {
    if FitsBytes(s, budget) {
      a := [];
    } else {
      var rest := NewestStops(s[1..], budget);
      var t := Newest(s[1..], budget);
      assert s == [s[0]] + (rest + t) == ([s[0]] + rest) + t;
      StopsBehind(s[0], rest, t, budget);
      a := [s[0]] + rest;
    }
  }

  /** `t` is as long an end of `a + t` as fits in both bounds. */
  predicate Maximal(a: seq<Line>, t: seq<Line>, limit: nat, budget: nat) {
    Fits(t, limit, budget) && (a != [] ==> !Fits([Last(a)] + t, limit, budget))
  }

  /** A cut is an end of the sequence; it fits, and one more line would not. */
  lemma CutIsMaximal(s: seq<Line>, limit: nat, budget: nat) returns (a: seq<Line>)
    ensures s == a + Cut(s, limit, budget) && Maximal(a, Cut(s, limit, budget), limit, budget)
  {
    var n := LastN(s, limit);
    var b := NewestStops(n, budget);
    a := MaximalEnd(s, n, b, Newest(n, budget), limit, budget);
  }

  lemma MaximalEnd(s: seq<Line>, n: seq<Line>, b: seq<Line>, t: seq<Line>, limit: nat, budget: nat) returns (a: seq<Line>)
    requires n == LastN(s, limit) && n == b + t && StopsAt(b, t, budget)
    ensures s == a + t && Maximal(a, t, limit, budget)
  {
    var d := s[..|s| - |n|];
    assert s == d + n == d + (b + t) == (d + b) + t;
    a := d + b;
    assert b != [] ==> Last(a) == Last(b);
  }

  lemma EndFits(a: seq<Line>, t: seq<Line>, limit: nat, budget: nat)
    requires Fits(a + t, limit, budget)
    ensures Fits(t, limit, budget)
  {
    SizeConcat(a, t);
  }

  /** Every end that fits is part of a maximal one. */
  lemma FittingIsInMaximal(a: seq<Line>, t: seq<Line>, x: seq<Line>, u: seq<Line>, limit: nat, budget: nat)
    requires a + t == x + u && Fits(t, limit, budget) && Maximal(x, u, limit, budget)
    ensures Suffix(t, u)
  {
    if |a| < |x| {
      var d := Overlap(a, t, x, u);
      assert t == d[..|d| - 1] + ([Last(x)] + u);
      EndFits(d[..|d| - 1], [Last(x)] + u, limit, budget);
      assert false;
    }
    var d := Overlap(x, u, a, t);
  }

  lemma FittingIsInCut(a: seq<Line>, t: seq<Line>, limit: nat, budget: nat)
    requires Fits(t, limit, budget)
    ensures Suffix(t, Cut(a + t, limit, budget))
  {
    var x := CutIsMaximal(a + t, limit, budget);
    FittingIsInMaximal(a, t, x, Cut(a + t, limit, budget), limit, budget);
  }

  /** `newestWithin`: the scan from the newest line back. */
  method NewestWithin(lines: seq<Line>, budget: nat) returns (kept: seq<Line>, size: nat)
    ensures kept == Newest(lines, budget) && size == Size(kept)
  {
    var start := |lines|;
    size := 0;
    while start > 0
      invariant 0 <= start <= |lines|
      invariant size == Size(lines[start..]) && FitsBytes(lines[start..], budget)
    {
      var s := |lines[start - 1].text|;
      assert lines[start - 1..] == [lines[start - 1]] + lines[start..];
      if size + s > budget && start < |lines| {
        break;
      }
      size := size + s;
      start := start - 1;
    }
    NewestIsLongest(lines[..start], lines[start..], budget);
    assert lines == lines[..start] + lines[start..];
    kept := lines[start..];
  }

  // ------------------------------------------------------ a stream in order

  /** Trimming part of a stream early changes nothing when lines are kept in
      stream order. */
  lemma TrimEarly(s: seq<Line>, l: Line, budget: nat)
    ensures Newest(Newest(s, budget) + [l], budget) == Newest(s + [l], budget)
  {
    var a := NewestStops(s, budget);
    var b := NewestStops(Newest(s, budget) + [l], budget);
    NewestTwice(a, Newest(s, budget), l, b, Newest(Newest(s, budget) + [l], budget), budget);
  }

  lemma OverMore(x: Line, t: seq<Line>, l: Line, budget: nat)
    requires !FitsBytes([x] + t, budget)
    ensures !FitsBytes([x] + (t + [l]), budget)
  {
    SizeConcat([x] + t, [l]);
    assert [x] + (t + [l]) == ([x] + t) + [l];
  }

  lemma StopsTogether(a: seq<Line>, b: seq<Line>, u: seq<Line>, budget: nat)
    requires StopsAt(b, u, budget) && (a != [] && b == [] ==> !FitsBytes([Last(a)] + u, budget))
    ensures StopsAt(a + b, u, budget)
  {
    assert b != [] ==> Last(a + b) == Last(b);
    assert b == [] ==> a + b == a;
  }

  lemma Regroup(a: seq<Line>, t: seq<Line>, l: Line, b: seq<Line>, u: seq<Line>)
    requires t + [l] == b + u
    ensures (a + t) + [l] == (a + b) + u
  {
    assert (a + t) + [l] == a + (t + [l]);
    assert (a + b) + u == a + (b + u);
  }

  lemma NewestTwice(a: seq<Line>, t: seq<Line>, l: Line, b: seq<Line>, u: seq<Line>, budget: nat)
    requires StopsAt(a, t, budget) && t + [l] == b + u && StopsAt(b, u, budget)
    ensures Newest((a + t) + [l], budget) == u
  {
    if a != [] && b == [] {
      OverMore(Last(a), t, l, budget);
      assert b + u == u;
    }
    StopsTogether(a, b, u, budget);
    Regroup(a, t, l, b, u);
    NewestIsLongest(a + b, u, budget);
  }

  /** `readLogLines`: the newest of the first `limit` lines that fit, though the
      lines held are trimmed whenever they are twice over budget. */
  method ReadLogLines(stream: seq<Line>, limit: nat, budget: nat) returns (lines: seq<Line>)
    ensures lines == Newest(stream[..if |stream| < limit then |stream| else limit], budget)
  {
    lines := [];
    var size := 0;
    var n := 0;
    while n < limit && n < |stream|
      invariant 0 <= n <= |stream| && n <= limit
      invariant size == Size(lines)
      invariant Newest(lines, budget) == Newest(stream[..n], budget)
    {
      var e := stream[n];
      TrimEarly(lines, e, budget);
      TrimEarly(stream[..n], e, budget);
      assert stream[..n + 1] == stream[..n] + [e];
      SizeConcat(lines, [e]);
      lines := lines + [e];
      size := size + |e.text|;
      if size > 2 * budget {
        var a := NewestStops(lines, budget);
        lines, size := NewestWithin(lines, budget);
      }
      n := n + 1;
    }
    lines, size := NewestWithin(lines, budget);
  }

  // --------------------------------------------------- any stream, any order

  /** The line is at or after the cursor. */
  predicate Excluded(l: Line, cut: Option<int>) {
    cut.Some? && l.time.Some? && l.time.value >= cut.value
  }

  function Older(s: seq<Line>, cut: Option<int>): seq<Line> {
    if s == [] then []
    else Older(s[..|s| - 1], cut) + if Excluded(s[|s| - 1], cut) then [] else [s[|s| - 1]]
  }

  /** The page a reader wants: drop what the cursor excludes, sort everything,
      keep the newest within both bounds. */
  function Reference(stream: seq<Line>, cut: Option<int>, limit: nat, budget: nat): seq<Line> {
    Cut(StableSort(Older(stream, cut)), limit, budget)
  }

  function Trim(held: seq<Line>, limit: nat, budget: nat): seq<Line> {
    Cut(StableSort(held), limit, budget)
  }

  predicate Overfull(held: seq<Line>, limit: nat, budget: nat) {
    |held| >= 2 * limit || Size(held) > 2 * budget
  }

  /** The lines held after one more line. */
  function AddLine(held: seq<Line>, l: Line, cut: Option<int>, limit: nat, budget: nat): seq<Line> {
    if Excluded(l, cut) then held
    else if Overfull(held + [l], limit, budget) then Trim(held + [l], limit, budget)
    else held + [l]
  }

  /** The lines held after a whole stream. */
  function Held(stream: seq<Line>, cut: Option<int>, limit: nat, budget: nat): seq<Line> {
    if stream == [] then []
    else AddLine(Held(stream[..|stream| - 1], cut, limit, budget), stream[|stream| - 1], cut, limit, budget)
  }

  /** The page the selector returns for a stream. */
  function Page(stream: seq<Line>, cut: Option<int>, limit: nat, budget: nat): seq<Line> {
    Trim(Held(stream, cut, limit, budget), limit, budget)
  }

  lemma Append(stream: seq<Line>, l: Line, cut: Option<int>, limit: nat, budget: nat)
    ensures Held(stream + [l], cut, limit, budget) == AddLine(Held(stream, cut, limit, budget), l, cut, limit, budget)
    ensures Older(stream + [l], cut) == Older(stream, cut) + if Excluded(l, cut) then [] else [l]
  {
    assert (stream + [l])[..|stream|] == stream;
  }

  lemma SortAppend(s: seq<Line>, l: Line)
    ensures StableSort(s + [l]) == Insert(StableSort(s), l)
  {
    assert (s + [l])[..|s|] == s;
  }

  /** `newestLines`: the selector itself. `stream` remembers every line added. */
  class Selector {
    const cut: Option<int>
    const limit: nat
    const budget: nat
    var lines: seq<Line>
    var size: nat
    ghost var stream: seq<Line>

    ghost predicate Valid()
      reads this
    {
      size == Size(lines) && lines == Held(stream, cut, limit, budget)
    }

    constructor (cut: Option<int>, limit: nat, budget: nat)
      ensures Valid() && stream == []
      ensures this.cut == cut && this.limit == limit && this.budget == budget
    {
      this.cut, this.limit, this.budget := cut, limit, budget;
      lines, size, stream := [], 0, [];
    }

    method Add(l: Line)
      requires Valid()
      modifies this
      ensures Valid() && stream == old(stream) + [l]
    {
      Append(stream, l, cut, limit, budget);
      stream := stream + [l];
      if cut.Some? && l.time.Some? && l.time.value >= cut.value {
        return;
      }
      SizeConcat(lines, [l]);
      lines := lines + [l];
      size := size + |l.text|;
      if |lines| >= 2 * limit || size > 2 * budget {
        TrimLines();
      }
    }

    method TrimLines()
      modifies `lines, `size
      ensures lines == Trim(old(lines), limit, budget) && size == Size(lines)
    {
      lines := StableSort(lines);
      if |lines| > limit {
        lines := lines[|lines| - limit..];
      }
      lines, size := NewestWithin(lines, budget);
    }

    /** The kept lines, oldest first, and what they have to do with the page a
        reader wants. */
    method Result() returns (page: seq<Line>)
      requires Valid()
      modifies `lines, `size
      ensures page == Page(stream, cut, limit, budget)
      ensures Suffix(Reference(stream, cut, limit, budget), page)
      ensures Fits(page, limit, budget) && Sorted(page)
    {
      ReferenceIsSuffix(stream, cut, limit, budget);
      PageIsSorted(stream, cut, limit, budget);
      TrimLines();
      page := lines;
    }
  }

  // ----------------------------------------------------------- the invariant

  /** What trimming early loses. The whole stream sorted is `a + t`, the held
      lines sorted are `b + t`. A cut of the stream ends before it reaches the
      last line of `a`, and whatever `b` holds is no newer than that line. */
  predicate Covers(a: seq<Line>, b: seq<Line>, t: seq<Line>, limit: nat, budget: nat) {
    && (a == [] ==> b == [])
    && (a != [] ==> !Fits([Last(a)] + t, limit, budget))
    && (a != [] && b != [] ==> Last(b).rank <= Last(a).rank)
  }

  lemma {:induction false} SizeOfInsert(s: seq<Line>, l: Line)
    ensures Size(Insert(s, l)) == Size(s) + |l.text|
  {
    if s == [] || s[|s| - 1].rank <= l.rank {
      SizeConcat(s, [l]);
    } else {
      var init, last := s[..|s| - 1], s[|s| - 1];
      SizeOfInsert(init, l);
      SizeConcat(init, [last]);
      SizeConcat(Insert(init, l), [last]);
      assert s == init + [last];
    }
  }

  lemma InsertOverflows(a: Line, t: seq<Line>, l: Line, limit: nat, budget: nat)
    requires !Fits([a] + t, limit, budget)
    ensures !Fits([a] + Insert(t, l), limit, budget)
  {
    SizeOfInsert(t, l);
    SizeConcat([a], t);
    SizeConcat([a], Insert(t, l));
  }

  lemma InsertLast(s: seq<Line>, l: Line)
    ensures Last(Insert(s, l)) == if s == [] || Last(s).rank <= l.rank then l else Last(s)
  {
  }

  /** A new line keeps the cover: it lands in the shared part, or behind the
      line at which a cut stops. */
  lemma CoversAfterInsert(a: seq<Line>, b: seq<Line>, t: seq<Line>, l: Line, limit: nat, budget: nat)
      returns (a': seq<Line>, b': seq<Line>, t': seq<Line>)
    requires Sorted(a + t) && Covers(a, b, t, limit, budget)
    ensures Insert(a + t, l) == a' + t' && Insert(b + t, l) == b' + t'
    ensures Covers(a', b', t', limit, budget)
    ensures (a' == [] <==> a == []) && |t'| >= |t|
    ensures b == [] && (a + t == [] || Last(a + t).rank <= l.rank) ==> b' == []
  {
    if a == [] || Last(a).rank <= l.rank {
      a', b', t' := a, b, Insert(t, l);
      InsertAfter(a, t, l);
      InsertAfter(b, t, l);
      if a != [] {
        InsertOverflows(Last(a), t, l, limit, budget);
      }
    } else {
      a', b', t' := Insert(a, l), Insert(b, l), t;
      forall x | x in t ensures l.rank < x.rank {
        var i :| 0 <= i < |t| && t[i] == x;
        assert (a + t)[|a| - 1] == Last(a) && (a + t)[|a| + i] == x;
      }
      InsertBefore(a, t, l);
      InsertBefore(b, t, l);
      InsertLast(a, l);
      InsertLast(b, l);
      assert Last(a + t) == if t == [] then Last(a) else Last(t);
    }
  }

  /** Trimming the held lines keeps the cover. */
  lemma CoversAfterTrim(a: seq<Line>, b: seq<Line>, t: seq<Line>, limit: nat, budget: nat)
      returns (a': seq<Line>, b': seq<Line>, t': seq<Line>)
    requires Covers(a, b, t, limit, budget)
    ensures a' + t' == a + t && b' + t' == Cut(b + t, limit, budget)
    ensures Covers(a', b', t', limit, budget)
    ensures b == [] ==> b' == []
    ensures (a' == a && t' == t) || (b' == [] && |t'| < |t|)
  {
    var x := CutIsMaximal(b + t, limit, budget);
    a', b', t' := CoversMaximal(a, b, t, x, Cut(b + t, limit, budget), limit, budget);
  }

  lemma CoversMaximal(a: seq<Line>, b: seq<Line>, t: seq<Line>, x: seq<Line>, u: seq<Line>, limit: nat, budget: nat)
      returns (a': seq<Line>, b': seq<Line>, t': seq<Line>)
    requires Covers(a, b, t, limit, budget) && b + t == x + u && Maximal(x, u, limit, budget)
    ensures a' + t' == a + t && b' + t' == u
    ensures Covers(a', b', t', limit, budget)
    ensures b == [] ==> b' == []
    ensures (a' == a && t' == t) || (b' == [] && |t'| < |t|)
  {
    if |x| <= |b| {
      var d := Overlap(x, u, b, t);
      a', b', t' := a, d, t;
    } else {
      var d := Overlap(b, t, x, u);
      a', b', t' := a + d, [], u;
      assert Last(a') == Last(x);
    }
  }

  /** The stream so far is `s`, the held lines are `h`: the cover, tight when the
      stream is in stamp order. */
  ghost predicate Tracks(s: seq<Line>, h: seq<Line>, a: seq<Line>, b: seq<Line>, t: seq<Line>, limit: nat, budget: nat) {
    && StableSort(s) == a + t && StableSort(h) == b + t
    && Covers(a, b, t, limit, budget)
    && (Sorted(s) ==> b == [])
    && multiset(h) <= multiset(s)
  }

  lemma TrackAppend(s: seq<Line>, h: seq<Line>, l: Line,
                    a: seq<Line>, b: seq<Line>, t: seq<Line>, limit: nat, budget: nat)
      returns (a': seq<Line>, b': seq<Line>, t': seq<Line>)
    requires Tracks(s, h, a, b, t, limit, budget)
    ensures Tracks(s + [l], h + [l], a', b', t', limit, budget)
  {
    SortAppend(s, l);
    SortAppend(h, l);
    SortedPrefix(s, l);
    StableSortSorts(s);
    a', b', t' := CoversAfterInsert(a, b, t, l, limit, budget);
  }

  lemma TrackAdd(s: seq<Line>, h: seq<Line>, l: Line, cut: Option<int>,
                 a: seq<Line>, b: seq<Line>, t: seq<Line>, limit: nat, budget: nat)
      returns (a': seq<Line>, b': seq<Line>, t': seq<Line>)
    requires Tracks(s, h, a, b, t, limit, budget)
    ensures Tracks(s + if Excluded(l, cut) then [] else [l], AddLine(h, l, cut, limit, budget), a', b', t', limit, budget)
  {
    if Excluded(l, cut) {
      assert s + [] == s;
      return a, b, t;
    }
    a', b', t' := TrackAppend(s, h, l, a, b, t, limit, budget);
    if Overfull(h + [l], limit, budget) {
      a', b', t' := TrackTrim(s + [l], h + [l], a', b', t', limit, budget);
    }
  }

  /** The cover holds along every stream. */
  lemma {:induction false} HeldCovers(stream: seq<Line>, cut: Option<int>, limit: nat, budget: nat)
      returns (a: seq<Line>, b: seq<Line>, t: seq<Line>)
    ensures Tracks(Older(stream, cut), Held(stream, cut, limit, budget), a, b, t, limit, budget)
  {
    if stream == [] {
      a, b, t := [], [], [];
    } else {
      var init, l := stream[..|stream| - 1], stream[|stream| - 1];
      a, b, t := HeldCovers(init, cut, limit, budget);
      a, b, t := TrackAdd(Older(init, cut), Held(init, cut, limit, budget), l, cut, a, b, t, limit, budget);
    }
  }

  lemma SortedPrefix(s: seq<Line>, l: Line)
    ensures Sorted(s + [l]) ==> Sorted(s) && StableSort(s) == s && (s == [] || Last(s).rank <= l.rank)
  {
    if Sorted(s + [l]) {
      assert forall i :: 0 <= i < |s| ==> (s + [l])[i] == s[i];
      SortOfSorted(s);
      assert (s + [l])[|s|] == l;
    }
  }

  lemma TrackTrim(s: seq<Line>, h: seq<Line>, a: seq<Line>, b: seq<Line>, t: seq<Line>, limit: nat, budget: nat)
      returns (a': seq<Line>, b': seq<Line>, t': seq<Line>)
    requires Tracks(s, h, a, b, t, limit, budget)
    ensures Tracks(s, Trim(h, limit, budget), a', b', t', limit, budget)
  {
    a', b', t' := CoversAfterTrim(a, b, t, limit, budget);
    var r := StableSort(h);
    var x := CutIsMaximal(r, limit, budget);
    StableSortSorts(h);
    assert multiset(r) == multiset(x) + multiset(Trim(h, limit, budget));
    SortedEnd(x, Trim(h, limit, budget));
  }

  lemma SortedEnd(a: seq<Line>, t: seq<Line>)
    requires Sorted(a + t)
    ensures Sorted(t) && StableSort(t) == t
  {
    assert forall i :: 0 <= i < |t| ==> (a + t)[|a| + i] == t[i];
    SortOfSorted(t);
  }

  // ------------------------------------------------------------- the results

  lemma PageIsSorted(stream: seq<Line>, cut: Option<int>, limit: nat, budget: nat)
    ensures Sorted(Page(stream, cut, limit, budget)) && Fits(Page(stream, cut, limit, budget), limit, budget)
  {
    var s := StableSort(Held(stream, cut, limit, budget));
    StableSortSorts(Held(stream, cut, limit, budget));
    var a := CutIsMaximal(s, limit, budget);
    SortedEnd(a, Cut(s, limit, budget));
  }

  lemma PageIsPart(stream: seq<Line>, cut: Option<int>, limit: nat, budget: nat)
    ensures multiset(Page(stream, cut, limit, budget)) <= multiset(Older(stream, cut))
  {
    var h := Held(stream, cut, limit, budget);
    var a, b, t := HeldCovers(stream, cut, limit, budget);
    var x := CutIsMaximal(StableSort(h), limit, budget);
    StableSortSorts(h);
    assert multiset(StableSort(h)) == multiset(x) + multiset(Page(stream, cut, limit, budget));
  }

  /** The page a reader wants is always the newest end of the page returned. */
  lemma ReferenceIsSuffix(stream: seq<Line>, cut: Option<int>, limit: nat, budget: nat)
    ensures Suffix(Reference(stream, cut, limit, budget), Page(stream, cut, limit, budget))
  {
    var a, b, t := HeldCovers(stream, cut, limit, budget);
    CoveredCut(a, b, t, limit, budget);
  }

  lemma CoveredCut(a: seq<Line>, b: seq<Line>, t: seq<Line>, limit: nat, budget: nat)
    requires Covers(a, b, t, limit, budget)
    ensures Suffix(Cut(a + t, limit, budget), Cut(b + t, limit, budget))
  {
    var x := CutIsMaximal(a + t, limit, budget);
    var d := CoveredMaximal(a, b, t, x, Cut(a + t, limit, budget), limit, budget);
    FittingIsInCut(b + d, Cut(a + t, limit, budget), limit, budget);
  }

  lemma CoveredMaximal(a: seq<Line>, b: seq<Line>, t: seq<Line>, x: seq<Line>, u: seq<Line>, limit: nat, budget: nat)
      returns (d: seq<Line>)
    requires Covers(a, b, t, limit, budget) && a + t == x + u && Maximal(x, u, limit, budget)
    ensures b + t == (b + d) + u
  {
    if |x| < |a| {
      d := Overlap(x, u, a, t);
      assert u == d[..|d| - 1] + ([Last(a)] + t);
      EndFits(d[..|d| - 1], [Last(a)] + t, limit, budget);
      assert false;
    }
    d := Overlap(a, t, x, u);
  }

  /** The page is the wanted one exactly when it has no gap, that is, when every
      line newer than its oldest line is in it. */
  lemma ExactWhenContiguous(stream: seq<Line>, cut: Option<int>, limit: nat, budget: nat)
    ensures Page(stream, cut, limit, budget) == Reference(stream, cut, limit, budget)
            <==> Suffix(Page(stream, cut, limit, budget), StableSort(Older(stream, cut)))
  {
    ReferenceIsSuffix(stream, cut, limit, budget);
    var x := CutIsMaximal(StableSort(Older(stream, cut)), limit, budget);
    var y := CutIsMaximal(StableSort(Held(stream, cut, limit, budget)), limit, budget);
    EqualIfSuffix(x, Reference(stream, cut, limit, budget), Page(stream, cut, limit, budget), limit, budget);
  }

  lemma EqualIfSuffix(x: seq<Line>, u: seq<Line>, page: seq<Line>, limit: nat, budget: nat)
    requires Maximal(x, u, limit, budget) && Fits(page, limit, budget) && Suffix(u, page)
    ensures page == u <==> Suffix(page, x + u)
  {
    var s := x + u;
    if Suffix(page, s) {
      assert s == s[..|s| - |page|] + page;
      FittingIsInMaximal(s[..|s| - |page|], page, x, u, limit, budget);
    }
    assert s[|x|..] == u;
  }

  /** Lines that arrive in stamp order give exactly the wanted page. */
  lemma ExactInStampOrder(stream: seq<Line>, cut: Option<int>, limit: nat, budget: nat)
    requires Sorted(Older(stream, cut))
    ensures Page(stream, cut, limit, budget) == Reference(stream, cut, limit, budget)
  {
    var a, b, t := HeldCovers(stream, cut, limit, budget);
    assert b + t == t;
    var x := CutIsMaximal(b + t, limit, budget);
    var s, page := StableSort(Older(stream, cut)), Page(stream, cut, limit, budget);
    assert Suffix(page, s) by { EndOfEnd(a, b + t, x, page); }
    ExactWhenContiguous(stream, cut, limit, budget);
  }

  lemma EndOfEnd(a: seq<Line>, t: seq<Line>, x: seq<Line>, u: seq<Line>)
    requires t == x + u
    ensures Suffix(u, a + t)
  {
    assert a + t == (a + x) + u;
  }

  /** When the newest `limit` lines fit in the byte budget, arrival order does not
      matter, and the page is exactly those lines. */
  lemma ExactUnderBudget(stream: seq<Line>, cut: Option<int>, limit: nat, budget: nat)
    requires FitsBytes(LastN(StableSort(Older(stream, cut)), limit), budget)
    ensures Page(stream, cut, limit, budget) == Reference(stream, cut, limit, budget)
            == LastN(StableSort(Older(stream, cut)), limit)
  {
    ReferenceIsSuffix(stream, cut, limit, budget);
    PageIsSorted(stream, cut, limit, budget);
    HeldIsNoLonger(stream, cut, limit, budget);
  }

  lemma {:induction false} HeldIsNoLonger(stream: seq<Line>, cut: Option<int>, limit: nat, budget: nat)
    ensures |Held(stream, cut, limit, budget)| <= |Older(stream, cut)|
  {
    if stream != [] {
      HeldIsNoLonger(stream[..|stream| - 1], cut, limit, budget);
    }
  }

  predicate Bounded(h: seq<Line>, limit: nat, budget: nat) {
    |h| <= 2 * limit && (limit > 0 ==> |h| < 2 * limit) && (|h| <= 1 || Size(h) <= 2 * budget)
  }

  lemma AddIsBounded(h: seq<Line>, l: Line, cut: Option<int>, limit: nat, budget: nat)
    requires Bounded(h, limit, budget)
    ensures Bounded(AddLine(h, l, cut, limit, budget), limit, budget)
  {
    var a := CutIsMaximal(StableSort(h + [l]), limit, budget);
  }

  /** Memory: between adds, fewer than twice `limit` lines and at most twice the
      budget are held, or one oversized line. */
  lemma {:induction false} HeldIsBounded(stream: seq<Line>, cut: Option<int>, limit: nat, budget: nat)
    ensures Bounded(Held(stream, cut, limit, budget), limit, budget)
  {
    if stream != [] {
      var init, l := stream[..|stream| - 1], stream[|stream| - 1];
      HeldIsBounded(init, cut, limit, budget);
      AddIsBounded(Held(init, cut, limit, budget), l, cut, limit, budget);
    }
  }

  // ------------------------------------------- when the page may have a gap

  predicate AtMost(s: seq<Line>, m: nat) {
    s == [] || (|Last(s).text| <= m && AtMost(Init(s), m))
  }

  lemma AtMostMore(s: seq<Line>, l: Line, m: nat)
    requires AtMost(s, m) && |l.text| <= m
    ensures AtMost(s + [l], m)
  {
    InitMore(s, l);
  }

  lemma {:induction false} AtMostMembers(s: seq<Line>, m: nat)
    ensures AtMost(s, m) <==> forall l :: l in s ==> |l.text| <= m
  {
    if s != [] {
      AtMostMembers(Init(s), m);
      assert s == Init(s) + [Last(s)];
    }
  }

  lemma {:induction false} SizeAtMost(s: seq<Line>, m: nat)
    requires AtMost(s, m)
    ensures Size(s) <= m * |s|
  {
    if s != [] {
      SizeAtMost(Init(s), m);
      SizeConcat(Init(s), [Last(s)]);
      assert s == Init(s) + [Last(s)];
      TimesMore(m, |Init(s)|);
      assert Size([Last(s)]) == |Last(s).text|;
    }
  }

  /** A maximal end is the cut. */
  lemma CutOfMaximal(x: seq<Line>, u: seq<Line>, limit: nat, budget: nat)
    requires Maximal(x, u, limit, budget)
    ensures Cut(x + u, limit, budget) == u
  {
    var y := CutIsMaximal(x + u, limit, budget);
    var v := Cut(x + u, limit, budget);
    FittingIsInMaximal(x, u, y, v, limit, budget);
    FittingIsInMaximal(y, v, x, u, limit, budget);
  }

  lemma {:induction false} OlderOfAll(s: seq<Line>)
    ensures Older(s, None) == s
  {
    if s != [] {
      var init, last := s[..|s| - 1], s[|s| - 1];
      OlderOfAll(init);
      assert !Excluded(last, None);
      assert s == init + [last];
    }
  }

  lemma InsertFirst(s: seq<Line>, e: Line)
    requires forall l :: l in s ==> e.rank < l.rank
    ensures Insert(s, e) == [e] + s
  {
    InsertBefore([], s, e);
    assert [] + s == s;
  }

  /** An empty line older than all others comes first, and does not show in a cut
      that stops before it. */
  lemma JumpedOverReference(stream: seq<Line>, a: seq<Line>, t: seq<Line>, e: Line, limit: nat, budget: nat)
    requires StableSort(stream) == a + t && a != [] && Maximal(a, t, limit, budget)
    requires forall l :: l in a + t ==> e.rank < l.rank
    ensures Reference(stream + [e], None, limit, budget) == t
  {
    OlderOfAll(stream + [e]);
    SortAppend(stream, e);
    InsertFirst(a + t, e);
    CutBehindFirst(a, t, e, limit, budget);
  }

  lemma CutBehindFirst(a: seq<Line>, t: seq<Line>, e: Line, limit: nat, budget: nat)
    requires a != [] && Maximal(a, t, limit, budget)
    ensures Cut([e] + (a + t), limit, budget) == t
  {
    assert [e] + (a + t) == ([e] + a) + t;
    CutOfMaximal([e] + a, t, limit, budget);
  }

  lemma SortFirst(t: seq<Line>, e: Line)
    requires Sorted(t) && forall l :: l in t ==> e.rank < l.rank
    ensures StableSort(t + [e]) == [e] + t && StableSort([e] + t) == [e] + t
  {
    SortOfSorted(t);
    SortAppend(t, e);
    InsertFirst(t, e);
    StableSortSorts(t + [e]);
    SortOfSorted([e] + t);
  }

  lemma CutAll(s: seq<Line>, limit: nat, budget: nat)
    requires Fits(s, limit, budget)
    ensures Cut(s, limit, budget) == s
  {
  }

  /** Trimmed right away or only at the end, the empty older line stays. */
  lemma EmptyStays(t: seq<Line>, e: Line, limit: nat, budget: nat)
    requires Sorted(t) && Size(t) <= budget && |t| < limit && e.text == "" && forall l :: l in t ==> e.rank < l.rank
    ensures Trim(t + [e], limit, budget) == [e] + t && Trim([e] + t, limit, budget) == [e] + t
  {
    SortFirst(t, e);
    SizeConcat([e], t);
    assert Size([e]) == 0;
    CutAll([e] + t, limit, budget);
  }

  /** A stream whose newest lines `t` are all that is held, though `a` was read
      too, jumps over the end of `a` when an empty, older line `e` follows. */
  lemma JumpsOver(stream: seq<Line>, a: seq<Line>, t: seq<Line>, e: Line, limit: nat, budget: nat)
    requires StableSort(stream) == a + t && a != [] && Maximal(a, t, limit, budget)
    requires Held(stream, None, limit, budget) == t && Sorted(t) && Size(t) <= budget && |t| < limit
    requires e.text == "" && forall l :: l in a + t ==> e.rank < l.rank
    ensures Page(stream + [e], None, limit, budget) == [e] + t
    ensures Reference(stream + [e], None, limit, budget) == t
  {
    JumpedOverReference(stream, a, t, e, limit, budget);
    Append(stream, e, None, limit, budget);
    assert forall l :: l in t ==> l in a + t;
    EmptyStays(t, e, limit, budget);
  }

  /** A text of `n` bytes. */
  function Text(n: nat): (s: string)
    ensures |s| == n
  {
    if n == 0 then "" else Text(n - 1) + "x"
  }

  /** A line of `n` bytes at the `rank`-th stamp. */
  function Sized(rank: int, n: nat): Line {
    Line("c", rank, Some(rank), Text(n))
  }

  lemma Times(m: nat, a: nat, b: nat)
    requires a <= b
    ensures m * a <= m * b
  {
  }

  lemma TimesMore(m: nat, a: int)
    ensures m * (a + 1) == m * a + m
  {
  }

  /** Lines of `m` bytes each. */
  predicate Even(s: seq<Line>, m: nat) {
    s == [] || (|Last(s).text| == m && Even(Init(s), m))
  }

  lemma {:induction false} EvenSize(s: seq<Line>, m: nat)
    requires Even(s, m)
    ensures Size(s) == m * |s| && AtMost(s, m)
  {
    if s != [] {
      EvenSize(Init(s), m);
      SizeConcat(Init(s), [Last(s)]);
      assert s == Init(s) + [Last(s)] && Size([Last(s)]) == m;
      TimesMore(m, |Init(s)|);
    }
  }

  lemma {:induction false} EvenParts(a: seq<Line>, b: seq<Line>, m: nat)
    requires Even(a + b, m)
    ensures Even(a, m) && Even(b, m)
  {
    if b == [] {
      assert a + b == a;
    } else {
      assert Init(a + b) == a + Init(b) && Last(a + b) == Last(b);
      EvenParts(a, Init(b), m);
    }
  }

  /** Lines of `m` bytes each at the stamps 0, 1, 2, ... */
  predicate Numbered(s: seq<Line>, m: nat) {
    forall i :: 0 <= i < |s| ==> s[i] == Sized(i, m)
  }

  lemma {:induction false} EvenLines(n: nat, m: nat) returns (s: seq<Line>)
    ensures |s| == n && Numbered(s, m) && Even(s, m)
  {
    s := [];
    if n > 0 {
      var t := EvenLines(n - 1, m);
      var l := Sized(n - 1, m);
      s := t + [l];
      InitMore(t, l);
    }
  }

  lemma NumberedInOrder(s: seq<Line>, m: nat)
    requires Numbered(s, m)
    ensures Sorted(s) && forall l :: l in s ==> 0 <= l.rank
  {
  }

  /** A trim is due after `k` lines of `m` bytes and not before. */
  predicate TrimAt(k: nat, m: nat, limit: nat, budget: nat) {
    0 < k && k - 1 < 2 * limit && m * (k - 1) <= 2 * budget && (k >= 2 * limit || m * k > 2 * budget)
  }

  /** How many lines are read when the first trim is due, counting from `n`. */
  function TrimDue(n: nat, m: nat, limit: nat, budget: nat): (k: nat)
    requires n < 2 * limit && m * n <= 2 * budget
    ensures TrimAt(k, m, limit, budget)
    decreases 2 * limit - n
  {
    if n + 1 >= 2 * limit || m * (n + 1) > 2 * budget then n + 1 else TrimDue(n + 1, m, limit, budget)
  }

  /** Until a trim is due, all is held. */
  lemma {:induction false} NothingTrimmed(s: seq<Line>, m: nat, limit: nat, budget: nat)
    requires Even(s, m) && |s| < 2 * limit && m * |s| <= 2 * budget
    ensures Held(s, None, limit, budget) == s
  {
    if s != [] {
      Times(m, |Init(s)|, |s|);
      NothingTrimmed(Init(s), m, limit, budget);
      EvenSize(s, m);
      assert s == Init(s) + [Last(s)];
    }
  }

  lemma TrimOnce(s: seq<Line>, l: Line, a: seq<Line>, t: seq<Line>, limit: nat, budget: nat)
    requires Held(s, None, limit, budget) == s && Overfull(s + [l], limit, budget)
    requires Sorted(s + [l]) && s + [l] == a + t && Maximal(a, t, limit, budget)
    ensures Held(s + [l], None, limit, budget) == t
  {
    Append(s, l, None, limit, budget);
    SortOfSorted(s + [l]);
    CutOfMaximal(a, t, limit, budget);
  }

  lemma DueIsOverfull(s: seq<Line>, m: nat, limit: nat, budget: nat)
    requires Even(s, m) && TrimAt(|s|, m, limit, budget)
    ensures Overfull(s, limit, budget) && Held(Init(s), None, limit, budget) == Init(s)
  {
    EvenSize(s, m);
    NothingTrimmed(Init(s), m, limit, budget);
  }

  /** The first trim leaves the newest lines that fit. */
  lemma FirstTrim(s: seq<Line>, a: seq<Line>, t: seq<Line>, m: nat, limit: nat, budget: nat)
    requires Even(s, m) && Sorted(s) && TrimAt(|s|, m, limit, budget)
    requires s == a + t && Maximal(a, t, limit, budget)
    ensures Held(s, None, limit, budget) == t
  {
    DueIsOverfull(s, m, limit, budget);
    var init, l := Init(s), Last(s);
    assert s == init + [l];
    TrimOnce(init, l, a, t, limit, budget);
  }

  /** As many lines as fill the budget are a maximal end. */
  lemma EvenMaximal(a: seq<Line>, t: seq<Line>, m: nat, limit: nat, budget: nat)
    requires Even(a + t, m) && a != [] && 0 < |t| <= limit && m * |t| <= budget < m * (|t| + 1)
    ensures Maximal(a, t, limit, budget) && Size(t) <= budget
  {
    var x := [Last(a)] + t;
    assert a + t == Init(a) + x;
    EvenParts(Init(a), x, m);
    EvenParts(a, t, m);
    EvenSize(x, m);
    EvenSize(t, m);
  }

  lemma MoreThan(k: nat, q: nat, m: nat, limit: nat, budget: nat)
    requires 0 < q < limit && m * q <= budget && TrimAt(k, m, limit, budget)
    ensures q < k
  {
    if k <= q {
      Times(m, k, q);
    }
  }

  /** The first line fits alone, the second fills the budget over. */
  lemma BigIsDropped(top: Line, big: Line, limit: nat, budget: nat)
    requires |top.text| == budget && |big.text| > budget && big.rank < top.rank && limit > 1
    ensures Held([top, big], None, limit, budget) == [top]
    ensures StableSort([top, big]) == [big] + [top] && Maximal([big], [top], limit, budget)
  {
    assert Held([top], None, limit, budget) == [top] by {
      assert [] + [top] == [top];
      Append([], top, None, limit, budget);
    }
    assert [top] + [big] == [top, big];
    Append([top], big, None, limit, budget);
    SizeConcat([top], [big]);
    SizeConcat([big], [top]);
    assert Size([top]) == budget && Size([big]) > budget;
    assert StableSort([top]) == [top];
    SortAppend([top], big);
    InsertFirst([top], big);
    CutOfMaximal([big], [top], limit, budget);
  }

  /** Out of order and over budget, the page may hold a line older than one it
      dropped: a line dropped early is jumped over by a small older one. A stream
      that does this, for every bounds under which `limit` lines of `m` bytes do
      not fit. */
  lemma OutOfOrderMayJump(m: nat, limit: nat, budget: nat) returns (stream: seq<Line>)
    requires limit > 1 && m * limit > budget
    ensures AtMost(stream, m) && Page(stream, None, limit, budget) != Reference(stream, None, limit, budget)
  {
    if budget < m {
      stream := JumpOverBig(m, limit, budget);
    } else {
      var s := JumpOverEven(m, limit, budget);
      stream := s + [Sized(-1, 0)];
      EvenSize(s, m);
      AtMostMore(s, Sized(-1, 0), m);
    }
  }

  lemma JumpOverBig(m: nat, limit: nat, budget: nat) returns (stream: seq<Line>)
    requires limit > 1 && budget < m
    ensures AtMost(stream, m) && Page(stream, None, limit, budget) != Reference(stream, None, limit, budget)
  {
    var top, big, e := Sized(2, budget), Sized(1, m), Sized(0, 0);
    BigIsDropped(top, big, limit, budget);
    assert Size([top]) == budget && Text(0) == "";
    JumpsOver([top, big], [big], [top], e, limit, budget);
    stream := [top, big] + [e];
    AtMostMore([], top, m);
    AtMostMore([top], big, m);
    assert [] + [top] == [top] && [top] + [big] == [top, big];
    AtMostMore([top, big], e, m);
  }

  lemma Share(budget: nat, m: nat, q: nat, limit: nat)
    requires 0 < m <= budget && q == budget / m && m * limit > budget
    ensures 0 < q < limit && m * q <= budget < m * (q + 1)
  {
    assert budget == m * q + budget % m;
    TimesMore(m, q);
    if q >= limit {
      Times(m, limit, q);
    }
  }

  /** Enough lines of `m` bytes in stamp order, then an empty line older than all. */
  lemma JumpOverEven(m: nat, limit: nat, budget: nat) returns (s: seq<Line>)
    requires limit > 1 && m <= budget < m * limit
    ensures Numbered(s, m) && Even(s, m)
    ensures Page(s + [Sized(-1, 0)], None, limit, budget) != Reference(s + [Sized(-1, 0)], None, limit, budget)
  {
    var q := budget / m;
    Share(budget, m, q, limit);
    var k := TrimDue(0, m, limit, budget);
    MoreThan(k, q, m, limit, budget);
    s := EvenLines(k, m);
    EvenMayJump(s, q, m, limit, budget);
  }

  lemma EvenMayJump(s: seq<Line>, q: nat, m: nat, limit: nat, budget: nat)
    requires Numbered(s, m) && Even(s, m) && TrimAt(|s|, m, limit, budget)
    requires q < |s| && 0 < q < limit && m * q <= budget < m * (q + 1)
    ensures Page(s + [Sized(-1, 0)], None, limit, budget) != Reference(s + [Sized(-1, 0)], None, limit, budget)
  {
    var k := |s|;
    var a, t := s[..k - q], s[k - q..];
    assert s == a + t;
    EvenMaximal(a, t, m, limit, budget);
    NumberedInOrder(s, m);
    FirstTrim(s, a, t, m, limit, budget);
    EvenJump(s, a, t, limit, budget);
  }

  lemma EvenJump(s: seq<Line>, a: seq<Line>, t: seq<Line>, limit: nat, budget: nat)
    requires Sorted(s) && (forall l :: l in s ==> 0 <= l.rank) && s == a + t && a != []
    requires Maximal(a, t, limit, budget) && Held(s, None, limit, budget) == t && |t| < limit && Size(t) <= budget
    ensures Page(s + [Sized(-1, 0)], None, limit, budget) != Reference(s + [Sized(-1, 0)], None, limit, budget)
  {
    SortOfSorted(s);
    SortedEnd(a, t);
    assert Text(0) == "";
    JumpsOver(s, a, t, Sized(-1, 0), limit, budget);
  }

  lemma {:induction false} InsertAtMost(s: seq<Line>, l: Line, m: nat)
    requires AtMost(s, m) && |l.text| <= m
    ensures AtMost(Insert(s, l), m)
  {
    if s == [] || Last(s).rank <= l.rank {
      InitMore(s, l);
    } else {
      InsertAtMost(Init(s), l, m);
      InitMore(Insert(Init(s), l), Last(s));
    }
  }

  lemma {:induction false} SortAtMost(s: seq<Line>, m: nat)
    requires AtMost(s, m)
    ensures AtMost(StableSort(s), m)
  {
    if s != [] {
      SortAtMost(Init(s), m);
      InsertAtMost(StableSort(Init(s)), Last(s), m);
    }
  }

  lemma {:induction false} EndAtMost(s: seq<Line>, k: nat, m: nat)
    requires AtMost(s, m) && k <= |s|
    ensures AtMost(s[k..], m)
  {
    if k < |s| {
      EndAtMost(Init(s), k, m);
      assert Init(s[k..]) == Init(s)[k..];
    }
  }

  lemma LastNAtMost(s: seq<Line>, m: nat, limit: nat, budget: nat)
    requires AtMost(s, m) && (limit <= 1 || m * limit <= budget)
    ensures FitsBytes(LastN(StableSort(s), limit), budget)
  {
    var r := StableSort(s);
    var n := LastN(r, limit);
    SortAtMost(s, m);
    EndAtMost(r, |r| - |n|, m);
    assert n == r[|r| - |n|..];
    SizeAtMost(n, m);
    Times(m, |n|, limit);
  }

  lemma {:induction false} OlderAtMost(s: seq<Line>, cut: Option<int>, m: nat)
    requires AtMost(s, m)
    ensures AtMost(Older(s, cut), m)
  {
    if s != [] {
      OlderAtMost(Init(s), cut, m);
      InitMore(Older(Init(s), cut), Last(s));
      assert Older(Init(s), cut) + [] == Older(Init(s), cut);
    }
  }

  /** Every stream of lines of at most `m` bytes gives the wanted page if and only
      if `limit` such lines fit in the byte budget, or pages hold one line. */
  lemma ExactForEveryStream(m: nat, limit: nat, budget: nat)
    ensures (forall stream, cut :: AtMost(stream, m) ==>
               Page(stream, cut, limit, budget) == Reference(stream, cut, limit, budget))
            <==> limit <= 1 || m * limit <= budget
  {
    if limit <= 1 || m * limit <= budget {
      forall stream, cut | AtMost(stream, m)
        ensures Page(stream, cut, limit, budget) == Reference(stream, cut, limit, budget)
      {
        OlderAtMost(stream, cut, m);
        LastNAtMost(Older(stream, cut), m, limit, budget);
        ExactUnderBudget(stream, cut, limit, budget);
      }
    } else {
      var stream := OutOfOrderMayJump(m, limit, budget);
    }
  }
}

/** Log lines (backend/api/logs.go). */
module LogLines {
  // The ordering and size arithmetic shared by every page of log history.

  import opened Common

  /** One line of history. Timestamps are compared in two ways: as strings when
      lines are sorted (`rank` is the position of the stamp in that order), and
      as RFC 3339 times against a cursor (`time`, None when the stamp does not
      parse). Nothing ties the two together unless a lemma says so. */
  datatype Line = Line(container: string, rank: int, time: Option<int>, text: string)

  function Size(s: seq<Line>): nat {
    if s == [] then 0 else |s[0].text| + Size(s[1..])
  }

  lemma {:induction false} SizeConcat(a: seq<Line>, b: seq<Line>)
    ensures Size(a + b) == Size(a) + Size(b)
  {
    if a == [] {
      assert a + b == b;
    } else {
      assert (a + b)[1..] == a[1..] + b;
      SizeConcat(a[1..], b);
    }
  }

  /** Two ways to split one sequence: the longer head covers the shorter one. */
  lemma Overlap(a: seq<Line>, t: seq<Line>, x: seq<Line>, u: seq<Line>) returns (d: seq<Line>)
    requires a + t == x + u && |a| <= |x|
    ensures x == a + d && t == d + u
  {
    d := x[|a|..];
    assert (a + t)[..|a|] == a && (x + u)[..|a|] == x[..|a|];
    assert (a + t)[|a|..] == t && (x + u)[|a|..] == d + u;
  }

  predicate Suffix(a: seq<Line>, b: seq<Line>) {
    |a| <= |b| && b[|b| - |a|..] == a
  }

  predicate Sorted(s: seq<Line>) {
    forall i, j :: 0 <= i < j < |s| ==> s[i].rank <= s[j].rank
  }

  /** Adds `l` to a sorted sequence, after the lines that share its stamp. */
  function Insert(s: seq<Line>, l: Line): (r: seq<Line>)
    ensures |r| == |s| + 1
  {
    if s == [] || s[|s| - 1].rank <= l.rank then s + [l]
    else Insert(s[..|s| - 1], l) + [s[|s| - 1]]
  }

  /** The stable sort by stamp of `sort.SliceStable`. */
  function StableSort(s: seq<Line>): (r: seq<Line>)
    ensures |r| == |s|
  {
    if s == [] then [] else Insert(StableSort(s[..|s| - 1]), s[|s| - 1])
  }

  lemma {:induction false} InsertAddsOne(s: seq<Line>, l: Line)
    ensures multiset(Insert(s, l)) == multiset(s) + multiset{l}
  {
    if s != [] && s[|s| - 1].rank > l.rank {
      InsertAddsOne(s[..|s| - 1], l);
      assert s == s[..|s| - 1] + [s[|s| - 1]];
    }
  }

  lemma {:induction false} InsertKeepsOrder(s: seq<Line>, l: Line)
    requires Sorted(s)
    ensures Sorted(Insert(s, l))
  {
    if s != [] && s[|s| - 1].rank > l.rank {
      var init, last := s[..|s| - 1], s[|s| - 1];
      var r := Insert(init, l);
      InsertKeepsOrder(init, l);
      InsertAddsOne(init, l);
      forall i | 0 <= i < |r| ensures r[i].rank <= last.rank {
        assert r[i] in multiset(init) + multiset{l};
      }
    }
  }

  /** The sort reorders the lines by stamp and loses none. */
  lemma {:induction false} StableSortSorts(s: seq<Line>)
    ensures Sorted(StableSort(s)) && multiset(StableSort(s)) == multiset(s)
  {
    if s != [] {
      var init, last := s[..|s| - 1], s[|s| - 1];
      StableSortSorts(init);
      InsertKeepsOrder(StableSort(init), last);
      InsertAddsOne(StableSort(init), last);
      assert s == init + [last];
    }
  }

  function SharingStamp(s: seq<Line>, rank: int): seq<Line> {
    if s == [] then []
    else SharingStamp(s[..|s| - 1], rank) + if s[|s| - 1].rank == rank then [s[|s| - 1]] else []
  }

  lemma SharingStampAppend(s: seq<Line>, l: Line, rank: int)
    ensures SharingStamp(s + [l], rank) == SharingStamp(s, rank) + if l.rank == rank then [l] else []
  {
    assert (s + [l])[..|s|] == s;
  }

  lemma NotBoth(s: seq<Line>, l: Line, last: Line, rank: int)
    requires l.rank < last.rank
    ensures var x, y := if l.rank == rank then [l] else [], if last.rank == rank then [last] else []; s + x + y == s + y + x
  {
    assert l.rank != rank || last.rank != rank;
  }

  lemma {:induction false} InsertKeepsStreamOrder(s: seq<Line>, l: Line, rank: int)
    requires Sorted(s)
    ensures SharingStamp(Insert(s, l), rank) == SharingStamp(s, rank) + if l.rank == rank then [l] else []
  {
    if s == [] || s[|s| - 1].rank <= l.rank {
      SharingStampAppend(s, l, rank);
    } else {
      var init, last := s[..|s| - 1], s[|s| - 1];
      InsertKeepsStreamOrder(init, l, rank);
      SharingStampAppend(Insert(init, l), last, rank);
      SharingStampAppend(init, last, rank);
      NotBoth(SharingStamp(init, rank), l, last, rank);
      assert s == init + [last];
    }
  }

  /** Lines sharing a timestamp keep their stream order. */
  lemma {:induction false} StableSortIsStable(s: seq<Line>, rank: int)
    ensures SharingStamp(StableSort(s), rank) == SharingStamp(s, rank)
  {
    if s != [] {
      StableSortIsStable(s[..|s| - 1], rank);
      StableSortSorts(s[..|s| - 1]);
      InsertKeepsStreamOrder(StableSort(s[..|s| - 1]), s[|s| - 1], rank);
    }
  }

  lemma {:induction false} SortOfSorted(s: seq<Line>)
    requires Sorted(s)
    ensures StableSort(s) == s
  {
    if s != [] {
      SortOfSorted(s[..|s| - 1]);
      assert s == s[..|s| - 1] + [s[|s| - 1]];
    }
  }

  /** A line goes before the tail `c` when it is older than all of it. */
  lemma {:induction false} InsertBefore(a: seq<Line>, c: seq<Line>, l: Line)
    requires forall x :: x in c ==> l.rank < x.rank
    ensures Insert(a + c, l) == Insert(a, l) + c
  {
    if c == [] {
      assert a + c == a;
    } else {
      var init, last := c[..|c| - 1], c[|c| - 1];
      assert last in c;
      assert (a + c)[..|a + c| - 1] == a + init;
      InsertBefore(a, init, l);
      assert c == init + [last];
    }
  }

  /** A line goes after the head `a` when it is no older than its last line. */
  lemma {:induction false} InsertAfter(a: seq<Line>, c: seq<Line>, l: Line)
    requires a != [] ==> a[|a| - 1].rank <= l.rank
    ensures Insert(a + c, l) == a + Insert(c, l)
  {
    if c == [] {
      assert a + c == a;
    } else if c[|c| - 1].rank > l.rank {
      assert (a + c)[..|a + c| - 1] == a + c[..|c| - 1];
      InsertAfter(a, c[..|c| - 1], l);
    } else {
      assert a + c + [l] == a + (c + [l]);
    }
  }
}

/**
 * Ranking of a frame's markers: the detected markers sorted by size, largest
 * first, keeping detection order among markers of equal size (a stable sort,
 * as the scripts' list sort with a size key and reverse order is).
 */
module Ranking {
  import opened Gates

  /** Every marker is at least as large as every marker after it. */
  predicate DescendingBySize(s: seq<Marker>)
  {
    forall i, j :: 0 <= i < j < |s| ==> s[j].size <= s[i].size
  }

  /** The markers of `s` whose size is `k`, in the order they occur in `s`. */
  function OfSize(s: seq<Marker>, k: real): seq<Marker>
  {
    if s == [] then []
    else OfSize(s[..|s| - 1], k) + (if s[|s| - 1].size == k then [s[|s| - 1]] else [])
  }

  /**
   * Places `m` behind the trailing markers of `s` that are at least as large
   * as it, scanning from the back: `m` never overtakes a marker of its own size.
   */
  function Insert(s: seq<Marker>, m: Marker): (r: seq<Marker>)
    ensures |r| == |s| + 1
  {
    if s == [] || m.size <= s[|s| - 1].size then s + [m]
    else
      assert s == s[..|s| - 1] + [s[|s| - 1]];
      Insert(s[..|s| - 1], m) + [s[|s| - 1]]
  }

  /** The detected markers in rank order: stable, by size, largest first. */
  function Ranked(s: seq<Marker>): (r: seq<Marker>)
    ensures |r| == |s|
  {
    if s == [] then [] else Insert(Ranked(s[..|s| - 1]), s[|s| - 1])
  }

  /** Insertion adds `m` and nothing else. */
  lemma {:induction false} InsertIsPermutation(s: seq<Marker>, m: Marker)
    ensures multiset(Insert(s, m)) == multiset(s) + multiset{m}
    decreases |s|
  {
    if s == [] || m.size <= s[|s| - 1].size {
    } else {
      var init, last := s[..|s| - 1], s[|s| - 1];
      assert s == init + [last];
      InsertIsPermutation(init, m);
    }
  }

  lemma {:induction false} OfSizeAppend(s: seq<Marker>, t: seq<Marker>, k: real)
    ensures OfSize(s + t, k) == OfSize(s, k) + OfSize(t, k)
    decreases |t|
  {
    if t == [] {
      assert s + t == s;
    } else {
      var u := t[..|t| - 1];
      assert (s + t)[..|s + t| - 1] == s + u;
      OfSizeAppend(s, u, k);
    }
  }

  lemma {:induction false} InsertIsDescending(s: seq<Marker>, m: Marker)
    requires DescendingBySize(s)
    ensures DescendingBySize(Insert(s, m))
    decreases |s|
  {
    if s == [] || m.size <= s[|s| - 1].size {
    } else {
      var init, last := s[..|s| - 1], s[|s| - 1];
      InsertIsDescending(init, m);
      InsertIsPermutation(init, m);
      var r := Insert(init, m);
      forall i | 0 <= i < |r|
        ensures last.size <= r[i].size
      {
        assert r[i] in multiset(init) + multiset{m};
      }
    }
  }

  lemma {:induction false} InsertKeepsOrderOfSize(s: seq<Marker>, m: Marker, k: real)
    ensures OfSize(Insert(s, m), k) == OfSize(s, k) + (if m.size == k then [m] else [])
    decreases |s|
  {
    if s == [] || m.size <= s[|s| - 1].size {
      OfSizeAppend(s, [m], k);
    } else {
      var init, last := s[..|s| - 1], s[|s| - 1];
      assert s == init + [last];
      InsertKeepsOrderOfSize(init, m, k);
      OfSizeAppend(Insert(init, m), [last], k);
      OfSizeAppend(init, [last], k);
    }
  }

  /** Ranking neither drops nor invents markers. */
  lemma {:induction false} RankedIsPermutation(s: seq<Marker>)
    ensures |Ranked(s)| == |s|
    ensures multiset(Ranked(s)) == multiset(s)
  {
    if s != [] {
      RankedIsPermutation(s[..|s| - 1]);
      InsertIsPermutation(Ranked(s[..|s| - 1]), s[|s| - 1]);
      assert s == s[..|s| - 1] + [s[|s| - 1]];
    }
  }

  /** Ranked markers are ordered by size, largest first. */
  lemma {:induction false} RankedIsDescending(s: seq<Marker>)
    ensures DescendingBySize(Ranked(s))
  {
    if s != [] {
      RankedIsDescending(s[..|s| - 1]);
      InsertIsDescending(Ranked(s[..|s| - 1]), s[|s| - 1]);
    }
  }

  /** Markers of equal size keep the order in which they were detected. */
  lemma {:induction false} RankedIsStable(s: seq<Marker>, k: real)
    ensures OfSize(Ranked(s), k) == OfSize(s, k)
  {
    if s != [] {
      var init, last := s[..|s| - 1], s[|s| - 1];
      RankedIsStable(init, k);
      InsertKeepsOrderOfSize(Ranked(init), last, k);
    }
  }

  /** Insert puts `m` right after the last marker at least as large as it. */
  lemma {:induction false} InsertAt(s: seq<Marker>, m: Marker, j: int)
    requires 0 <= j <= |s|
    requires forall k :: j <= k < |s| ==> s[k].size < m.size
    requires j == 0 || m.size <= s[j - 1].size
    ensures Insert(s, m) == s[..j] + [m] + s[j..]
    decreases |s|
  {
    if j == |s| {
      assert s[..j] == s && s[j..] == [];
    } else {
      var init, last := s[..|s| - 1], s[|s| - 1];
      assert Insert(s, m) == Insert(init, m) + [last];
      assert init[..j] == s[..j];
      InsertAt(init, m, j);
      assert s[j..] == init[j..] + [last];
      assert s[..j] + [m] + s[j..] == (init[..j] + [m] + init[j..]) + [last];
    }
  }

  /** The array contents after the shift: `m` at `j`, the markers from `j` on one place right. */
  lemma ShiftedIsInsert(t: seq<Marker>, s: seq<Marker>, m: Marker, j: int)
    requires 0 <= j <= |s| && |t| == |s| + 1
    requires forall k :: 0 <= k < j ==> t[k] == s[k]
    requires t[j] == m
    requires forall k :: j < k < |t| ==> t[k] == s[k - 1]
    requires forall k :: j <= k < |s| ==> s[k].size < m.size
    requires j == 0 || m.size <= s[j - 1].size
    ensures t == Insert(s, m)
  {
    var expected := s[..j] + [m] + s[j..];
    forall k | 0 <= k < |t|
      ensures t[k] == expected[k]
    {
      if k < j {
        assert expected[k] == s[k];
      } else if k == j {
        assert expected[k] == m;
      } else {
        assert expected[k] == s[k - 1];
      }
    }
    InsertAt(s, m, j);
  }

  /**
   * Moves the marker at index `i` left past the smaller markers before it,
   * shifting them one place right; the markers before `i` are already ranked.
   */
  method InsertInPlace(a: array<Marker>, i: int)
    requires 0 <= i < a.Length
    modifies a
    ensures a[..i + 1] == Insert(old(a[..i]), old(a[i]))
    ensures forall k :: i < k < a.Length ==> a[k] == old(a[k])
  {
    ghost var sorted := a[..i];
    var m := a[i];
    var j := i;
    while j > 0 && a[j - 1].size < m.size
      invariant 0 <= j <= i
      invariant forall k :: 0 <= k < j ==> a[k] == sorted[k]
      invariant forall k :: j < k <= i ==> a[k] == sorted[k - 1]
      invariant forall k :: i < k < a.Length ==> a[k] == old(a[k])
      invariant forall k :: j <= k < i ==> sorted[k].size < m.size
    {
      a[j] := a[j - 1];
      j := j - 1;
    }
    a[j] := m;
    ShiftedIsInsert(a[..i + 1], sorted, m, j);
  }

  lemma RankedPrefix(s: seq<Marker>, i: int)
    requires 0 <= i < |s|
    ensures Ranked(s[..i + 1]) == Insert(Ranked(s[..i]), s[i])
  {
    assert s[..i + 1][..i] == s[..i];
  }

  /** The marker ranked first is a detected marker at least as large as every other. */
  lemma RankedHeadIsLargest(s: seq<Marker>)
    requires |s| > 0
    ensures |Ranked(s)| == |s|
    ensures Ranked(s)[0] in s
    ensures forall m :: m in s ==> m.size <= Ranked(s)[0].size
  {
    RankedIsPermutation(s);
    RankedIsDescending(s);
    var r := Ranked(s);
    assert r[0] in multiset(r);
    forall m | m in s
      ensures m.size <= r[0].size
    {
      assert m in multiset(s);
      var k :| 0 <= k < |r| && r[k] == m;
    }
  }

  /** A marker strictly larger than every other detected marker is ranked first. */
  lemma StrictlyLargestRanksFirst(s: seq<Marker>, i: int)
    requires 0 <= i < |s|
    requires forall j :: 0 <= j < |s| && j != i ==> s[j].size < s[i].size
    ensures |Ranked(s)| == |s| && Ranked(s)[0] == s[i]
  {
    RankedHeadIsLargest(s);
    var h := Ranked(s)[0];
    var j :| 0 <= j < |s| && s[j] == h;
    assert s[i] in s;
  }

  /** Two markers keep their detection order unless the second is strictly larger. */
  lemma RankedPair(a: Marker, b: Marker)
    ensures Ranked([a, b]) == if a.size < b.size then [b, a] else [a, b]
  {
    assert [a, b][..1] == [a];
    assert [a][..0] == [];
    assert Ranked([a]) == [a];
    assert Ranked([a, b]) == Insert([a], b);
    if a.size < b.size {
      assert Insert([a], b) == Insert([], b) + [a];
    }
  }

  /**
   * Sorts the markers held in `a` into rank order in place, by insertion:
   * each marker is shifted left past the smaller markers before it.
   */
  method RankInPlace(a: array<Marker>)
    modifies a
    ensures a[..] == Ranked(old(a[..]))
  {
    ghost var input := a[..];
    var i := 0;
    while i < a.Length
      invariant 0 <= i <= a.Length
      invariant a[..i] == Ranked(input[..i])
      invariant forall k :: i <= k < a.Length ==> a[k] == input[k]
    {
      RankedPrefix(input, i);
      InsertInPlace(a, i);
      i := i + 1;
    }
    assert input[..a.Length] == input;
  }

  /**
   * Builds the frame's list of records, one per detection in detection order,
   * and ranks it in place.
   */
  method Rank(detected: seq<Detection>) returns (tags: seq<Marker>)
    ensures tags == Ranked(Records(detected))
  {
    var a := new Marker[|detected|];
    var i := 0;
    while i < |detected|
      invariant 0 <= i <= |detected|
      invariant a[..i] == Records(detected)[..i]
    {
      a[i] := detected[i].Record();
      i := i + 1;
    }
    assert a[..] == Records(detected);
    RankInPlace(a);
    tags := a[..];
  }
}

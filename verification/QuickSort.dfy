// Three-way in-place quicksort (lib/qsort.c).  An element of the original is a
// run of es bytes; here it is one array element, and the pointers are indices.

module QuickSort {

  /** What a comparison function has to be for sorting to make sense. */
  ghost predicate TotalPreorder<T(!new)>(cmp: (T, T) -> int)
  {
    && (forall x, y :: cmp(x, y) < 0 <==> cmp(y, x) > 0)
    && (forall x, y, z :: cmp(x, y) <= 0 && cmp(y, z) <= 0 ==> cmp(x, z) <= 0)
  }

  ghost predicate SortedBy<T>(cmp: (T, T) -> int, s: seq<T>)
  {
    forall i, j :: 0 <= i < j < |s| ==> cmp(s[i], s[j]) <= 0
  }

  /** Elements of the band are as good as the pivot for placing other elements. */
  lemma ViaBand<T(!new)>(cmp: (T, T) -> int, x: T, b: T, p: T)
    requires TotalPreorder(cmp) && cmp(b, p) == 0
    ensures (cmp(x, b) < 0 <==> cmp(x, p) < 0) && (cmp(x, b) == 0 <==> cmp(x, p) == 0)
    ensures (cmp(b, x) > 0 <==> cmp(x, p) < 0) && (cmp(b, x) == 0 <==> cmp(x, p) == 0)
  {
    assert cmp(p, b) == 0;
    assert cmp(x, b) <= 0 ==> cmp(x, p) <= 0;
    assert cmp(x, p) <= 0 ==> cmp(x, b) <= 0;
    assert cmp(b, x) <= 0 ==> cmp(p, x) <= 0;
    assert cmp(p, x) <= 0 ==> cmp(b, x) <= 0;
  }

  // ---- exchanges --------------------------------------------------------------------

  function Swapped<T>(s: seq<T>, i: int, j: int): seq<T>
    requires 0 <= i < |s| && 0 <= j < |s|
  {
    s[i := s[j]][j := s[i]]
  }

  /** Position i receives from k, k from j, and j from i; with j and k the same this is an exchange. */
  function Rotated<T>(s: seq<T>, i: int, j: int, k: int): seq<T>
    requires 0 <= i < |s| && 0 <= j < |s| && 0 <= k < |s|
  {
    if j == k then Swapped(s, i, j) else s[i := s[k]][k := s[j]][j := s[i]]
  }

  lemma SwappedAt<T>(s: seq<T>, i: int, j: int)
    requires 0 <= i < |s| && 0 <= j < |s|
    ensures var r := Swapped(s, i, j);
            && |r| == |s| && r[i] == s[j] && r[j] == s[i]
            && forall x :: 0 <= x < |s| && x != i && x != j ==> r[x] == s[x]
  {
  }

  lemma RotatedAt<T>(s: seq<T>, i: int, j: int, k: int)
    requires 0 <= i < |s| && 0 <= j < |s| && 0 <= k < |s| && i != j && i != k
    ensures var r := Rotated(s, i, j, k);
            && |r| == |s| && r[i] == s[k] && r[j] == s[i] && (j != k ==> r[k] == s[j])
            && forall x :: 0 <= x < |s| && x != i && x != j && x != k ==> r[x] == s[x]
  {
  }

  lemma SwapKeeps<T>(s: seq<T>, i: int, j: int)
    requires 0 <= i < |s| && 0 <= j < |s|
    ensures multiset(Swapped(s, i, j)) == multiset(s)
  {
  }

  lemma RotateKeeps<T>(s: seq<T>, i: int, j: int, k: int)
    requires 0 <= i < |s| && 0 <= j < |s| && 0 <= k < |s| && i != j && i != k
    ensures multiset(Rotated(s, i, j, k)) == multiset(s)
  {
    if j == k {
      SwapKeeps(s, i, j);
    } else {
      SwapKeeps(s, i, j);
      SwapKeeps(Swapped(s, i, j), i, k);
      RotationIsTwoSwaps(s, i, j, k);
    }
  }

  lemma RotationIsTwoSwaps<T>(s: seq<T>, i: int, j: int, k: int)
    requires 0 <= i < |s| && 0 <= j < |s| && 0 <= k < |s| && i != j && i != k && j != k
    ensures Rotated(s, i, j, k) == Swapped(Swapped(s, i, j), i, k)
  {
  }

  /** qsexc. */
  method Exchange<T>(a: array<T>, i: int, j: int)
    requires 0 <= i < a.Length && 0 <= j < a.Length
    modifies a
    ensures a[..] == Swapped(old(a[..]), i, j)
  {
    var c := a[i];
    a[i] := a[j];
    a[j] := c;
  }

  /** qstexc: three assignments in turn, also when j and k are the same place. */
  method Exchange3<T>(a: array<T>, i: int, j: int, k: int)
    requires 0 <= i < a.Length && 0 <= j < a.Length && 0 <= k < a.Length && i != j && i != k
    modifies a
    ensures a[..] == Rotated(old(a[..]), i, j, k)
  {
    var c := a[i];
    a[i] := a[k];
    a[k] := a[j];
    a[j] := c;
  }

  /** Nothing outside [lo, hi) has changed, and the elements are the same. */
  ghost predicate Rearranged<T>(s: seq<T>, t: seq<T>, lo: int, hi: int)
  {
    && 0 <= lo <= hi <= |s| == |t|
    && (forall k :: 0 <= k < |s| && !(lo <= k < hi) ==> t[k] == s[k])
    && multiset(s) == multiset(t)
  }

  /** The part that may have changed holds the same elements as before. */
  lemma SameElements<T>(s: seq<T>, t: seq<T>, lo: int, hi: int)
    requires Rearranged(s, t, lo, hi)
    ensures multiset(s[lo..hi]) == multiset(t[lo..hi])
  {
    assert s[..lo] == t[..lo] && s[hi..] == t[hi..];
    assert s == s[..lo] + s[lo..hi] + s[hi..] && t == s[..lo] + t[lo..hi] + s[hi..];
    SameMiddle(s[..lo], s[lo..hi], t[lo..hi], s[hi..]);
  }

  /** What holds of every element of the part before still does. */
  lemma StillFrom<T>(s: seq<T>, t: seq<T>, lo: int, hi: int, k: int) returns (j: int)
    requires Rearranged(s, t, lo, hi) && lo <= k < hi
    ensures lo <= j < hi && t[k] == s[j]
  {
    SameElements(s, t, lo, hi);
    assert t[k] == t[lo..hi][k - lo] && t[k] in multiset(t[lo..hi]);
    assert t[k] in s[lo..hi];
    j :| 0 <= j < hi - lo && s[lo..hi][j] == t[k];
    j := lo + j;
  }

  lemma SameMiddle<T>(a: seq<T>, m: seq<T>, n: seq<T>, b: seq<T>)
    requires multiset(a + m + b) == multiset(a + n + b)
    ensures multiset(m) == multiset(n)
  {
    assert multiset(m) == multiset(a + m + b) - multiset(a) - multiset(b);
    assert multiset(n) == multiset(a + n + b) - multiset(a) - multiset(b);
  }

  lemma RearrangedTwice<T>(s: seq<T>, t: seq<T>, u: seq<T>, lo: int, hi: int, a: int, l: int)
    requires Rearranged(s, t, lo, hi) && Rearranged(t, u, a, l) && lo <= a && l <= hi
    ensures Rearranged(s, u, lo, hi)
  {
  }

  lemma SwapInside<T>(s: seq<T>, i: int, j: int, lo: int, hi: int)
    requires 0 <= lo <= i < hi <= |s| && lo <= j < hi
    ensures Rearranged(s, Swapped(s, i, j), lo, hi)
  {
    SwapKeeps(s, i, j);
  }

  lemma RotateInside<T>(s: seq<T>, i: int, j: int, k: int, lo: int, hi: int)
    requires 0 <= lo <= i < hi <= |s| && lo <= j < hi && lo <= k < hi && i != j && i != k
    ensures Rearranged(s, Rotated(s, i, j, k), lo, hi)
  {
    hide Rotated;
    RotateKeeps(s, i, j, k);
    RotatedAt(s, i, j, k);
  }

  // ---- partition ------------------------------------------------------------------------

  /** The five zones: less, unknown, equal band, unknown, greater. */
  ghost predicate Zones<T(!new)>(cmp: (T, T) -> int, s: seq<T>, p: T, lo: int, i: int, lp: int, hp: int, j: int,
      hi: int)
  {
    && 0 <= lo <= i <= lp <= hp <= j < hi <= |s|
    && (forall k :: lo <= k < i ==> cmp(s[k], p) < 0)
    && (forall k :: lp <= k <= hp ==> cmp(s[k], p) == 0)
    && (forall k :: j < k < hi ==> cmp(s[k], p) > 0)
  }

  /** The left element equals the pivot: it joins the band from below. */
  lemma WidenLeft<T(!new)>(cmp: (T, T) -> int, s: seq<T>, p: T, lo: int, i: int, lp: int, hp: int, j: int, hi: int)
    requires Zones(cmp, s, p, lo, i, lp, hp, j, hi) && i < lp && cmp(s[i], p) == 0
    ensures var t := Swapped(s, i, lp - 1); Zones(cmp, t, p, lo, i, lp - 1, hp, j, hi)
  {
    hide Swapped, Rotated;
    SwappedAt(s, i, lp - 1);
  }

  /** The right element equals the pivot: it joins the band from above. */
  lemma WidenRight<T(!new)>(cmp: (T, T) -> int, s: seq<T>, p: T, lo: int, i: int, lp: int, hp: int, j: int, hi: int)
    requires Zones(cmp, s, p, lo, i, lp, hp, j, hi) && hp < j && cmp(s[j], p) == 0
    ensures var t := Swapped(s, hp + 1, j); Zones(cmp, t, p, lo, i, lp, hp + 1, j, hi)
    ensures i < lp ==> Swapped(s, hp + 1, j)[i] == s[i]
  {
    hide Swapped, Rotated;
    SwappedAt(s, hp + 1, j);
  }

  /** Nothing unknown is left below: the band moves up to let a smaller element pass. */
  lemma ShiftUp<T(!new)>(cmp: (T, T) -> int, s: seq<T>, p: T, lo: int, lp: int, hp: int, j: int, hi: int)
    requires Zones(cmp, s, p, lo, lp, lp, hp, j, hi) && hp < j && cmp(s[j], p) < 0
    ensures var t := Rotated(s, lp, hp + 1, j);
            Zones(cmp, t, p, lo, lp + 1, lp + 1, hp + 1, j, hi)
  {
    hide Swapped, Rotated;
    RotatedAt(s, lp, hp + 1, j);
  }

  /** A greater element on the left and a smaller one on the right change places. */
  lemma CrossOver<T(!new)>(cmp: (T, T) -> int, s: seq<T>, p: T, lo: int, i: int, lp: int, hp: int, j: int, hi: int)
    requires Zones(cmp, s, p, lo, i, lp, hp, j, hi) && i < lp && hp < j && cmp(s[i], p) > 0 && cmp(s[j], p) < 0
    ensures var t := Swapped(s, i, j); Zones(cmp, t, p, lo, i + 1, lp, hp, j - 1, hi)
  {
    hide Swapped, Rotated;
    SwappedAt(s, i, j);
  }

  /** Nothing unknown is left above: the band moves down to let a greater element pass. */
  lemma ShiftDown<T(!new)>(cmp: (T, T) -> int, s: seq<T>, p: T, lo: int, i: int, lp: int, hp: int, hi: int)
    requires Zones(cmp, s, p, lo, i, lp, hp, hp, hi) && i < lp && cmp(s[i], p) > 0
    ensures var t := Rotated(s, hp, lp - 1, i);
            Zones(cmp, t, p, lo, i, lp - 1, hp - 1, hp - 1, hi)
  {
    hide Swapped, Rotated;
    RotatedAt(s, hp, lp - 1, i);
  }

  lemma PassLeft<T(!new)>(cmp: (T, T) -> int, s: seq<T>, p: T, lo: int, i: int, lp: int, hp: int, j: int, hi: int)
    requires Zones(cmp, s, p, lo, i, lp, hp, j, hi) && i < lp && cmp(s[i], p) < 0
    ensures Zones(cmp, s, p, lo, i + 1, lp, hp, j, hi)
  {
  }

  lemma PassRight<T(!new)>(cmp: (T, T) -> int, s: seq<T>, p: T, lo: int, i: int, lp: int, hp: int, j: int, hi: int)
    requires Zones(cmp, s, p, lo, i, lp, hp, j, hi) && hp < j && cmp(s[j], p) > 0
    ensures Zones(cmp, s, p, lo, i, lp, hp, j - 1, hi) && Rearranged(s, s, lo, hi)
  {
  }

  lemma OneElementBand<T(!new)>(cmp: (T, T) -> int, s: seq<T>, p: T, lo: int, at: int, hi: int)
    requires 0 <= lo <= at < hi <= |s| && s[at] == p && cmp(p, p) == 0
    ensures Zones(cmp, s, p, lo, lo, at, at, hi - 1, hi) && Rearranged(s, s, lo, hi)
  {
  }

  lemma ZoneEdges<T(!new)>(cmp: (T, T) -> int, s: seq<T>, p: T, lo: int, i: int, lp: int, hp: int, j: int, hi: int)
    requires Zones(cmp, s, p, lo, i, lp, hp, j, hi)
    ensures 0 <= lo <= i <= lp <= hp <= j < hi <= |s| && cmp(s[lp], p) == 0 && cmp(s[hp], p) == 0
    ensures Rearranged(s, s, lo, hi)
  {
  }

  /** The inner loop of the partition, at label `loop`: works down the unknown part above the band.
      It ends when that part is used up, or after an element has crossed over to the left. */
  method ScanRight<T(!new)>(a: array<T>, cmp: (T, T) -> int, ghost p: T, lo: int, hi: int, i0: int, lp0: int, hp0: int,
      j0: int)
    returns (i: int, lp: int, hp: int, j: int, crossed: bool)
    requires TotalPreorder(cmp) && Zones(cmp, a[..], p, lo, i0, lp0, hp0, j0, hi)
    requires i0 < lp0 ==> cmp(a[i0], p) > 0
    modifies a
    ensures Zones(cmp, a[..], p, lo, i, lp, hp, j, hi) && Rearranged(old(a[..]), a[..], lo, hi)
    ensures if crossed then (lp - i) + (j - hp) < (lp0 - i0) + (j0 - hp0)
            else hp == j && lp - i == lp0 - i0 && (i < lp ==> cmp(a[i], p) > 0)
  {
    hide Rearranged, Swapped, Rotated, TotalPreorder, Zones;
    ghost var s0 := a[..];
    i, lp, hp, j, crossed := i0, lp0, hp0, j0, false;
    ZoneEdges(cmp, s0, p, lo, i, lp, hp, j, hi);
    while j > hp
      invariant Zones(cmp, a[..], p, lo, i, lp, hp, j, hi) && Rearranged(s0, a[..], lo, hi)
      invariant 0 <= i <= lp <= hp <= j < a.Length && (i < lp ==> cmp(a[i], p) > 0)
      invariant lp - i == lp0 - i0 && j - hp <= j0 - hp0 && !crossed
      decreases j - hp
    {
      ghost var t := a[..];
      ZoneEdges(cmp, t, p, lo, i, lp, hp, j, hi);
      ViaBand(cmp, a[j], a[hp], p);
      var c := cmp(a[hp], a[j]);
      if c == 0 {
        WidenRight(cmp, t, p, lo, i, lp, hp, j, hi);
        SwapInside(t, hp + 1, j, lo, hi);
        hp := hp + 1;
        Exchange(a, hp, j);
        assert i < lp ==> a[..][i] == t[i];
      } else if c > 0 {
        if i == lp {
          ShiftUp(cmp, t, p, lo, lp, hp, j, hi);
          RotateInside(t, lp, hp + 1, j, lo, hi);
          hp := hp + 1;
          Exchange3(a, i, hp, j);
          lp := lp + 1;
          i := lp;
          ZoneEdges(cmp, a[..], p, lo, i, lp, hp, j, hi);
        } else {
          CrossOver(cmp, t, p, lo, i, lp, hp, j, hi);
          SwapInside(t, i, j, lo, hi);
          Exchange(a, i, j);
          RearrangedTwice(s0, t, a[..], lo, hi, lo, hi);
          return i + 1, lp, hp, j - 1, true;
        }
      } else {
        PassRight(cmp, t, p, lo, i, lp, hp, j, hi);
        j := j - 1;
      }
      RearrangedTwice(s0, t, a[..], lo, hi, lo, hi);
    }
  }

  /** The partition loop of qs1 on [lo, hi): on return the zones are less, equal, greater. */
  method Partition<T(!new)>(a: array<T>, cmp: (T, T) -> int, lo: int, hi: int) returns (lp: int, hp: int, ghost p: T)
    requires 0 <= lo && lo + 1 < hi <= a.Length && TotalPreorder(cmp)
    modifies a
    ensures Zones(cmp, a[..], p, lo, lp, lp, hp, hp, hi) && Rearranged(old(a[..]), a[..], lo, hi)
  {
    hide Rearranged, Swapped, Rotated, TotalPreorder, Zones;
    ghost var s0 := a[..];
    var n := (hi - lo) / 2;
    lp, hp := lo + n, lo + n;
    p := a[lp];
    var i, j := lo, hi - 1;
    ReflexiveByOrder(cmp, p);
    OneElementBand(cmp, s0, p, lo, lp, hi);
    while true
      invariant Zones(cmp, a[..], p, lo, i, lp, hp, j, hi) && Rearranged(s0, a[..], lo, hi)
      decreases (lp - i) + (j - hp)
    {
      ghost var t := a[..];
      ZoneEdges(cmp, t, p, lo, i, lp, hp, j, hi);
      if i < lp {
        ViaBand(cmp, a[i], a[lp], p);
        var c := cmp(a[i], a[lp]);
        if c == 0 {
          WidenLeft(cmp, t, p, lo, i, lp, hp, j, hi);
          SwapInside(t, i, lp - 1, lo, hi);
          lp := lp - 1;
          Exchange(a, i, lp);
          RearrangedTwice(s0, t, a[..], lo, hi, lo, hi);
          continue;
        }
        if c < 0 {
          PassLeft(cmp, t, p, lo, i, lp, hp, j, hi);
          i := i + 1;
          continue;
        }
      }
      var crossed;
      i, lp, hp, j, crossed := ScanRight(a, cmp, p, lo, hi, i, lp, hp, j);
      RearrangedTwice(s0, t, a[..], lo, hi, lo, hi);
      t := a[..];
      ZoneEdges(cmp, t, p, lo, i, lp, hp, j, hi);
      if crossed {
        continue;
      }
      if i == lp {
        return;
      }
      ShiftDown(cmp, t, p, lo, i, lp, hp, hi);
      RotateInside(t, hp, lp - 1, i, lo, hi);
      lp := lp - 1;
      Exchange3(a, j, lp, i);
      RearrangedTwice(s0, t, a[..], lo, hi, lo, hi);
      hp := hp - 1;
      j := hp;
    }
  }

  lemma ReflexiveByOrder<T(!new)>(cmp: (T, T) -> int, x: T)
    requires TotalPreorder(cmp)
    ensures cmp(x, x) == 0
  {
  }

  // ---- the whole sort -------------------------------------------------------------------

  /** On [lo0, hi0) all pairs are in order, except perhaps pairs inside [lo, hi). */
  ghost predicate Settled<T(!new)>(cmp: (T, T) -> int, s: seq<T>, lo0: int, lo: int, hi: int, hi0: int)
  {
    && 0 <= lo0 <= lo <= hi <= hi0 <= |s|
    && forall x, y :: lo0 <= x < y < hi0 && !(lo <= x && y < hi) ==> cmp(s[x], s[y]) <= 0
  }

  /** The same with two gaps, below and above the band. */
  ghost predicate TwoGaps<T(!new)>(cmp: (T, T) -> int, s: seq<T>, lo0: int, lo: int, lp: int, hp: int, hi: int,
      hi0: int)
  {
    && 0 <= lo0 <= lo <= lp <= hp < hi <= hi0 <= |s|
    && forall x, y :: lo0 <= x < y < hi0 && !(lo <= x && y < lp) && !(hp < x && y < hi) ==> cmp(s[x], s[y]) <= 0
  }

  lemma AfterPartition<T(!new)>(cmp: (T, T) -> int, s: seq<T>, t: seq<T>, p: T, lo0: int, lo: int, lp: int, hp: int,
      hi: int, hi0: int)
    requires TotalPreorder(cmp) && Settled(cmp, s, lo0, lo, hi, hi0) && Rearranged(s, t, lo, hi)
    requires Zones(cmp, t, p, lo, lp, lp, hp, hp, hi)
    ensures TwoGaps(cmp, t, lo0, lo, lp, hp, hi, hi0)
  {
    forall x, y | lo0 <= x < y < hi0 && !(lo <= x && y < lp) && !(hp < x && y < hi)
      ensures cmp(t[x], t[y]) <= 0
    {
      if lo <= x && y < hi {
        InsideZones(cmp, t, p, lo, lp, hp, hi, x, y);
      } else {
        hide TotalPreorder, Zones;
        var x', y' := x, y;
        if lo <= x < hi {
          x' := StillFrom(s, t, lo, hi, x);
        }
        if lo <= y < hi {
          y' := StillFrom(s, t, lo, hi, y);
        }
        assert cmp(s[x'], s[y']) <= 0;
      }
    }
  }

  lemma InsideZones<T(!new)>(cmp: (T, T) -> int, t: seq<T>, p: T, lo: int, lp: int, hp: int, hi: int, x: int, y: int)
    requires TotalPreorder(cmp) && Zones(cmp, t, p, lo, lp, lp, hp, hp, hi)
    requires lo <= x < y < hi && !(y < lp) && !(hp < x)
    ensures cmp(t[x], t[y]) <= 0
  {
    assert cmp(t[x], p) <= 0 && cmp(t[y], p) >= 0;
    assert cmp(p, t[y]) <= 0;
  }

  /** Sorting one of the two gaps closes it. */
  lemma CloseGap<T(!new)>(cmp: (T, T) -> int, s: seq<T>, t: seq<T>, lo0: int, lo: int, lp: int, hp: int, hi: int,
      hi0: int, right: bool)
    requires TwoGaps(cmp, s, lo0, lo, lp, hp, hi, hi0)
    requires var (a, l) := if right then (hp + 1, hi) else (lo, lp); Rearranged(s, t, a, l) && SortedBy(cmp, t[a..l])
    ensures if right then Settled(cmp, t, lo0, lo, lp, hi0) else Settled(cmp, t, lo0, hp + 1, hi, hi0)
  {
    var (a, l) := if right then (hp + 1, hi) else (lo, lp);
    var (b, m) := if right then (lo, lp) else (hp + 1, hi);
    forall x, y | lo0 <= x < y < hi0 && !(b <= x && y < m)
      ensures cmp(t[x], t[y]) <= 0
    {
      if a <= x && y < l {
        assert cmp(t[a..l][x - a], t[a..l][y - a]) <= 0;
      } else {
        var x', y' := x, y;
        if a <= x < l {
          x' := StillFrom(s, t, a, l, x);
        }
        if a <= y < l {
          y' := StillFrom(s, t, a, l, y);
        }
        assert cmp(s[x'], s[y']) <= 0;
      }
    }
  }

  function Pow2(d: nat): (r: nat)
    ensures r > 0
  {
    if d == 0 then 1 else 2 * Pow2(d - 1)
  }

  /** qs1 on [lo0, hi0).  A range of fewer than 2^d elements is sorted with calls nested at most d deep. */
  method Qs1<T(!new)>(a: array<T>, cmp: (T, T) -> int, lo0: int, hi0: int, ghost d: nat) returns (ghost depth: nat)
    requires 0 <= lo0 <= hi0 <= a.Length && TotalPreorder(cmp)
    requires d >= 1 && hi0 - lo0 < Pow2(d)
    modifies a
    ensures Rearranged(old(a[..]), a[..], lo0, hi0) && SortedBy(cmp, a[lo0..hi0])
    ensures 1 <= depth <= d
    decreases d
  {
    hide TotalPreorder, Zones, Rearranged, Settled, TwoGaps, SortedBy;
    ghost var s0 := a[..];
    var lo, hi := lo0, hi0;
    depth := 1;
    NothingSettled(cmp, s0, lo0, hi0);
    while hi - lo > 1
      invariant lo0 <= lo <= hi <= hi0 && 1 <= depth <= d
      invariant Rearranged(s0, a[..], lo0, hi0) && Settled(cmp, a[..], lo0, lo, hi, hi0)
      decreases hi - lo
    {
      ghost var s := a[..];
      ghost var p;
      var lp, hp;
      lp, hp, p := Partition(a, cmp, lo, hi);
      ghost var t := a[..];
      ZoneEdges(cmp, t, p, lo, lp, lp, hp, hp, hi);
      AfterPartition(cmp, s, t, p, lo0, lo, lp, hp, hi, hi0);
      RearrangedTwice(s0, s, t, lo0, hi0, lo, hi);
      ghost var inner: nat;
      if lp - lo >= hi - hp {
        inner := Qs1(a, cmp, hp + 1, hi, d - 1);
        CloseGap(cmp, t, a[..], lo0, lo, lp, hp, hi, hi0, true);
        RearrangedTwice(s0, t, a[..], lo0, hi0, hp + 1, hi);
        hi := lp;
      } else {
        inner := Qs1(a, cmp, lo, lp, d - 1);
        CloseGap(cmp, t, a[..], lo0, lo, lp, hp, hi, hi0, false);
        RearrangedTwice(s0, t, a[..], lo0, hi0, lo, lp);
        lo := hp + 1;
      }
      depth := if depth > inner then depth else inner + 1;
    }
    AllSettled(cmp, a[..], lo0, lo, hi, hi0);
  }

  lemma NothingSettled<T(!new)>(cmp: (T, T) -> int, s: seq<T>, lo: int, hi: int)
    requires 0 <= lo <= hi <= |s|
    ensures Settled(cmp, s, lo, lo, hi, hi) && Rearranged(s, s, lo, hi)
  {
  }

  lemma AllSettled<T(!new)>(cmp: (T, T) -> int, s: seq<T>, lo0: int, lo: int, hi: int, hi0: int)
    requires Settled(cmp, s, lo0, lo, hi, hi0) && hi - lo <= 1
    ensures SortedBy(cmp, s[lo0..hi0])
  {
  }

  /** The number of binary digits of n: floor(log2 n) + 1 for positive n. */
  function Digits(n: nat): (d: nat)
    ensures n >= 1 ==> d >= 1 && Pow2(d - 1) <= n < Pow2(d)
    ensures n == 0 ==> d == 0
  {
    if n == 0 then 0 else 1 + Digits(n / 2)
  }

  /** qsort: sorts the first n elements, whatever the comparison, with calls of qs1 nested at most
      floor(log2 n) + 1 deep. */
  method Qsort<T(!new)>(a: array<T>, n: nat, cmp: (T, T) -> int) returns (ghost depth: nat)
    requires n <= a.Length && TotalPreorder(cmp)
    modifies a
    ensures SortedBy(cmp, a[..n]) && multiset(a[..n]) == multiset(old(a[..n])) && a[n..] == old(a[n..])
    ensures depth <= if n == 0 then 1 else Digits(n)
  {
    ghost var s := a[..];
    depth := Qs1(a, cmp, 0, n, if n == 0 then 1 else Digits(n));
    SameElements(s, a[..], 0, n);
    assert a[0..n] == a[..n] && s[0..n] == old(a[..n]);
    assert a[n..] == s[n..];
  }
}

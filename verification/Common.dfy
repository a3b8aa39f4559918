// What several parts of the kernel speak of: return codes, 32-bit words, lists of waiting processes
// and their counts (include/kernel.h).

module Common {

  const OK := 1
  const SYSERR := -1
  const WORD := 0x1_0000_0000

  ghost predicate NoDup(l: seq<int>)
  {
    forall i, j :: 0 <= i < j < |l| ==> l[i] != l[j]
  }

  function Max0(n: int): nat { if n < 0 then 0 else n }

  /** A negative count is minus the number of waiting processes; otherwise nobody waits. */
  ghost predicate Matches(count: int, waiting: seq<int>)
  {
    if count < 0 then |waiting| == -count else waiting == []
  }

  ghost function Elems(l: seq<int>): set<int> { set p | p in l }

  lemma {:induction false} SetOfSeq(l: seq<int>)
    requires NoDup(l)
    ensures |Elems(l)| == |l|
    decreases |l|
  {
    if l == [] {
    } else {
      var m := l[..|l| - 1];
      SetOfSeq(m);
      assert l == m + [l[|l| - 1]];
      assert Elems(l) == Elems(m) + {l[|l| - 1]};
    }
  }

  // ---- searches round a table ---------------------------------------------------------------------

  /** The place j steps behind next in a ring of n. */
  function Round(next: int, j: int, n: int): (r: int)
    requires 0 <= next <= n && 0 <= j < n
    ensures 0 <= r < n
  {
    if next + j < n then next + j else next + j - n
  }

  /** The place after that at which a search stands. */
  function After(next: int, n: int): (r: int)
    requires 0 <= next <= n && n > 0
    ensures 0 <= r <= n
  {
    if next == n then 1 else next + 1
  }

  /** r is the first free place of tries places from next on round the table, or -1 if there is none. */
  ghost predicate FirstFree(free: seq<bool>, next: int, tries: nat, r: int)
    requires 0 <= next <= |free| && tries <= |free|
  {
    if r == -1 then forall j :: 0 <= j < tries ==> !free[Round(next, j, |free|)]
    else exists j :: 0 <= j < tries && r == Round(next, j, |free|) && FreeAt(free, next, j)
  }

  /** The place j steps behind next is free and all before it are not. */
  ghost predicate FreeAt(free: seq<bool>, next: int, j: nat)
    requires 0 <= next <= |free| && j < |free|
  {
    free[Round(next, j, |free|)] && forall k :: 0 <= k < j ==> !free[Round(next, k, |free|)]
  }

  /** The search goes on from next', which is either the place after next or, at the end, place 0. */
  lemma FirstFreeStep(free: seq<bool>, next: int, next': int, tries: nat, r: int)
    requires 0 <= next <= |free| && 0 < tries <= |free| && !free[Round(next, 0, |free|)]
    requires next' == After(next, |free|) || (next + 1 == |free| && next' == 0)
    requires FirstFree(free, next', tries - 1, r)
    ensures FirstFree(free, next, tries, r)
  {
    hide Round;
    forall j | 0 <= j < |free| - 1
      ensures Round(next', j, |free|) == Round(next, j + 1, |free|)
    {
      RoundStep(next, next', j, |free|);
    }
    if r == -1 {
      forall j | 0 <= j < tries
        ensures !free[Round(next, j, |free|)]
      {
        assert j > 0 ==> Round(next', j - 1, |free|) == Round(next, j - 1 + 1, |free|);
      }
    } else {
      var j :| 0 <= j < tries - 1 && r == Round(next', j, |free|) && FreeAt(free, next', j);
      forall k | 0 <= k < j + 1
        ensures !free[Round(next, k, |free|)]
      {
        assert k > 0 ==> Round(next', k - 1, |free|) == Round(next, k - 1 + 1, |free|);
      }
      assert FreeAt(free, next, j + 1);
    }
  }

  lemma RoundStep(next: int, next': int, j: int, n: int)
    requires 0 <= next <= n && 0 <= j < n - 1 && (next' == After(next, n) || (next + 1 == n && next' == 0))
    ensures Round(next', j, n) == Round(next, j + 1, n)
  {
  }

  lemma FirstFreeHere(free: seq<bool>, next: int, tries: nat)
    requires 0 <= next <= |free| && 0 < tries <= |free| && free[Round(next, 0, |free|)]
    ensures FirstFree(free, next, tries, Round(next, 0, |free|))
  {
    assert FreeAt(free, next, 0);
  }

  lemma NoTries(free: seq<bool>, next: int)
    requires 0 <= next <= |free|
    ensures FirstFree(free, next, 0, -1)
  {
  }

  /** A search all the way round fails only if no place is free. */
  lemma FirstFreeNone(free: seq<bool>, next: int)
    requires 0 <= next <= |free| && FirstFree(free, next, |free|, -1)
    ensures forall p :: 0 <= p < |free| ==> !free[p]
  {
    forall p | 0 <= p < |free|
      ensures !free[p]
    {
      assert !free[Round(next, if p >= next then p - next else p - next + |free|, |free|)];
    }
  }
}

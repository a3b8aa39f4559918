// The delta list: each key is the delay after the process before it, so the time that a sleeper
// has left is a sum of keys (system/insertd.c, system/unsleep.c, system/wakeup.c).

module Delta {

  import opened Common
  import opened Queues

  ghost predicate Keyed(l: seq<int>, key: seq<int>)
  {
    forall i :: 0 <= i < |l| ==> 0 <= l[i] < |key|
  }

  /** The sum of the first n keys: what sleeper n - 1 has left. */
  ghost function Remaining(l: seq<int>, key: seq<int>, n: int): int
    requires 0 <= n <= |l| && Keyed(l, key)
    decreases n
  {
    if n == 0 then 0 else Remaining(l, key, n - 1) + key[l[n - 1]]
  }

  /** What the process at place i has left. */
  ghost function Left(l: seq<int>, key: seq<int>, i: int): int
    requires 0 <= i < |l| && Keyed(l, key)
  {
    Remaining(l, key, i + 1)
  }

  /** The keys are delays, the first at least low, and nobody has 2^31 ticks or more to go. */
  ghost predicate DelaysOK(l: seq<int>, key: seq<int>, low: int)
  {
    Keyed(l, key) && (forall i :: 0 <= i < |l| ==> key[l[i]] >= if i == 0 then low else 0)
        && Remaining(l, key, |l|) <= MAXKEY + low
  }

  /** insertd: where the remaining delay runs out (system/insertd.c:24-28). */
  ghost function DeltaPos(l: seq<int>, key: seq<int>, d: int, i: nat): (r: (nat, int))
    requires i <= |l| && Keyed(l, key)
    ensures i <= r.0 <= |l|
    decreases |l| - i
  {
    if i < |l| && key[l[i]] <= d then DeltaPos(l, key, d - key[l[i]], i + 1) else (i, d)
  }

  /** The place found is the first whose deadline is later than d; k is what is left of d there. */
  lemma {:induction false} DeltaPosMeaning(l: seq<int>, key: seq<int>, d: int, i: nat)
    requires i <= |l| && Keyed(l, key) && d >= 0 && forall j :: 0 <= j < |l| ==> key[l[j]] >= 0
    ensures var (r, k) := DeltaPos(l, key, d, i);
            && k == d + Remaining(l, key, i) - Remaining(l, key, r) && k >= 0
            && (r < |l| ==> key[l[r]] > k)
    decreases |l| - i
  {
    if i == |l| || key[l[i]] > d {
    } else {
      DeltaPosMeaning(l, key, d - key[l[i]], i + 1);
    }
  }

  lemma {:induction false} RemainingSame(l: seq<int>, key: seq<int>, l': seq<int>, key': seq<int>, n: int)
    requires 0 <= n <= |l| && n <= |l'| && Keyed(l, key) && Keyed(l', key')
    requires forall i :: 0 <= i < n ==> key'[l'[i]] == key[l[i]]
    ensures Remaining(l', key', n) == Remaining(l, key, n)
    decreases n
  {
    if n == 0 {
    } else {
      RemainingSame(l, key, l', key', n - 1);
    }
  }

  lemma {:induction false} RemainingMonotone(l: seq<int>, key: seq<int>, m: int, n: int)
    requires 0 <= m <= n <= |l| && Keyed(l, key) && forall i :: m <= i < |l| ==> key[l[i]] >= 0
    ensures Remaining(l, key, m) <= Remaining(l, key, n)
    decreases n - m
  {
    if m == n {
    } else {
      RemainingMonotone(l, key, m, n - 1);
    }
  }

  /** The key of process p, wherever it stands, changes by d: everybody from p on is d later. */
  lemma {:induction false} KeyShift(l: seq<int>, key: seq<int>, i: int, d: int, n: int)
    requires Keyed(l, key) && NoDup(l) && 0 <= i < |l| && 0 <= n <= |l|
    ensures Keyed(l, key[l[i] := key[l[i]] + d])
    ensures Remaining(l, key[l[i] := key[l[i]] + d], n) == Remaining(l, key, n) + if n > i then d else 0
    decreases n
  {
    if n == 0 {
    } else {
      KeyShift(l, key, i, d, n - 1);
    }
  }

  /** A process with key k comes to stand at place i: those behind it are k later. */
  lemma {:induction false} PutShift(l: seq<int>, key: seq<int>, i: int, p: int, k: int, n: int)
    requires Keyed(l, key) && p !in l && 0 <= p < |key| && 0 <= i <= |l| && 0 <= n <= |l| + 1
    ensures Keyed(Put(l, i, p), key[p := k])
    ensures Remaining(Put(l, i, p), key[p := k], n) == if n <= i then Remaining(l, key, n)
            else Remaining(l, key, n - 1) + k
    decreases n
  {
    if n == 0 {
    } else {
      PutShift(l, key, i, p, k, n - 1);
    }
  }

  /** The process at place i leaves: those behind it are its key earlier. */
  lemma {:induction false} DropShift(l: seq<int>, key: seq<int>, i: int, n: int)
    requires Keyed(l, key) && 0 <= i < |l| && 0 <= n < |l|
    ensures Keyed(Drop(l, i), key)
    ensures Remaining(Drop(l, i), key, n) == if n <= i then Remaining(l, key, n)
            else Remaining(l, key, n + 1) - key[l[i]]
    decreases n
  {
    if n > 0 {
      DropShift(l, key, i, n - 1);
      assert Drop(l, i)[n - 1] == l[if n - 1 < i then n - 1 else n];
    }
  }

  /** The keys after process p has been put at place i with delay k, its follower's key reduced. */
  function Keys(l: seq<int>, key: seq<int>, i: int, p: int, k: int): seq<int>
    requires 0 <= p < |key| && 0 <= i <= |l| && (i < |l| ==> 0 <= l[i] < |key|)
  {
    var key1 := key[p := k];
    if i < |l| then key1[l[i] := key1[l[i]] - k] else key1
  }

  /** insertd: the new sleeper has its delay to go, everybody else what it had. */
  lemma InsertRemaining(l: seq<int>, key: seq<int>, p: int, d: int, n: int)
    requires DelaysOK(l, key, 0) && NoDup(l) && p !in l && 0 <= p < |key| && d >= 0 && 0 <= n <= |l| + 1
    ensures var (i, k) := DeltaPos(l, key, d, 0);
            && Keyed(Put(l, i, p), Keys(l, key, i, p, k))
            && Remaining(Put(l, i, p), Keys(l, key, i, p, k), n) ==
               if n <= i then Remaining(l, key, n) else if n == i + 1 then d else Remaining(l, key, n - 1)
  {
    var (i, k) := DeltaPos(l, key, d, 0);
    DeltaPosMeaning(l, key, d, 0);
    PutShift(l, key, i, p, k, n);
    PutNoDup(l, i, p);
    if i < |l| {
      assert Put(l, i, p)[i + 1] == l[i];
      KeyShift(Put(l, i, p), key[p := k], i + 1, -k, n);
    }
  }

  /** insertd puts the new sleeper behind all whose deadline is no later and before all whose
      deadline is later. */
  lemma InsertOrder(l: seq<int>, key: seq<int>, d: int, j: int)
    requires DelaysOK(l, key, 0) && 0 <= d && 0 <= j < |l|
    ensures Left(l, key, j) <= d <==> j < DeltaPos(l, key, d, 0).0
  {
    var (i, k) := DeltaPos(l, key, d, 0);
    DeltaPosMeaning(l, key, d, 0);
    if j < i {
      RemainingMonotone(l, key, j + 1, i);
    } else {
      RemainingMonotone(l, key, i + 1, j + 1);
    }
  }

  /** insertd keeps delays delays. */
  lemma InsertDelays(l: seq<int>, key: seq<int>, p: int, d: int)
    requires DelaysOK(l, key, 0) && NoDup(l) && p !in l && 0 <= p < |key| && 0 <= d <= MAXKEY
    ensures var (i, k) := DeltaPos(l, key, d, 0);
            DelaysOK(Put(l, i, p), Keys(l, key, i, p, k), 0)
  {
    hide Put, Keys, NoDup;
    var (i, k) := DeltaPos(l, key, d, 0);
    var l', key' := Put(l, i, p), Keys(l, key, i, p, k);
    DeltaPosMeaning(l, key, d, 0);
    InsertRemaining(l, key, p, d, |l| + 1);
    PutNode(0, l, i, p, 0);
    forall j | 0 <= j < |l'|
      ensures key'[l'[j]] >= 0
    {
      KeysAt(l, key, i, p, k, j);
    }
  }

  lemma KeysAt(l: seq<int>, key: seq<int>, i: int, p: int, k: int, j: int)
    requires Keyed(l, key) && NoDup(l) && p !in l && 0 <= p < |key| && 0 <= i <= |l| && 0 <= j <= |l|
    ensures Keyed(Put(l, i, p), Keys(l, key, i, p, k)) && |Put(l, i, p)| == |l| + 1
    ensures Keys(l, key, i, p, k)[Put(l, i, p)[j]] ==
            if j < i then key[l[j]] else if j == i then k else if j == i + 1 then key[l[i]] - k else key[l[j - 1]]
  {
    var l' := Put(l, i, p);
    if j != i {
      var o := if j < i then j else j - 1;
      assert l'[j] == l[o] && l[o] in l;
      assert o < i && i < |l| ==> l[o] != l[i];
      assert i < o ==> l[i] != l[o];
    }
  }

  /** unsleep: the keys once the process at place i of l has been taken off early
      (system/unsleep.c:39-42). */
  ghost function PassOn(l: seq<int>, key: seq<int>, i: int): seq<int>
    requires 0 <= i < |l| && Keyed(l, key)
  {
    if i + 1 < |l| then key[l[i + 1] := key[l[i + 1]] + key[l[i]]] else key
  }

  /** Everybody else keeps what it had to go. */
  lemma RemoveRemaining(l: seq<int>, key: seq<int>, i: int, n: int)
    requires Keyed(l, key) && NoDup(l) && 0 <= i < |l| && 0 <= n < |l|
    ensures var key' := PassOn(l, key, i);
            && Keyed(Drop(l, i), key')
            && Remaining(Drop(l, i), key', n) == if n <= i then Remaining(l, key, n) else Remaining(l, key, n + 1)
  {
    if i + 1 < |l| {
      var key' := key[l[i + 1] := key[l[i + 1]] + key[l[i]]];
      KeyShift(l, key, i + 1, key[l[i]], if n <= i then n else n + 1);
      DropShift(l, key', i, n);
    } else {
      DropShift(l, key, i, n);
    }
  }

  lemma RemoveDelays(l: seq<int>, key: seq<int>, i: int)
    requires DelaysOK(l, key, 0) && NoDup(l) && 0 <= i < |l|
    ensures var key' := PassOn(l, key, i);
            DelaysOK(Drop(l, i), key', 0)
  {
    RemoveRemaining(l, key, i, |l| - 1);
    var key' := PassOn(l, key, i);
    RemainingMonotone(l, key, i, |l|);
    forall j | 0 <= j < |l| - 1
      ensures key'[Drop(l, i)[j]] >= 0
    {
      assert Drop(l, i)[j] == l[if j < i then j else j + 1];
    }
  }

  /** The first sleeper, its time up, leaves. */
  lemma PopDelays(l: seq<int>, key: seq<int>)
    requires (DelaysOK(l, key, 0) || DelaysOK(l, key, -1)) && l != [] && key[l[0]] <= 0
    ensures DelaysOK(Drop(l, 0), key, 0)
  {
    DropShift(l, key, 0, |l| - 1);
    assert Remaining(l, key, 0) == 0;
  }

  /** The clock ticks: everybody has one tick less to go. */
  lemma TickDelays(l: seq<int>, key: seq<int>)
    requires DelaysOK(l, key, 0) && NoDup(l) && l != []
    ensures DelaysOK(l, key[l[0] := key[l[0]] - 1], -1)
  {
    KeyShift(l, key, 0, -1, |l|);
  }

  /** Once the first key is positive, or nobody sleeps, nothing is owed. */
  lemma SettledDelays(l: seq<int>, key: seq<int>)
    requires DelaysOK(l, key, 0) || DelaysOK(l, key, -1)
    requires l != [] ==> key[l[0]] > 0
    ensures DelaysOK(l, key, 0)
  {
  }
}

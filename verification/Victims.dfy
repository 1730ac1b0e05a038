/** Victim selection for work stealing: the ring walk of `StealState` and what it covers. */
module Victims {

  /** All n positions of the ring, starting at `first`. */
  function Ring(n: nat, first: nat): seq<nat>
    requires n > 0
  {
    seq(n, i requires 0 <= i => (first + i) % n)
  }

  function Without(xs: seq<nat>, id: nat): seq<nat> {
    if xs == [] then []
    else Without(xs[..|xs| - 1], id) + (if xs[|xs| - 1] == id then [] else [xs[|xs| - 1]])
  }

  /** The order in which worker `id` of `n` probes its peers when its cursor reads `rotation`. */
  function VictimList(n: nat, id: nat, rotation: nat): seq<nat> {
    if n <= 1 then [] else Without(Ring(n, (id + 1 + rotation) % n), id)
  }

  predicate Distinct(xs: seq<nat>) {
    forall i, j :: 0 <= i < j < |xs| ==> xs[i] != xs[j]
  }

  // ---------- The ring walk ----------

  lemma MultipleBound(d: int, n: int)
    requires 0 < n && -n < d * n < n
    ensures d == 0
  {
    if d != 0 {
      assert false;
    }
  }

  lemma Wrap(a: nat, n: nat)
    requires 0 < n <= a
    ensures a % n == (a - n) % n
  {
    var b := a - n;
    assert a == (a / n) * n + a % n && b == (b / n) * n + b % n;
    var d := a / n - b / n - 1;
    assert d * n == b % n - a % n;
    MultipleBound(d, n);
  }

  lemma Unwrap(a: nat, n: nat)
    requires 0 < n && a < 2 * n
    ensures a % n == if a < n then a else a - n
  {
    if a >= n { Wrap(a, n); }
  }

  /** Remainder by repeated subtraction, for linear reasoning. */
  function Rest(a: nat, n: nat): nat
    requires 0 < n
  {
    if a < n then a else Rest(a - n, n)
  }

  lemma {:induction false} RestIsRemainder(a: nat, n: nat)
    requires 0 < n
    ensures Rest(a, n) == a % n
  {
    if a >= n {
      RestIsRemainder(a - n, n);
      Wrap(a, n);
    }
  }

  lemma {:induction false} RestAdd(a: nat, k: nat, n: nat)
    requires 0 < n
    ensures Rest(a + k, n) == Rest(Rest(a, n) + k, n)
    decreases a
  {
    if a >= n {
      RestAdd(a - n, k, n);
      assert a + k - n == (a - n) + k;
    }
  }

  lemma ModuloAdd(a: nat, k: nat, n: nat)
    requires 0 < n
    ensures (a + k) % n == (a % n + k) % n
  {
    RestAdd(a, k, n);
    RestIsRemainder(a, n);
    RestIsRemainder(a + k, n);
    RestIsRemainder(a % n + k, n);
  }

  /** The ring visits every position exactly once. */
  lemma RingCovers(n: nat, first: nat)
    requires n > 0 && first < n
    ensures Distinct(Ring(n, first))
    ensures forall v :: 0 <= v < n ==> v in Ring(n, first)
    ensures forall v :: v in Ring(n, first) ==> v < n
  {
    forall v | 0 <= v < n
      ensures v in Ring(n, first)
    {
      var i := if v >= first then v - first else v - first + n;
      Unwrap(first + i, n);
      assert Ring(n, first)[i] == v;
    }
    forall i, j | 0 <= i < j < n
      ensures Ring(n, first)[i] != Ring(n, first)[j]
    {
      Unwrap(first + i, n);
      Unwrap(first + j, n);
    }
  }

  lemma {:induction false} WithoutKeeps(xs: seq<nat>, id: nat)
    ensures forall v: nat :: v in Without(xs, id) <==> v in xs && v != id
    ensures Distinct(xs) ==> Distinct(Without(xs, id))
    ensures |Without(xs, id)| <= |xs|
    ensures Distinct(xs) && id in xs ==> |Without(xs, id)| == |xs| - 1
    ensures id !in xs ==> Without(xs, id) == xs
  {
    if xs != [] {
      var ys, y := xs[..|xs| - 1], xs[|xs| - 1];
      assert xs == ys + [y];
      WithoutKeeps(ys, id);
      if Distinct(xs) {
        assert Distinct(ys);
        assert y !in ys;
        assert Distinct(Without(ys, id));
        assert y !in Without(ys, id);
      }
    }
  }

  /** Every victim list is a permutation of all workers but the caller: each peer once, nobody else. */
  lemma VictimListIsPermutation(n: nat, id: nat, rotation: nat)
    requires id < n
    ensures Distinct(VictimList(n, id, rotation))
    ensures forall v: nat :: v in VictimList(n, id, rotation) <==> v < n && v != id
    ensures |VictimList(n, id, rotation)| == n - 1
  {
    if n > 1 {
      var first := (id + 1 + rotation) % n;
      RingCovers(n, first);
      WithoutKeeps(Ring(n, first), id);
    }
  }

  // ---------- In which order ----------

  /** How many steps ahead of position `p` the ring reaches `v`. */
  function StepsTo(n: nat, p: nat, v: nat): nat
    requires p < n && v < n
  {
    if v >= p then v - p else v - p + n
  }

  /** Positions of a ring of n, each reached from `first` before the ones behind it. */
  predicate InRingOrder(n: nat, first: nat, xs: seq<nat>)
    requires first < n
  {
    && (forall i :: 0 <= i < |xs| ==> xs[i] < n)
    && (forall i, j :: 0 <= i < j < |xs| ==> StepsTo(n, first, xs[i]) < StepsTo(n, first, xs[j]))
  }

  lemma RingInOrder(n: nat, first: nat)
    requires first < n
    ensures InRingOrder(n, first, Ring(n, first))
  {
    forall i | 0 <= i < n
      ensures Ring(n, first)[i] < n && StepsTo(n, first, Ring(n, first)[i]) == i
    {
      Unwrap(first + i, n);
    }
  }

  lemma {:induction false} WithoutInOrder(n: nat, first: nat, xs: seq<nat>, id: nat)
    requires first < n && InRingOrder(n, first, xs)
    ensures InRingOrder(n, first, Without(xs, id))
  {
    if xs != [] {
      var ys, y := xs[..|xs| - 1], xs[|xs| - 1];
      WithoutInOrder(n, first, ys, id);
      WithoutAhead(n, first, ys, id, StepsTo(n, first, y));
      if y != id { OneMoreInOrder(n, first, Without(ys, id), y); }
    }
  }

  lemma {:induction false} WithoutAhead(n: nat, first: nat, xs: seq<nat>, id: nat, bound: nat)
    requires first < n && forall i :: 0 <= i < |xs| ==> xs[i] < n && StepsTo(n, first, xs[i]) < bound
    ensures forall i :: 0 <= i < |Without(xs, id)| ==>
              Without(xs, id)[i] < n && StepsTo(n, first, Without(xs, id)[i]) < bound
  {
    if xs != [] { WithoutAhead(n, first, xs[..|xs| - 1], id, bound); }
  }

  lemma OneMoreInOrder(n: nat, first: nat, xs: seq<nat>, y: nat)
    requires first < n && InRingOrder(n, first, xs) && y < n
    requires forall i :: 0 <= i < |xs| ==> StepsTo(n, first, xs[i]) < StepsTo(n, first, y)
    ensures InRingOrder(n, first, xs + [y])
  {
  }

  /** The victims come in the order in which the ring, started one past the worker plus its cursor, reaches them. */
  lemma VictimListInOrder(n: nat, id: nat, rotation: nat)
    requires id < n
    ensures InRingOrder(n, (id + 1 + rotation) % n, VictimList(n, id, rotation))
  {
    var first := (id + 1 + rotation) % n;
    RingInOrder(n, first);
    WithoutInOrder(n, first, Ring(n, first), id);
  }

  /** Ring order leaves no choice: two sequences of the same positions in ring order are equal. */
  lemma {:induction false} RingOrderIsUnique(n: nat, first: nat, xs: seq<nat>, ys: seq<nat>)
    requires first < n && InRingOrder(n, first, xs) && InRingOrder(n, first, ys)
    requires |xs| == |ys| && forall v :: v in xs <==> v in ys
    ensures xs == ys
  {
    if xs != [] {
      var k, l := |xs| - 1, |ys| - 1;
      assert xs[k] in ys && ys[l] in xs;
      assert xs[k] == ys[l];
      forall v
        ensures v in xs[..k] <==> v in ys[..l]
      {
        assert v in xs[..k] <==> v in xs && v != xs[k] by { assert xs == xs[..k] + [xs[k]]; }
        assert v in ys[..l] <==> v in ys && v != ys[l] by { assert ys == ys[..l] + [ys[l]]; }
      }
      RingOrderIsUnique(n, first, xs[..k], ys[..l]);
      assert xs == xs[..k] + [xs[k]] && ys == ys[..l] + [ys[l]];
    }
  }

  // ---------- Who is probed first ----------

  /** The position probed first: the start of the ring, or the next one when that is the caller itself. */
  function FirstVictim(n: nat, id: nat, rotation: nat): nat
    requires n > 0
  {
    var first := (id + 1 + rotation) % n;
    if first == id then (id + 1) % n else first
  }

  lemma {:induction false} WithoutHead(xs: seq<nat>, id: nat)
    requires xs != [] && Distinct(xs)
    requires xs[0] == id ==> |xs| > 1
    ensures Without(xs, id) != []
    ensures Without(xs, id)[0] == if xs[0] == id then xs[1] else xs[0]
  {
    var n := |xs| - 1;
    if n > 0 && !(n == 1 && xs[0] == id) {
      assert xs[..n][0] == xs[0];
      WithoutHead(xs[..n], id);
    } else if n == 1 {
      assert Without(xs[..1], id) == [] by { assert xs[..1] == [id]; assert Without(xs[..1][..0], id) == []; }
    } else {
      assert Without(xs[..0], id) == [];
    }
  }

  lemma FirstVictimIsHead(n: nat, id: nat, rotation: nat)
    requires 1 < n && id < n
    ensures VictimList(n, id, rotation) != []
    ensures VictimList(n, id, rotation)[0] == FirstVictim(n, id, rotation)
  {
    var first := (id + 1 + rotation) % n;
    var ring := Ring(n, first);
    assert Distinct(ring) by { RingCovers(n, first); }
    assert ring[0] == first by { Unwrap(first, n); }
    WithoutHead(ring, id);
  }

  /** How many of the calls with cursor start, start + 1, ..., start + len - 1 probe `v` first. */
  function TimesFirst(n: nat, id: nat, start: nat, len: nat, v: nat): nat
    requires n > 0
  {
    if len == 0 then 0
    else TimesFirst(n, id, start, len - 1, v) + (if FirstVictim(n, id, start + len - 1) == v then 1 else 0)
  }

  /** How many of those calls start their ring at position `v`. */
  function TimesStarted(n: nat, id: nat, start: nat, len: nat, v: nat): nat
    requires n > 0
  {
    if len == 0 then 0
    else TimesStarted(n, id, start, len - 1, v) + (if (id + 1 + start + len - 1) % n == v then 1 else 0)
  }

  /** Within n calls a ring start is hit exactly once. */
  lemma {:induction false} StartedOnce(n: nat, id: nat, start: nat, len: nat, v: nat)
    requires 0 < n && v < n && len <= n
    ensures TimesStarted(n, id, start, len, v) ==
            if StepsTo(n, (id + 1 + start) % n, v) < len then 1 else 0
  {
    if len > 0 {
      StartedOnce(n, id, start, len - 1, v);
      var base := id + 1 + start;
      ModuloAdd(base, len - 1, n);
      Unwrap(base % n + len - 1, n);
    }
  }

  lemma {:induction false} FirstSplits(n: nat, id: nat, start: nat, len: nat, v: nat)
    requires 0 < n && id < n && v < n && v != id
    ensures TimesFirst(n, id, start, len, v) ==
            TimesStarted(n, id, start, len, v) + (if v == (id + 1) % n then TimesStarted(n, id, start, len, id) else 0)
  {
    if len > 0 {
      FirstSplits(n, id, start, len - 1, v);
    }
  }

  /** Over any n consecutive calls every peer is probed first exactly once, except the next one on the ring: twice. */
  lemma RotationIsFair(n: nat, id: nat, start: nat, v: nat)
    requires 1 < n && id < n && v < n && v != id
    ensures TimesFirst(n, id, start, n, v) == if v == (id + 1) % n then 2 else 1
  {
    FirstSplits(n, id, start, n, v);
    StartedOnce(n, id, start, n, v);
    StartedOnce(n, id, start, n, id);
  }

  /**
   * Per-worker steal state. Both policies of the source use the round-robin order.
   */
  class StealState {
    const workerId: nat
    const workerCount: nat
    var cursor: nat

    ghost predicate Valid() {
      0 < workerCount
    }

    constructor (id: nat, count: nat)
      ensures Valid() && workerId == id && cursor == 0
      ensures workerCount == if count == 0 then 1 else count
    {
      workerId := id;
      workerCount := if count == 0 then 1 else count;
      cursor := 0;
    }

    /** The loop with its skip and its early break yields the whole list, and the cursor moves by one. */
    method RoundRobinVictims() returns (victims: seq<nat>)
      requires Valid() && workerId < workerCount
      modifies this`cursor
      ensures victims == VictimList(workerCount, workerId, old(cursor))
      ensures |victims| == workerCount - 1 && forall v: nat :: v in victims <==> v < workerCount && v != workerId
      ensures InRingOrder(workerCount, (workerId + 1 + old(cursor)) % workerCount, victims)
      ensures cursor == if workerCount <= 1 then old(cursor) else old(cursor) + 1
    {
      VictimListIsPermutation(workerCount, workerId, cursor);
      VictimListInOrder(workerCount, workerId, cursor);
      if workerCount <= 1 {
        return [];
      }
      victims := [];
      var rotation := cursor;
      cursor := cursor + 1;
      var first := (workerId + 1 + rotation) % workerCount;
      var offset := 0;
      while offset < workerCount
        invariant 0 <= offset <= workerCount
        invariant victims == Walk(workerCount, first, workerId, offset)
        invariant cursor == rotation + 1
      {
        var victim := (first + offset) % workerCount;
        offset := offset + 1;
        if victim == workerId {
          continue;
        }
        victims := victims + [victim];
        if |victims| == workerCount - 1 {
          break;
        }
      }
      WalkDone(workerCount, first, workerId, offset);
    }
  }

  /** The victims collected after `k` positions of the ring. */
  function Walk(n: nat, first: nat, id: nat, k: nat): seq<nat>
    requires n > 0
  {
    if k == 0 then []
    else Walk(n, first, id, k - 1) + (if (first + k - 1) % n == id then [] else [(first + k - 1) % n])
  }

  lemma {:induction false} WalkIsPrefix(n: nat, first: nat, id: nat, k: nat)
    requires 0 < n && k <= n
    ensures Walk(n, first, id, k) == Without(Ring(n, first)[..k], id)
  {
    if k > 0 {
      WalkIsPrefix(n, first, id, k - 1);
      assert Ring(n, first)[..k][..k - 1] == Ring(n, first)[..k - 1];
    }
  }

  /** The walk may stop at the end of the ring or as soon as n - 1 victims are collected: either way none is missing. */
  lemma WalkDone(n: nat, first: nat, id: nat, k: nat)
    requires id < n && first < n && k <= n
    requires k == n || |Walk(n, first, id, k)| == n - 1
    ensures Walk(n, first, id, k) == Without(Ring(n, first), id)
  {
    var ring := Ring(n, first);
    WalkIsPrefix(n, first, id, k);
    if k == n {
      assert ring[..n] == ring;
    } else {
      RingCovers(n, first);
      WithoutAll(ring, k, id);
    }
  }

  /** A prefix of a duplicate-free sequence that already yields all but one of its elements yields everything. */
  lemma {:induction false} WithoutAll(xs: seq<nat>, k: nat, id: nat)
    requires k <= |xs| && Distinct(xs) && id in xs
    ensures Without(xs[..k], id) <= Without(xs, id)
    ensures |Without(xs[..k], id)| == |xs| - 1 ==> Without(xs[..k], id) == Without(xs, id)
  {
    WithoutKeeps(xs, id);
    WithoutPrefix(xs, k, id);
    assert xs[..|xs|] == xs;
  }

  lemma {:induction false} WithoutPrefix(xs: seq<nat>, k: nat, id: nat)
    requires k <= |xs|
    ensures Without(xs[..k], id) <= Without(xs, id)
  {
    if k == |xs| {
      assert xs[..k] == xs;
    } else {
      var ys := xs[..|xs| - 1];
      assert xs[..k] == ys[..k];
      WithoutPrefix(ys, k, id);
    }
  }
}

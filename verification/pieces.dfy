/** Sequences built from equal-sized pieces. */
module Pieces {

  /** The parts one after another. */
  function Concat<T>(parts: seq<seq<T>>): seq<T>
    decreases |parts|
  {
    if parts == [] then [] else Concat(parts[..|parts| - 1]) + parts[|parts| - 1]
  }

  /** Where piece `d` starts when every piece has length `n`, counted out piece
      by piece. */
  function Offset(n: nat, d: nat): nat
  {
    if d == 0 then 0 else Offset(n, d - 1) + n
  }

  /** Parts of equal length `n` add up to `Offset(n, |parts|)` elements. */
  lemma {:induction false} ConcatOffsetLength<T>(parts: seq<seq<T>>, n: nat)
    requires forall d :: 0 <= d < |parts| ==> |parts[d]| == n
    ensures |Concat(parts)| == Offset(n, |parts|)
    decreases |parts|
  {
    if parts != [] {
      var p := |parts| - 1;
      var front := parts[..p];
      assert Concat(parts) == Concat(front) + parts[p];
      forall d | 0 <= d < |front| ensures |front[d]| == n {
        assert front[d] == parts[d];
      }
      ConcatOffsetLength(front, n);
    }
  }

  /** Parts of equal length `n` lie back to back: element `k` of part `d` is
      element `Offset(n, d) + k` of the whole. */
  lemma {:induction false} ConcatOffsetAt<T>(parts: seq<seq<T>>, n: nat, d: nat, k: nat)
    requires forall d :: 0 <= d < |parts| ==> |parts[d]| == n
    requires d < |parts| && k < n
    ensures Offset(n, d) + k < |Concat(parts)| && Concat(parts)[Offset(n, d) + k] == parts[d][k]
    decreases |parts|
  {
    var p := |parts| - 1;
    var front := parts[..p];
    assert Concat(parts) == Concat(front) + parts[p];
    forall e | 0 <= e < |front| ensures |front[e]| == n {
      assert front[e] == parts[e];
    }
    ConcatOffsetLength(front, n);
    if d < p {
      ConcatOffsetAt(front, n, d, k);
      OffsetMonotone(n, d + 1, p);
      assert front[d] == parts[d];
    }
  }

  lemma {:induction false} OffsetMonotone(n: nat, a: nat, b: nat)
    requires a <= b
    ensures Offset(n, a) <= Offset(n, b)
    decreases b - a
  {
    if a < b {
      OffsetMonotone(n, a + 1, b);
    }
  }

  /** The offset counted out is the product. */
  lemma {:induction false} OffsetIsProduct(n: nat, d: nat)
    ensures Offset(n, d) == n * d
  {
    if d > 0 {
      OffsetIsProduct(n, d - 1);
      MulSucc(n, d - 1);
    }
  }

  lemma ConcatLength<T>(parts: seq<seq<T>>, n: nat)
    requires forall d :: 0 <= d < |parts| ==> |parts[d]| == n
    ensures |Concat(parts)| == n * |parts|
  {
    ConcatOffsetLength(parts, n);
    OffsetIsProduct(n, |parts|);
  }

  /** Element `k` of piece `d`. */
  lemma ConcatAt<T>(parts: seq<seq<T>>, n: nat, d: nat, k: nat)
    requires forall d :: 0 <= d < |parts| ==> |parts[d]| == n
    requires d < |parts| && k < n
    ensures n * d + k < |Concat(parts)| && Concat(parts)[n * d + k] == parts[d][k]
  {
    ConcatOffsetAt(parts, n, d, k);
    OffsetIsProduct(n, d);
  }

  /** Two sequences of pieces of length `n` that agree everywhere but at
      position `slot` of each piece: their concatenations have the same length
      and agree at every index that is not a `slot` position. */
  lemma ConcatAgreeOffSlot<T>(a: seq<seq<T>>, b: seq<seq<T>>, n: nat, slot: nat)
    requires |a| == |b|
    requires forall d :: 0 <= d < |a| ==> |a[d]| == n && |b[d]| == n
    requires forall d, k :: 0 <= d < |a| && 0 <= k < n && k != slot ==> a[d][k] == b[d][k]
    ensures |Concat(a)| == |Concat(b)| == n * |a|
    ensures forall i :: 0 <= i < |Concat(a)| && i % n != slot ==> Concat(a)[i] == Concat(b)[i]
  {
    ConcatLength(a, n);
    ConcatLength(b, n);
    forall i | 0 <= i < |Concat(a)| && i % n != slot ensures Concat(a)[i] == Concat(b)[i] {
      AgreeAt(a, b, n, slot, i);
    }
  }

  lemma AgreeAt<T>(a: seq<seq<T>>, b: seq<seq<T>>, n: nat, slot: nat, i: nat)
    requires |a| == |b|
    requires forall d :: 0 <= d < |a| ==> |a[d]| == n && |b[d]| == n
    requires forall d, k :: 0 <= d < |a| && 0 <= k < n && k != slot ==> a[d][k] == b[d][k]
    requires |Concat(a)| == n * |a| && i < |Concat(a)| && i % n != slot
    ensures i < |Concat(b)| && Concat(a)[i] == Concat(b)[i]
  {
    var d, k := i / n, i % n;
    DivMod(i, n);
    if d >= |a| {
      MulMonotone(n, |a|, d);
      assert false;
    }
    ConcatAt(a, n, d, k);
    ConcatAt(b, n, d, k);
  }

  lemma MulSucc(n: nat, p: nat)
    ensures n * (p + 1) == n * p + n
  {
  }

  lemma DivMod(i: nat, n: nat)
    requires n > 0
    ensures i == n * (i / n) + i % n && 0 <= i % n < n
  {
  }

  lemma MulMonotone(n: nat, a: nat, b: nat)
    requires a <= b
    ensures n * a <= n * b
  {
  }
}

/** Contiguous fixed-size batches, as the services cut them:
    `for k in range((n + size - 1) // size): s[k * size : k * size + size]`. */
module Batching {

  /** `(n + size - 1) // size` */
  function NumBatches(n: nat, size: nat): nat
    requires size > 0
  {
    (n + size - 1) / size
  }

  function Min(a: int, b: int): int
  {
    if a <= b then a else b
  }

  /** The end of batch `k`: `min(k * size + size, n)`, the slice's end and the count the
      progress message shows. */
  function BatchEnd(n: nat, size: nat, k: nat): nat
  {
    Min(k * size + size, n)
  }

  /** `s[k * size : k * size + size]` */
  function Batch<T>(s: seq<T>, size: nat, k: nat): seq<T>
    requires size > 0 && k < NumBatches(|s|, size)
  {
    BatchStart(|s|, size, k);
    s[k * size..BatchEnd(|s|, size, k)]
  }

  function Batches<T>(s: seq<T>, size: nat): seq<seq<T>>
    requires size > 0
  {
    seq(NumBatches(|s|, size), k requires 0 <= k < NumBatches(|s|, size) => Batch(s, size, k))
  }

  function Flatten<T>(bs: seq<seq<T>>): seq<T>
  {
    if bs == [] then [] else Flatten(bs[..|bs| - 1]) + bs[|bs| - 1]
  }

  /** The number of batches is the ceiling of `n / size`: every item is in some batch and
      no batch is empty. */
  lemma NumBatchesBounds(n: nat, size: nat)
    requires size > 0
    ensures n == 0 <==> NumBatches(n, size) == 0
    ensures NumBatches(n, size) * size >= n
    ensures n > 0 ==> (NumBatches(n, size) - 1) * size < n
  {
    var q := NumBatches(n, size);
    assert (n + size - 1) == q * size + (n + size - 1) % size;
  }

  lemma MulLe(a: nat, b: nat, c: nat)
    requires a <= b
    ensures a * c <= b * c
  {
    assert b * c - a * c == (b - a) * c;
  }

  lemma MulSucc(a: nat, c: nat)
    ensures (a + 1) * c == a * c + c
  {
  }

  /** Batch `k` of a non-final position starts before the end of the items. */
  lemma BatchStart(n: nat, size: nat, k: nat)
    requires size > 0 && k < NumBatches(n, size)
    ensures k * size < n
  {
    NumBatchesBounds(n, size);
    MulLe(k, NumBatches(n, size) - 1, size);
  }

  lemma {:induction false} FlattenPrefix<T>(s: seq<T>, size: nat, k: nat)
    requires size > 0 && k <= NumBatches(|s|, size)
    ensures Flatten(Batches(s, size)[..k]) == s[..Min(k * size, |s|)]
  {
    if k > 0 {
      var bs := Batches(s, size);
      FlattenPrefix(s, size, k - 1);
      BatchStart(|s|, size, k - 1);
      var lo := (k - 1) * size;
      MulSucc(k - 1, size);
      assert k * size == lo + size;
      assert bs[..k][..k - 1] == bs[..k - 1];
      assert bs[..k][k - 1] == bs[k - 1] == s[lo..Min(lo + size, |s|)];
      assert Flatten(bs[..k]) == s[..lo] + s[lo..Min(lo + size, |s|)];
    }
  }

  /** The batches cover the items exactly once, in order; every batch but the last has
      exactly `size` items, the last between one and `size`. */
  lemma BatchesPartition<T>(s: seq<T>, size: nat)
    requires size > 0
    ensures |Batches(s, size)| == NumBatches(|s|, size)
    ensures Flatten(Batches(s, size)) == s
    ensures forall k :: 0 <= k < |Batches(s, size)| - 1 ==> |Batches(s, size)[k]| == size
    ensures forall k :: 0 <= k < |Batches(s, size)| ==> 0 < |Batches(s, size)[k]| <= size
  {
    var bs := Batches(s, size);
    var q := NumBatches(|s|, size);
    NumBatchesBounds(|s|, size);
    FlattenPrefix(s, size, q);
    assert bs[..q] == bs;
    forall k | 0 <= k < q ensures 0 < |bs[k]| <= size && (k < q - 1 ==> |bs[k]| == size) {
      BatchStart(|s|, size, k);
      MulSucc(k, size);
      if k < q - 1 {
        BatchStart(|s|, size, k + 1);
      }
    }
  }
}

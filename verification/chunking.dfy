/** How both workflows cut their input into batches:
    `for i in range(0, len(xs), size): batch = xs[i:i + size]`. */
module Chunking {
  import opened Text

  function Min(a: int, b: int): int {
    if a <= b then a else b
  }

  /** `(n + size - 1) // size`, the `total_batches` the handler announces. */
  function NumChunks(n: nat, size: nat): nat
    requires size >= 1
  {
    (n + size - 1) / size
  }

  /** Every batch index names a start inside the input. */
  lemma ChunkStart(n: nat, size: nat, j: nat)
    requires size >= 1 && j < NumChunks(n, size)
    ensures j * size < n
  {
    var q := NumChunks(n, size);
    assert q * size <= n + size - 1;
    assert j * size <= (q - 1) * size;
  }

  /** The j-th batch, Python's `xs[j * size : j * size + size]`. */
  function ChunkAt<T>(xs: seq<T>, size: nat, j: nat): seq<T>
    requires size >= 1 && j < NumChunks(|xs|, size)
  {
    ChunkStart(|xs|, size, j);
    xs[j * size..Min(j * size + size, |xs|)]
  }

  /** All batches, in the order the handler processes them. */
  function Chunks<T>(xs: seq<T>, size: nat): seq<seq<T>>
    requires size >= 1
  {
    seq(NumChunks(|xs|, size), j requires 0 <= j < NumChunks(|xs|, size) => ChunkAt(xs, size, j))
  }

  /** Every batch is non-empty and holds at most `size` items; every batch but
      the last holds exactly `size`. */
  lemma ChunkSizes<T>(xs: seq<T>, size: nat)
    requires size >= 1
    ensures forall j :: 0 <= j < |Chunks(xs, size)| ==> 1 <= |Chunks(xs, size)[j]| <= size
    ensures forall j :: 0 <= j < |Chunks(xs, size)| - 1 ==> |Chunks(xs, size)[j]| == size
  {
    var cs := Chunks(xs, size);
    forall j | 0 <= j < |cs|
      ensures 1 <= |cs[j]| <= size
      ensures j < |cs| - 1 ==> |cs[j]| == size
    {
      ChunkStart(|xs|, size, j);
      assert cs[j] == ChunkAt(xs, size, j);
      if j < |cs| - 1 {
        ChunkStart(|xs|, size, j + 1);
        assert (j + 1) * size == j * size + size;
      }
    }
  }

  /** The batch count is `ceil(n / size)`: enough batches to hold every item,
      and no empty one. */
  lemma NumChunksBounds(n: nat, size: nat)
    requires size >= 1
    ensures (NumChunks(n, size) - 1) * size < n || n == 0
    ensures n <= NumChunks(n, size) * size
  {
  }

  /** No items, no batch. */
  lemma NoChunks<T>(xs: seq<T>, size: nat)
    requires size >= 1 && xs == []
    ensures Chunks(xs, size) == []
  {
    DivUnique(size - 1, size, 0, size - 1);
  }

  lemma DivStep(a: nat, size: nat)
    requires size >= 1
    ensures (a + size) / size == a / size + 1
  {
    var q, r := a / size, a % size;
    assert a + size == (q + 1) * size + r;
    DivUnique(a + size, size, q + 1, r);
  }

  lemma DivUnique(x: int, size: int, q: int, r: int)
    requires size > 0 && 0 <= r < size && x == q * size + r
    ensures x / size == q
  {
    var q', r' := x / size, x % size;
    assert (q' - q) * size == r - r';
    MulFarFromZero(q' - q, size);
  }

  lemma MulFarFromZero(d: int, size: int)
    requires size > 0
    ensures d >= 1 ==> d * size >= size
    ensures d <= -1 ==> d * size <= -size
  {
  }

  /** Dropping the first `size` items leaves one batch fewer. */
  lemma NumChunksStep(n: nat, size: nat)
    requires size >= 1 && n > size
    ensures NumChunks(n, size) == NumChunks(n - size, size) + 1
  {
    DivStep(n - size + size - 1, size);
  }

  /** Batch `j` of the input is batch `j - 1` of what follows the first batch. */
  lemma ChunkAtShift<T>(xs: seq<T>, size: nat, j: nat)
    requires size >= 1 && |xs| > size && 1 <= j < NumChunks(|xs|, size)
    requires NumChunks(|xs|, size) == NumChunks(|xs| - size, size) + 1
    ensures ChunkAt(xs, size, j) == ChunkAt(xs[size..], size, j - 1)
  {
    var n := |xs|;
    MulPred(j, size);
    ChunkStart(n, size, j);
    ChunkStart(n - size, size, j - 1);
    SliceShift(xs, size, j * size, Min(j * size + size, n));
  }

  lemma SliceShift<T>(xs: seq<T>, size: nat, a: nat, b: nat)
    requires size <= a <= b <= |xs|
    ensures xs[a..b] == xs[size..][a - size..b - size]
  {
  }

  lemma MulPred(j: nat, size: nat)
    requires j >= 1
    ensures (j - 1) * size + size == j * size
  {
  }

  /** The first batch is the first `size` items, and the remaining batches are
      the batches of what follows: the recursive reading of the index loop. */
  lemma ChunksUnfold<T>(xs: seq<T>, size: nat)
    requires size >= 1 && |xs| > 0
    ensures Chunks(xs, size) == [xs[..Min(size, |xs|)]] + Chunks(xs[Min(size, |xs|)..], size)
  {
    var n := |xs|;
    var m := Min(size, n);
    var rest := xs[m..];
    if n <= size {
      assert NumChunks(n, size) == 1;
      assert NumChunks(|rest|, size) == 0;
    } else {
      NumChunksStep(n, size);
      forall j | 1 <= j < NumChunks(n, size)
        ensures Chunks(xs, size)[j] == Chunks(rest, size)[j - 1]
      {
        ChunkAtShift(xs, size, j);
      }
    }
  }

  /** Concatenating the batches in order gives the input back. */
  lemma {:induction false} FlattenChunks<T>(xs: seq<T>, size: nat)
    requires size >= 1
    ensures Flatten(Chunks(xs, size)) == xs
    decreases |xs|
  {
    if |xs| > 0 {
      var m := Min(size, |xs|);
      ChunksUnfold(xs, size);
      FlattenChunks(xs[m..], size);
      assert xs == xs[..m] + xs[m..];
    }
  }

  /** Seven items in batches of three: sizes 3, 3 and 1. */
  lemma SevenInThrees<T>(xs: seq<T>)
    requires |xs| == 7
    ensures |Chunks(xs, 3)| == 3
    ensures |Chunks(xs, 3)[0]| == 3 && |Chunks(xs, 3)[1]| == 3 && |Chunks(xs, 3)[2]| == 1
  {
  }

  /** The call that serves the element at index `i` of a run whose next call
      is call `start`, when every batch falls back to one call per element:
      each earlier batch costs its batch call and one call per element, and
      the element's own batch call precedes the calls for its batch. */
  function FallbackCall(start: nat, i: nat, batchSize: nat): nat
    requires batchSize >= 1
    decreases i
  {
    if i < batchSize then start + 1 + i else FallbackCall(start + 1 + batchSize, i - batchSize, batchSize)
  }

  /** The call in closed form: one batch call per batch up to and including
      the element's own, and one call per earlier element. */
  lemma {:induction false} FallbackCallClosed(start: nat, i: nat, batchSize: nat)
    requires batchSize >= 1
    ensures FallbackCall(start, i, batchSize) == start + i / batchSize + 1 + i
    decreases i
  {
    if i < batchSize {
      DivUnique(i, batchSize, 0, i);
    } else {
      FallbackCallClosed(start + 1 + batchSize, i - batchSize, batchSize);
      DivStep(i - batchSize, batchSize);
    }
  }
}

/** The chunk size chosen for incremental MACs (rust/protocol/src/incremental_mac.rs:25-46). */
module ChunkSizes {
  import opened Prelude

  const MINIMUM_CHUNK_SIZE := 0x1_0000
  const MAXIMUM_CHUNK_SIZE := 0x20_0000
  const TARGET_TOTAL_DIGEST_SIZE := 0x2000

  predicate IsDigestLength(d: nat) {
    d > 0 && TARGET_TOTAL_DIGEST_SIZE % d == 0
  }

  function TargetCount(d: nat): nat
    requires IsDigestLength(d)
  {
    TARGET_TOTAL_DIGEST_SIZE / d
  }

  lemma TargetTimesDigest(d: nat)
    requires IsDigestLength(d)
    ensures TargetCount(d) > 0 && TargetCount(d) * d == TARGET_TOTAL_DIGEST_SIZE
  {
  }

  /** `calculate_chunk_size`, given the number of chunks to aim for. */
  function SizeFor(target: nat, dataSize: nat): nat
    requires target > 0
  {
    if dataSize < target * MINIMUM_CHUNK_SIZE then MINIMUM_CHUNK_SIZE
    else if dataSize < target * MAXIMUM_CHUNK_SIZE then DivCeil(dataSize, target)
    else MAXIMUM_CHUNK_SIZE
  }

  function CalculateChunkSize(d: nat, dataSize: nat): nat
    requires IsDigestLength(d)
  {
    TargetTimesDigest(d);
    SizeFor(TargetCount(d), dataSize)
  }

  /** The quotient rounded up is the least number of pieces of size k that cover n. */
  lemma CeilingIsLeast(n: nat, k: nat, c: nat)
    requires k > 0
    ensures DivCeil(n, k) <= c <==> n <= c * k
  {
    var q, r := n / k, n % k;
    assert n == q * k + r;
    if n <= c * k && c <= q {
      assert c * k <= q * k;
    }
    if DivCeil(n, k) <= c {
      assert DivCeil(n, k) * k <= c * k;
      assert (q + 1) * k == q * k + k;
    }
  }

  lemma SizeInBounds(target: nat, n: nat)
    requires target > 0
    ensures MINIMUM_CHUNK_SIZE <= SizeFor(target, n) <= MAXIMUM_CHUNK_SIZE
  {
    if target * MINIMUM_CHUNK_SIZE <= n < target * MAXIMUM_CHUNK_SIZE {
      CeilingIsLeast(n, target, MINIMUM_CHUNK_SIZE - 1);
      CeilingIsLeast(n, target, MAXIMUM_CHUNK_SIZE);
    }
  }

  /** Between 64 KiB and 2 MiB for every digest length that divides 8 KiB and every data size. */
  lemma ChunkSizeInBounds(d: nat, n: nat)
    requires IsDigestLength(d)
    ensures MINIMUM_CHUNK_SIZE <= CalculateChunkSize(d, n) <= MAXIMUM_CHUNK_SIZE
  {
    TargetTimesDigest(d);
    SizeInBounds(TargetCount(d), n);
  }

  lemma ChunkSizeMonotone(d: nat, n: nat, m: nat)
    requires IsDigestLength(d) && n <= m
    ensures CalculateChunkSize(d, n) <= CalculateChunkSize(d, m)
  {
    TargetTimesDigest(d);
    var target := TargetCount(d);
    SizeInBounds(target, n);
    SizeInBounds(target, m);
    CeilingIsLeast(m, target, DivCeil(m, target));
    CeilingIsLeast(n, target, DivCeil(m, target));
  }

  /**
   The least size within bounds with which the target count of chunks covers the data, or the maximum if none does: a
   size within bounds is at least the one chosen exactly when it covers the data or is the maximum.
   */
  lemma ChunkSizeIsLeast(d: nat, n: nat, size: nat)
    requires IsDigestLength(d) && MINIMUM_CHUNK_SIZE <= size <= MAXIMUM_CHUNK_SIZE
    ensures CalculateChunkSize(d, n) <= size <==> n <= TARGET_TOTAL_DIGEST_SIZE / d * size || size == MAXIMUM_CHUNK_SIZE
  {
    TargetTimesDigest(d);
    var target := TargetCount(d);
    SizeInBounds(target, n);
    CeilingIsLeast(n, target, size);
    ScaleCompare(MINIMUM_CHUNK_SIZE, size, target);
    ScaleCompare(size, MAXIMUM_CHUNK_SIZE, target);
  }

  /** One digest per chunk, and one for empty data. */
  function TotalDigestSize(d: nat, n: nat): nat
    requires IsDigestLength(d)
  {
    ChunkSizeInBounds(d, n);
    Max(1, DivCeil(n, CalculateChunkSize(d, n))) * d
  }

  lemma TargetChunksCover(target: nat, n: nat)
    requires target > 0
    ensures n <= target * SizeFor(target, n) <==> n <= target * MAXIMUM_CHUNK_SIZE
  {
    if target * MINIMUM_CHUNK_SIZE <= n < target * MAXIMUM_CHUNK_SIZE {
      var size := DivCeil(n, target);
      assert n <= size * target by { CeilingIsLeast(n, target, size); }
      assert size * target == target * size;
    }
  }

  /** The digests take at most 8 KiB exactly for data up to the target count times 2 MiB. */
  lemma TotalDigestSizeBound(d: nat, n: nat)
    requires IsDigestLength(d)
    ensures TotalDigestSize(d, n) <= TARGET_TOTAL_DIGEST_SIZE <==> n <= TargetCount(d) * MAXIMUM_CHUNK_SIZE
  {
    TargetTimesDigest(d);
    var target, size := TargetCount(d), CalculateChunkSize(d, n);
    SizeInBounds(target, n);
    TargetChunksCover(target, n);
    CeilingIsLeast(n, size, target);
    var count := Max(1, DivCeil(n, size));
    ScaleCompare(count, target, d);
  }

  lemma ScaleCompare(a: nat, b: nat, d: nat)
    requires d > 0
    ensures a * d <= b * d <==> a <= b
  {
    if a > b {
      assert a * d >= (b + 1) * d == b * d + d;
    } else {
      assert a * d <= b * d;
    }
  }
}

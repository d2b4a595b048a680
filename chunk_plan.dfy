/**
 * The chunk plan of `main`: how many 1 MiB chunks a file of `size` bytes
 * has, the inclusive byte range of chunk `i`, and the size its progress
 * file must have.
 */
module ChunkPlan {
  import opened Common

  /** `1 << 20` bytes per chunk. */
  const ChunkSize: int := 0x10_0000

  /** An inclusive `(start, end)` byte range, as sent in a `Range: bytes=start-end` header. */
  type ByteRange = (int, int)

  /** Number of bytes a range asks for: `end - start + 1`. */
  function RangeLength(r: ByteRange): int
  {
    r.1 - r.0 + 1
  }

  /** `(size + chunksize - 1) // chunksize`: the number of chunks, the ceiling of size / 2^20. */
  function NumChunks(size: int): (n: int)
    ensures size > 0 ==> n > 0 && (n - 1) * ChunkSize < size <= n * ChunkSize
    ensures size <= 0 ==> n <= 0
  {
    (size + ChunkSize - 1) / ChunkSize
  }

  /**
   * The range requested for chunk `i`: `(i*chunksize, min((i+1)*chunksize - 1, size - 1))`.
   * It starts at `i * 2^20`, asks for exactly as many bytes as the skip and
   * verify checks expect of the progress file, and for a planned chunk lies
   * inside `[0, size - 1]` without being empty.
   */
  function ChunkRange(size: int, i: int): (r: ByteRange)
    ensures r.0 == i * ChunkSize
    ensures RangeLength(r) == ExpectedSize(size, i)
    ensures 0 <= i < NumChunks(size) ==> 0 <= r.0 <= r.1 < size
  {
    (i * ChunkSize, Min((i + 1) * ChunkSize - 1, size - 1))
  }

  /**
   * `min(chunksize, size - i*chunksize)`: the size a complete progress file
   * of chunk `i` has. For a planned chunk it is between 1 and 2^20; every
   * chunk but the last is full, and the last holds what remains of the file.
   */
  function ExpectedSize(size: int, i: int): (e: int)
    ensures 0 <= i < NumChunks(size) ==> 0 < e <= ChunkSize
    ensures 0 <= i < NumChunks(size) - 1 ==> e == ChunkSize
    ensures 0 < size && i == NumChunks(size) - 1 ==> i * ChunkSize + e == size
  {
    Min(ChunkSize, size - i * ChunkSize)
  }

  /**
   * The plan tiles `[0, size - 1]`: the first range starts at 0, each next
   * range starts right after the previous one ends, and the last ends at
   * `size - 1`.
   */
  lemma PlanIsContiguous(size: int)
    requires size > 0
    ensures ChunkRange(size, 0).0 == 0
    ensures ChunkRange(size, NumChunks(size) - 1).1 == size - 1
    ensures forall i :: 0 <= i < NumChunks(size) - 1 ==> ChunkRange(size, i + 1).0 == ChunkRange(size, i).1 + 1
  {
  }

  /** Distinct planned chunks never share a byte: an earlier range ends before a later one starts. */
  lemma PlanIsDisjoint(size: int, i: int, j: int)
    requires 0 <= i < j < NumChunks(size)
    ensures ChunkRange(size, i).1 < ChunkRange(size, j).0
  {
  }

  /** Every byte of the file lies in the range of chunk `b / 2^20`, and in no other. */
  lemma PlanCovers(size: int, b: int)
    requires 0 <= b < size
    ensures 0 <= b / ChunkSize < NumChunks(size)
    ensures ChunkRange(size, b / ChunkSize).0 <= b <= ChunkRange(size, b / ChunkSize).1
    ensures forall i :: 0 <= i < NumChunks(size) && ChunkRange(size, i).0 <= b <= ChunkRange(size, i).1 ==> i == b / ChunkSize
  {
  }

  /** A file of exactly three chunks, 3 * 2^20 bytes, is fetched as three full ranges. */
  lemma ThreeMebibytePlan()
    ensures NumChunks(3 * ChunkSize) == 3
    ensures ChunkRange(3 * ChunkSize, 0) == (0, 1048575)
    ensures ChunkRange(3 * ChunkSize, 1) == (1048576, 2097151)
    ensures ChunkRange(3 * ChunkSize, 2) == (2097152, 3145727)
  {
  }
}

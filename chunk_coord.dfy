/** `ChunkCoord`: which chunk of the world a position lies in, three `i32`
    components; the key of the world's chunk map (structural equality and
    hash). `ChunkCoord::new(x, y, z)` is the datatype constructor. */
module ChunkCoords {
  import opened Ints
  import opened WorldSize
  import opened GlobalCoords
  import LocalCoords
  import Text

  datatype ChunkCoord = ChunkCoord(x: I32, y: I32, z: I32)

  /** Every component at `i32::MIN`. */
  const MIN: ChunkCoord := ChunkCoord(I32_MIN, I32_MIN, I32_MIN)

  /** Every component at `i32::MAX`. */
  const MAX: ChunkCoord := ChunkCoord(I32_MAX, I32_MAX, I32_MAX)

  /** Smallest and largest chunk component a conversion can produce. */
  const AXIS_MIN: int := -67108864
  const AXIS_MAX: int := 67108863

  /** `Display`: `"ChunkCoord (x, y, z)"`. */
  function Display(c: ChunkCoord): string
  {
    Text.Triple("ChunkCoord", c.x, c.y, c.z)
  }

  /** The inner `convert` of `ChunkCoord::from`: Rust's `/` by the chunk size,
      which rounds toward zero. The quotient shrinks the magnitude at least
      32-fold, so it always fits back into an `i32` and neither `unwrap` of
      the source can fail. */
  function AxisOf(a: I32): (r: I32)
    ensures Abs(r) * CHUNK_SIZE <= Abs(a)
    ensures AXIS_MIN <= r <= AXIS_MAX
  {
    TruncDiv(a, CHUNK_SIZE)
  }

  /** `ChunkCoord::from(GlobalCoord)`: each axis converted on its own. */
  function FromGlobal(g: GlobalCoord): (c: ChunkCoord)
    ensures AXIS_MIN <= c.x <= AXIS_MAX && AXIS_MIN <= c.y <= AXIS_MAX && AXIS_MIN <= c.z <= AXIS_MAX
    ensures Abs(c.x) * CHUNK_SIZE <= Abs(g.x) && Abs(c.y) * CHUNK_SIZE <= Abs(g.y) && Abs(c.z) * CHUNK_SIZE <= Abs(g.z)
  {
    ChunkCoord(AxisOf(g.x), AxisOf(g.y), AxisOf(g.z))
  }

  /** The chunk and in-chunk conversions recombine to the world position
      exactly when it is non-negative or a multiple of the chunk size. */
  lemma RecombineIff(a: I32)
    ensures AxisOf(a) * CHUNK_SIZE + LocalCoords.AxisOf(a) == a <==> a >= 0 || a % CHUNK_SIZE == 0
  {
  }

  /** Below zero, off a chunk boundary, the chunk is one above the floored
      chunk, so recombining lands one chunk size too high: -1 goes to chunk
      0 at offset 31, and -33 to chunk -1 at offset 31. */
  lemma NegativeOffByOne(a: I32)
    requires a < 0 && a % CHUNK_SIZE != 0
    ensures AxisOf(a) == a / CHUNK_SIZE + 1
    ensures AxisOf(a) * CHUNK_SIZE + LocalCoords.AxisOf(a) == a + CHUNK_SIZE
  {
  }

  /** Truncating and floored division by the chunk size agree exactly on
      non-negative or divisible dividends; otherwise truncation is one more. */
  lemma TruncDivVersusFloor(a: int)
    ensures TruncDiv(a, CHUNK_SIZE) == a / CHUNK_SIZE <==> a >= 0 || a % CHUNK_SIZE == 0
    ensures a < 0 && a % CHUNK_SIZE != 0 ==> TruncDiv(a, CHUNK_SIZE) == a / CHUNK_SIZE + 1
  {
  }

  lemma ConversionExamples()
    ensures AxisOf(-1) == 0 && LocalCoords.AxisOf(-1) == 31
    ensures AxisOf(-33) == -1 && LocalCoords.AxisOf(-33) == 31
    ensures AxisOf(I32_MIN) == AXIS_MIN && AxisOf(I32_MAX) == AXIS_MAX
  {
  }

  /** The rendering identifies the chunk. */
  lemma DisplayInjective(a: ChunkCoord, b: ChunkCoord)
    ensures Display(a) == Display(b) <==> a == b
  {
    if Display(a) == Display(b) {
      Text.TripleInjective("ChunkCoord", a.x, a.y, a.z, b.x, b.y, b.z);
    }
  }
}

/** `LocalCoord`: the position of a voxel inside its chunk, three `u8`
    components, and its conversion from a `GlobalCoord`. Nothing in the type
    keeps a component below `CHUNK_SIZE`; only the conversion does.
    `LocalCoord::new(x, y, z)` is the datatype constructor. */
module LocalCoords {
  import opened Ints
  import opened WorldSize
  import opened GlobalCoords
  import Text

  datatype LocalCoord = LocalCoord(x: U8, y: U8, z: U8)

  /** Every component at `u8::MIN`. */
  const MIN: LocalCoord := LocalCoord(U8_MIN, U8_MIN, U8_MIN)

  /** Every component at `u8::MAX`: constructible, but outside any chunk. */
  const MAX: LocalCoord := LocalCoord(U8_MAX, U8_MAX, U8_MAX)

  /** The position addresses a voxel of a 32-cubed chunk. */
  predicate InChunk(p: LocalCoord)
  {
    p.x < CHUNK_SIZE && p.y < CHUNK_SIZE && p.z < CHUNK_SIZE
  }

  /** `Display`: `"LocalCoord (x, y, z)"`. */
  function Display(p: LocalCoord): string
  {
    Text.Triple("LocalCoord", p.x, p.y, p.z)
  }

  /** What converting one axis computes: the floored remainder of the world
      position by the chunk size, i.e. the offset from the chunk boundary at
      or below it. */
  function AxisOf(a: I32): (r: U8)
    ensures r < CHUNK_SIZE
    ensures (a - r) % CHUNK_SIZE == 0
  {
    a % CHUNK_SIZE
  }

  /** `LocalCoord::from(GlobalCoord)`: each axis converted on its own. */
  function FromGlobal(g: GlobalCoord): (p: LocalCoord)
    ensures InChunk(p)
  {
    LocalCoord(AxisOf(g.x), AxisOf(g.y), AxisOf(g.z))
  }

  /** The inner `convert` of `LocalCoord::from`: adds the chunk size while the
      position is negative, then takes Rust's `%`. The running value stays an
      `i32` (the addition happens only below zero), and the remainder fits a
      `u8`, so neither `unwrap` of the source can fail. */
  method ConvertAxis(axisPosition: I32) returns (r: U8)
    ensures r == AxisOf(axisPosition)
  {
    var chunkSize: I32 := CHUNK_SIZE;
    var position: I32 := axisPosition;
    while position < 0
      invariant axisPosition <= position
      invariant position % chunkSize == axisPosition % chunkSize
      decreases -(position as int)
    {
      position := position + chunkSize;
    }
    r := TruncRem(position, chunkSize);
  }

  /** `LocalCoord::from(GlobalCoord)` as the source runs it. */
  method From(g: GlobalCoord) returns (p: LocalCoord)
    ensures p == FromGlobal(g)
    ensures InChunk(p)
  {
    var x := ConvertAxis(g.x);
    var y := ConvertAxis(g.y);
    var z := ConvertAxis(g.z);
    p := LocalCoord(x, y, z);
  }

  /** `MIN` lies in every chunk, `MAX` in none. */
  lemma MinMaxInChunk()
    ensures InChunk(MIN) && !InChunk(MAX)
    ensures MAX == LocalCoord(255, 255, 255)
  {
  }

  /** The rendering identifies the position. */
  lemma DisplayInjective(a: LocalCoord, b: LocalCoord)
    ensures Display(a) == Display(b) <==> a == b
  {
    if Display(a) == Display(b) {
      Text.TripleInjective("LocalCoord", a.x, a.y, a.z, b.x, b.y, b.z);
    }
  }

  /** The conversion is the unique in-range offset: any `r` below the chunk
      size that differs from the position by a multiple of it is the result. */
  lemma AxisOfUnique(a: I32, r: int)
    requires 0 <= r < CHUNK_SIZE && (a - r) % CHUNK_SIZE == 0
    ensures AxisOf(a) == r
  {
  }
}

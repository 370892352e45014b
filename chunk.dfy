/** `Chunk`: a dense 32 x 32 x 32 block of voxels, allocated all-default and
    accessed with bounds checks. The three-dimensional array is kept as one
    flat array with the fixed linear index
    `(x * CHUNK_SIZE + y) * CHUNK_SIZE + z`. */
module Chunks {
  import opened WorldSize
  import opened LocalCoords
  import opened Voxels
  import opened Errors

  /** Flat position of an in-chunk voxel. */
  function Index(p: LocalCoord): (i: nat)
    requires InChunk(p)
    ensures i < CHUNK_VOLUME
  {
    (p.x * CHUNK_SIZE + p.y) * CHUNK_SIZE + p.z
  }

  /** The in-chunk position whose voxel sits at flat index `i`. */
  function PositionAt(i: nat): (p: LocalCoord)
    requires i < CHUNK_VOLUME
    ensures InChunk(p) && Index(p) == i
  {
    LocalCoord(i / (CHUNK_SIZE * CHUNK_SIZE), (i / CHUNK_SIZE) % CHUNK_SIZE, i % CHUNK_SIZE)
  }

  /** The linear index is a bijection between in-chunk positions and
      `[0, CHUNK_VOLUME)`: `PositionAt` undoes it. */
  lemma PositionAtIndex(p: LocalCoord)
    requires InChunk(p)
    ensures PositionAt(Index(p)) == p
  {
  }

  lemma IndexInjective(p: LocalCoord, q: LocalCoord)
    requires InChunk(p) && InChunk(q)
    ensures Index(p) == Index(q) <==> p == q
  {
  }

  /** The cells of a freshly allocated chunk: `CHUNK_VOLUME` default voxels. */
  function Fresh(): (cells: seq<Voxel>)
    ensures |cells| == CHUNK_VOLUME
    ensures forall i :: 0 <= i < |cells| ==> cells[i] == DEFAULT
  {
    seq(CHUNK_VOLUME, _ => DEFAULT)
  }

  /** `get_voxel` on chunk contents: the stored voxel when every component is
      below the chunk size, `VoxelNotFound` carrying the position otherwise. */
  function Lookup(cells: seq<Voxel>, p: LocalCoord): (r: Result<Voxel>)
    requires |cells| == CHUNK_VOLUME
    ensures r.Ok? <==> InChunk(p)
  {
    if InChunk(p) then Ok(cells[Index(p)]) else Err(VoxelNotFound(p))
  }

  /** `set_voxel` on chunk contents: the contents with one voxel replaced, or
      `OutOfBounds` carrying the position. */
  function Store(cells: seq<Voxel>, p: LocalCoord, v: Voxel): (r: Result<seq<Voxel>>)
    requires |cells| == CHUNK_VOLUME
    ensures r.Ok? <==> InChunk(p)
    ensures r.Ok? ==> |r.value| == CHUNK_VOLUME
  {
    if InChunk(p) then Ok(cells[Index(p) := v]) else Err(OutOfBounds(p))
  }

  /** After a successful store, reading the stored position gives the new
      voxel and reading any other position gives what it held before. */
  lemma LookupAfterStore(cells: seq<Voxel>, p: LocalCoord, v: Voxel, q: LocalCoord)
    requires |cells| == CHUNK_VOLUME && InChunk(p)
    ensures Lookup(Store(cells, p, v).value, q) == if q == p then Ok(v) else Lookup(cells, q)
  {
  }

  /** A successful store changes exactly one cell. */
  lemma StoreChangesOneCell(cells: seq<Voxel>, p: LocalCoord, v: Voxel, i: nat)
    requires |cells| == CHUNK_VOLUME && InChunk(p) && i < CHUNK_VOLUME
    ensures Store(cells, p, v).value[i] == if PositionAt(i) == p then v else cells[i]
  {
  }

  /** Failed accesses report the position and leave nothing changed; the
      out-of-range `LocalCoord::MAX` takes both error paths. */
  lemma OutOfRangeErrors(cells: seq<Voxel>, v: Voxel)
    requires |cells| == CHUNK_VOLUME
    ensures Lookup(cells, LocalCoords.MAX) == Err(VoxelNotFound(LocalCoords.MAX))
    ensures Store(cells, LocalCoords.MAX, v) == Err(OutOfBounds(LocalCoords.MAX))
  {
  }

  /** Every in-chunk position of a fresh chunk reads as the default voxel. */
  lemma FreshReadsDefault(p: LocalCoord)
    requires InChunk(p)
    ensures Lookup(Fresh(), p) == Ok(DEFAULT)
  {
  }

  class Chunk {
    /** The voxels; the array object is never replaced, only its cells. */
    const data: array<Voxel>

    ghost predicate Valid()
    {
      data.Length == CHUNK_VOLUME
    }

    /** The chunk's contents in flat-index order. */
    ghost function Cells(): (cells: seq<Voxel>)
      reads data
      ensures |cells| == data.Length
    {
      data[..]
    }

    /** `Chunk::new`: every one of the 32-cubed cells holds the default voxel. */
    constructor ()
      ensures Valid() && fresh(data)
      ensures Cells() == Fresh()
    {
      data := new Voxel[CHUNK_VOLUME](_ => DEFAULT);
    }

    /** `Chunk::get_voxel`: reads without changing the chunk. */
    method GetVoxel(p: LocalCoord) returns (r: Result<Voxel>)
      requires Valid()
      ensures r == Lookup(Cells(), p)
      ensures InChunk(p) ==> r == Ok(data[Index(p)])
      ensures !InChunk(p) ==> r == Err(VoxelNotFound(p))
    {
      if InChunk(p) {
        r := Ok(data[Index(p)]);
      } else {
        r := Err(VoxelNotFound(p));
      }
    }

    /** `Chunk::set_voxel`: overwrites one cell in place, or reports the
        position out of bounds and changes nothing. */
    method SetVoxel(p: LocalCoord, v: Voxel) returns (r: Result<()>)
      requires Valid()
      modifies data
      ensures Valid()
      ensures r == if InChunk(p) then Ok(()) else Err(OutOfBounds(p))
      ensures Store(old(Cells()), p, v) == if InChunk(p) then Ok(Cells()) else Err(OutOfBounds(p))
      ensures !InChunk(p) ==> Cells() == old(Cells())
    {
      if InChunk(p) {
        data[Index(p)] := v;
        r := Ok(());
      } else {
        r := Err(OutOfBounds(p));
      }
    }
  }
}

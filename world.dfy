/** `World`: the sparse store of chunks, keyed by chunk coordinate, with
    voxel access by world position. Chunks exist only once created or
    installed; nothing is created implicitly. The concurrent map of the
    source is a plain map field here. */
module Worlds {
  import opened WorldSize
  import opened GlobalCoords
  import opened ChunkCoords
  import opened LocalCoords
  import opened Voxels
  import opened Errors
  import opened Chunks

  /** Chunk contents by chunk coordinate: the abstract value of a world. */
  type Contents = map<ChunkCoord, seq<Voxel>>

  predicate WellFormed(m: Contents)
  {
    forall c :: c in m ==> |m[c]| == CHUNK_VOLUME
  }

  /** `World::get_voxel` on the abstract world: look the chunk up, then read
      the in-chunk position from it, passing its result through unchanged. */
  function GetAt(m: Contents, g: GlobalCoord): (r: Result<Voxel>)
    requires WellFormed(m)
    ensures r.Err? ==> r.error == ChunkNotFound(ChunkCoords.FromGlobal(g))
    ensures r.Ok? <==> ChunkCoords.FromGlobal(g) in m
  {
    var c := ChunkCoords.FromGlobal(g);
    if c in m then Lookup(m[c], LocalCoords.FromGlobal(g)) else Err(ChunkNotFound(c))
  }

  /** `World::set_voxel` on the abstract world: the new world, or the error. */
  function SetAt(m: Contents, g: GlobalCoord, v: Voxel): (r: Result<Contents>)
    requires WellFormed(m)
    ensures r.Err? ==> r.error == ChunkNotFound(ChunkCoords.FromGlobal(g))
    ensures r.Ok? <==> ChunkCoords.FromGlobal(g) in m
    ensures r.Ok? ==> WellFormed(r.value) && r.value.Keys == m.Keys
  {
    var c := ChunkCoords.FromGlobal(g);
    if c in m then
      match Store(m[c], LocalCoords.FromGlobal(g), v)
      case Ok(cells) => Ok(m[c := cells])
      case Err(e) => Err(e)
    else Err(ChunkNotFound(c))
  }

  /** Two world positions name the same voxel slot when both conversions agree. */
  predicate SameSlot(g: GlobalCoord, h: GlobalCoord)
  {
    ChunkCoords.FromGlobal(g) == ChunkCoords.FromGlobal(h) &&
    LocalCoords.FromGlobal(g) == LocalCoords.FromGlobal(h)
  }

  /** An empty world has no voxel anywhere and accepts no write. */
  lemma EmptyWorldFails(g: GlobalCoord, v: Voxel)
    ensures GetAt(map[], g) == Err(ChunkNotFound(ChunkCoords.FromGlobal(g)))
    ensures SetAt(map[], g, v) == Err(ChunkNotFound(ChunkCoords.FromGlobal(g)))
  {
  }

  /** After a successful write, the written slot reads back the new voxel and
      every other slot reads what it read before. */
  lemma GetAfterSet(m: Contents, g: GlobalCoord, v: Voxel, h: GlobalCoord)
    requires WellFormed(m) && ChunkCoords.FromGlobal(g) in m
    ensures GetAt(SetAt(m, g, v).value, h) == if SameSlot(g, h) then Ok(v) else GetAt(m, h)
  {
  }

  /** A successful write changes one voxel of one chunk: the set of chunks,
      every other chunk, and every other voxel of that chunk stay as they were. */
  lemma SetChangesOneVoxel(m: Contents, g: GlobalCoord, v: Voxel, c: ChunkCoord, i: nat)
    requires WellFormed(m) && ChunkCoords.FromGlobal(g) in m
    requires c in m && i < CHUNK_VOLUME
    ensures SetAt(m, g, v).value.Keys == m.Keys
    ensures SetAt(m, g, v).value[c][i] ==
      if c == ChunkCoords.FromGlobal(g) && PositionAt(i) == LocalCoords.FromGlobal(g) then v else m[c][i]
  {
  }

  /** Because chunk coordinates round toward zero while in-chunk offsets are
      floored, a position just below zero on an axis shares its slot with the
      position one chunk size above it: (-1, y, z) and (31, y, z) are both
      chunk 0, offset 31. Reads of the two always agree. */
  lemma NegativeAliasing(m: Contents, g: GlobalCoord)
    requires WellFormed(m)
    requires -(CHUNK_SIZE as int) < g.x < 0
    ensures SameSlot(g, g.(x := g.x + CHUNK_SIZE))
    ensures GetAt(m, g) == GetAt(m, g.(x := g.x + CHUNK_SIZE))
  {
  }

  class World {
    var data: map<ChunkCoord, Chunk>

    /** The arrays of all stored chunks. */
    ghost function Arrays(): set<array<Voxel>>
      reads this
    {
      set c | c in data :: data[c].data
    }

    /** Every stored chunk is 32-cubed, and no two keys share a chunk's
        storage (each chunk is owned by the map). */
    ghost predicate Valid()
      reads this
    {
      (forall c :: c in data ==> data[c].Valid()) &&
      (forall c, d :: c in data && d in data && c != d ==> data[c].data != data[d].data)
    }

    ghost function Contents(): (m: Contents)
      reads this, Arrays()
      ensures m.Keys == data.Keys
      ensures Valid() ==> WellFormed(m)
    {
      map c | c in data :: data[c].data[..]
    }

    /** `World::new`: no chunks. */
    constructor ()
      ensures Valid() && data == map[] && Contents() == map[]
    {
      data := map[];
    }

    /** `World::get_voxel`: reads without changing the world. */
    method GetVoxel(g: GlobalCoord) returns (r: Result<Voxel>)
      requires Valid()
      ensures r == GetAt(Contents(), g)
    {
      var chunkPosition := ChunkCoords.FromGlobal(g);
      var localPosition := LocalCoords.From(g);
      if chunkPosition in data {
        r := data[chunkPosition].GetVoxel(localPosition);
      } else {
        r := Err(ChunkNotFound(chunkPosition));
      }
    }

    /** `World::set_voxel`: writes into the stored chunk in place; an absent
        chunk is reported, never created. */
    method SetVoxel(g: GlobalCoord, v: Voxel) returns (r: Result<()>)
      requires Valid()
      modifies Arrays()
      ensures Valid() && data == old(data)
      ensures match SetAt(old(Contents()), g, v)
        case Ok(m) => r == Ok(()) && Contents() == m
        case Err(e) => r == Err(e) && Contents() == old(Contents())
    {
      var chunkPosition := ChunkCoords.FromGlobal(g);
      var localPosition := LocalCoords.From(g);
      if chunkPosition in data {
        var chunk := data[chunkPosition];
        ghost var before := Contents();
        r := chunk.SetVoxel(localPosition, v);
        forall c | c in data && c != chunkPosition
          ensures data[c].data[..] == before[c]
        {
          assert data[c].data != chunk.data;
        }
        assert Contents() == before[chunkPosition := chunk.data[..]];
      } else {
        r := Err(ChunkNotFound(chunkPosition));
      }
    }

    /** `World::set_chunk`: installs `chunk` at `c`, replacing any chunk there.
        The chunk is moved in, so its storage is not held under another key. */
    method SetChunk(c: ChunkCoord, chunk: Chunk)
      requires Valid() && chunk.Valid()
      requires forall d :: d in data && d != c ==> data[d].data != chunk.data
      modifies this
      ensures Valid() && data == old(data)[c := chunk]
      ensures Contents() == old(Contents())[c := chunk.Cells()]
    {
      data := data[c := chunk];
    }

    /** `World::create_chunk`: installs a fresh all-default chunk at `c`,
        replacing any chunk there. */
    method CreateChunk(c: ChunkCoord)
      requires Valid()
      modifies this
      ensures Valid() && c in data && fresh(data[c].data)
      ensures data == old(data)[c := data[c]]
      ensures Contents() == old(Contents())[c := Fresh()]
    {
      var chunk := new Chunk();
      SetChunk(c, chunk);
    }
  }
}

/** The world's unit tests, restated as client code whose outcome is proved
    from the `World` contracts alone. */
module WorldScenarios {
  import opened GlobalCoords
  import opened ChunkCoords
  import opened Voxels
  import opened Errors
  import opened Chunks
  import opened Worlds

  /** `get_voxel_empty_world`: every read of a new world fails. */
  method GetVoxelEmptyWorld(g: GlobalCoord) returns (r: Result<Voxel>)
    ensures r == Err(ChunkNotFound(ChunkCoords.FromGlobal(g)))
  {
    var world := new World();
    r := world.GetVoxel(g);
  }

  /** `set_voxel_empty_world`: every write to a new world fails and creates
      nothing. */
  method SetVoxelEmptyWorld(g: GlobalCoord, v: Voxel) returns (r: Result<()>, chunks: nat)
    ensures r == Err(ChunkNotFound(ChunkCoords.FromGlobal(g)))
    ensures chunks == 0
  {
    var world := new World();
    r := world.SetVoxel(g, v);
    chunks := |world.data|;
  }

  /** `create_chunk_at`: after creating a chunk at `c`, `c` holds a chunk. */
  method CreateChunkAt(c: ChunkCoord) returns (present: bool)
    ensures present
  {
    var world := new World();
    world.CreateChunk(c);
    present := c in world.data;
  }

  /** `get_existing_voxel`: with the chunk of the origin created, (1, 5, 3)
      reads as the default voxel. */
  method GetExistingVoxel() returns (r: Result<Voxel>)
    ensures r == Ok(DEFAULT)
  {
    var world := new World();
    world.CreateChunk(ChunkCoords.FromGlobal(GlobalCoord(0, 0, 0)));
    r := world.GetVoxel(GlobalCoord(1, 5, 3));
    FreshReadsDefault(LocalCoords.FromGlobal(GlobalCoord(1, 5, 3)));
  }

  /** `set_then_get_voxel`: with the chunk of the origin created, a voxel
      written at (1, 5, 3) reads back. */
  method SetThenGetVoxel(v: Voxel) returns (w: Result<()>, r: Result<Voxel>)
    ensures w == Ok(()) && r == Ok(v)
  {
    var world := new World();
    var g := GlobalCoord(1, 5, 3);
    world.CreateChunk(ChunkCoords.FromGlobal(GlobalCoord(0, 0, 0)));
    ghost var before := world.Contents();
    w := world.SetVoxel(g, v);
    r := world.GetVoxel(g);
    GetAfterSet(before, g, v, g);
  }
}

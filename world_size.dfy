/** `World::CHUNK_SIZE`, the edge length of a chunk in voxels, and the number
    of voxels a chunk holds. It sits in a module of its own because both the
    coordinate conversions and the storage use it. */
module WorldSize {
  import opened Ints

  const CHUNK_SIZE: U8 := 32

  /** Voxels per chunk: CHUNK_SIZE cubed. */
  const CHUNK_VOLUME: nat := CHUNK_SIZE * CHUNK_SIZE * CHUNK_SIZE
}

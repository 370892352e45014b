/** The error carriers the storage returns, and the result type of its
    fallible operations (standing in for `Result<_, Box<dyn Error>>`). */
module Errors {
  import opened ChunkCoords
  import opened LocalCoords

  datatype Error =
    | ChunkNotFound(chunk: ChunkCoord)       // `ChunkNotFoundError`
    | VoxelNotFound(local: LocalCoord)       // `VoxelNotFoundError`
    | OutOfBounds(local: LocalCoord)         // `WrappedPositionOutOfBoundsError`

  datatype Result<+T> = Ok(value: T) | Err(error: Error)
}

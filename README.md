# Voxel world storage and addressing, in Dafny

This project models the storage core of the `argentum_game_world_data` crate. The crate keeps the voxels of an unbounded 3-D world. A world position (`GlobalCoord`, three `i32`) is split into two parts:

- the chunk it falls in (`ChunkCoord`, three `i32`);
- its offset inside that chunk (`LocalCoord`, three `u8`).

A `World` maps chunk coordinates to `Chunk`s. A `Chunk` is a dense 32 x 32 x 32 array of one-byte `Voxel`s. Voxel reads and writes go through the world by world position. A chunk exists only after `create_chunk` or `set_chunk`. Nothing is created implicitly. Both installers are private to the crate (`src/world_data.rs:54`, `:60`), and `src/lib.rs` re-exports only `World` and `GlobalCoord`. So for code outside the crate, every `get_voxel` and `set_voxel` ends in `ChunkNotFoundError`. Dafny modules here cannot express that visibility, so the model exposes both installers.

Modules, one per source file:

- `Ints`: `i32`/`u8` and Rust's truncating `/` and `%`.
- `Text`: Rust's integer `Display` and the `"<Kind> (x, y, z)"` layout.
- `WorldSize`: `World::CHUNK_SIZE`. It is kept apart from `Worlds` so that the coordinate modules can import it without an import cycle.
- `GlobalCoords`, `LocalCoords`, `ChunkCoords`, `Voxels`: the value types.
- `Errors`: the three error carriers and a `Result` type.
- `Chunks`: the `Chunk` class.
- `Worlds`: the `World` class.
- `WorldScenarios`: the crate's unit tests written as client methods.

Each `new(x, y, z)` constructor is the datatype constructor. Each derived `PartialEq`/`Eq`/`Hash`/`Clone` is Dafny's structural value equality. `Voxel::new(t)` is `Voxel(t)`, and the derived `Default` is `Voxels.DEFAULT`, which is `Voxel(0)`.

Both `Chunk` and `World` are classes. A chunk keeps its voxels in one flat array with the index `(x * 32 + y) * 32 + z`, and the model proves this index is a bijection. `Chunk.set_voxel` writes that array in place. A world keeps a `map<ChunkCoord, Chunk>` field. `World.Valid()` requires that no two keys share a chunk's array, which models Rust's ownership of the chunks. Each class has a ghost abstract value: `Chunk.Cells()` for a chunk and `World.Contents()` for a world. Every method is tied to a pure function on that value:

- `Lookup` and `Store` for a chunk;
- `GetAt` and `SetAt` for a world.

The lemmas state the properties of these functions.

**Rounding of negative positions.** `ChunkCoord::from` divides with Rust's `/`, which rounds toward zero. `LocalCoord::from` normalises negatives into `[0, 32)`, which is the floored remainder. The model keeps both as written. For a negative axis value that is not a multiple of 32, the two results do not recombine to the world position:

- `ChunkCoords.RecombineIff` proves exactly when they recombine.
- `ChunkCoords.NegativeOffByOne` proves that the chunk is then one above the floored chunk.
- `Worlds.NegativeAliasing` proves the visible consequence. World positions -1 and 31 on an axis address the same voxel, namely chunk 0 at offset 31. For example, writing at (-1, 0, 0) is seen when reading (31, 0, 0).

Floored division would make the two conversions recombine for every position. The code truncates, and this model follows the code.

In `src/coordinates/local.rs`, the test named `display` (lines 116-121) checks `GlobalCoord`'s rendering, not `LocalCoord`'s. `LocalCoord`'s format comes from lines 35-39.

## Model

| member | source | states |
|---|---|---|
| `Ints.TruncDiv` | src/coordinates/chunk.rs:43 | Rust's `i32` division by a positive divisor: the magnitude of the quotient is the floored quotient of the magnitudes, and a non-zero quotient has the dividend's sign |
| `Ints.TruncRem` | src/coordinates/local.rs:50 | Rust's `%` by a positive divisor equals the floored remainder on a non-negative dividend, which is the only case the conversion uses |
| `Text.DecimalRoundTrip` | src/coordinates/global.rs:32-36 | the decimal digits of a natural number read back as that number |
| `Text.IntDecimalRoundTrip` | src/coordinates/global.rs:32-36 | Rust's rendering of a signed integer (minus sign, then digits) reads back as that integer |
| `Text.TripleInjective` | src/coordinates/global.rs:32-36 | two `"<Kind> (x, y, z)"` renderings of one kind are equal only if all three components are equal |
| `GlobalCoords.Display` | src/coordinates/global.rs:32-36 | renders `"GlobalCoord (x, y, z)"` |
| `GlobalCoords.DisplayExample` | src/coordinates/global.rs:78-83 | `{1, 2, 3}` renders as `"GlobalCoord (1, 2, 3)"` |
| `GlobalCoords.DisplayInjective` | src/coordinates/global.rs:32-36 | two global positions render alike if and only if they are equal |
| `GlobalCoords.MinMaxBound` | src/coordinates/global.rs:6-25 | `MIN` is all `i32::MIN`, `MAX` is all `i32::MAX`, and every position lies between them component-wise |
| `LocalCoords.Display` | src/coordinates/local.rs:35-39 | renders `"LocalCoord (x, y, z)"` |
| `LocalCoords.DisplayInjective` | src/coordinates/local.rs:35-39 | two local positions render alike if and only if they are equal |
| `LocalCoords.MinMaxInChunk` | src/coordinates/local.rs:19-28 | `MIN` = (0,0,0) lies inside a chunk; `MAX` = (255,255,255) is a valid `LocalCoord` but not an in-chunk position |
| `LocalCoords.AxisOf` | src/coordinates/local.rs:43-51 | the converted axis is below `CHUNK_SIZE` and differs from the world value by a multiple of it (the floored remainder) |
| `LocalCoords.AxisOfUnique` | src/coordinates/local.rs:46-50 | any value in `[0, 32)` congruent to the world value modulo 32 is the converted axis |
| `LocalCoords.ConvertAxis` | src/coordinates/local.rs:43-51 | the add-32-while-negative loop terminates, never leaves `i32`, and returns the floored remainder `a % 32`, which fits a `u8` |
| `LocalCoords.FromGlobal` | src/coordinates/local.rs:53-57 | each axis is converted independently, and every converted component is below `CHUNK_SIZE`, as the quickcheck at lines 101-114 checks |
| `LocalCoords.From` | src/coordinates/local.rs:41-58 | running the three loops gives `FromGlobal(g)`, an in-chunk position |
| `ChunkCoords.Display` | src/coordinates/chunk.rs:33-37 | renders `"ChunkCoord (x, y, z)"` |
| `ChunkCoords.DisplayInjective` | src/coordinates/chunk.rs:33-37 | two chunk coordinates render alike if and only if they are equal |
| `ChunkCoords.AxisOf` | src/coordinates/chunk.rs:41-46 | the truncated quotient by 32 has magnitude at most 1/32 of the input's, so it lies in [-67108864, 67108863] and always fits `i32` |
| `ChunkCoords.FromGlobal` | src/coordinates/chunk.rs:39-54 | each axis is converted independently; every component of the derived map key lies in [-67108864, 67108863] and has at most 1/32 of the magnitude of the world component |
| `ChunkCoords.TruncDivVersusFloor` | src/coordinates/chunk.rs:43 | truncating division by 32 equals floored division if and only if the dividend is non-negative or a multiple of 32; otherwise it is one more |
| `ChunkCoords.RecombineIff` | src/coordinates/chunk.rs:41-46 | `chunk * 32 + local == a` holds if and only if `a >= 0` or `a` is a multiple of 32 |
| `ChunkCoords.NegativeOffByOne` | src/coordinates/chunk.rs:43 | for negative `a` off a chunk boundary, the chunk is `floor(a/32) + 1` and recombining gives `a + 32` |
| `ChunkCoords.ConversionExamples` | src/coordinates/chunk.rs:41-46 | -1 maps to chunk 0 at offset 31, -33 to chunk -1 at offset 31, and the `i32` extremes map to the ends of the chunk range |
| `Chunks.Index` | src/world_data/chunk.rs:27-30 | every in-chunk position has a flat index below 32768 |
| `Chunks.PositionAt` | src/world_data/chunk.rs:27-30 | every flat index below 32768 is the index of an in-chunk position |
| `Chunks.PositionAtIndex` | src/world_data/chunk.rs:27-30 | `PositionAt` undoes `Index` |
| `Chunks.IndexInjective` | src/world_data/chunk.rs:27-30 | two in-chunk positions share a cell if and only if they are equal |
| `Chunks.Fresh` | src/world_data/chunk.rs:19-23 | a new chunk holds exactly 32768 cells, each the default voxel |
| `Chunks.Lookup` | src/world_data/chunk.rs:25-34 | a read succeeds if and only if every component is below 32 |
| `Chunks.Store` | src/world_data/chunk.rs:36-51 | a write succeeds if and only if every component is below 32, and keeps the chunk at 32768 cells |
| `Chunks.LookupAfterStore` | src/world_data/chunk.rs:25-51 | after a write at `p`, reading `p` gives the written voxel, and reading any other position gives what it gave before |
| `Chunks.StoreChangesOneCell` | src/world_data/chunk.rs:45-49 | a write changes the one cell whose position is `p` and no other |
| `Chunks.OutOfRangeErrors` | src/world_data/chunk.rs:30-48 | reading `LocalCoord::MAX` gives `VoxelNotFound(MAX)`, and writing it gives `OutOfBounds(MAX)` |
| `Chunks.FreshReadsDefault` | src/world_data/chunk.rs:19-23 | every in-chunk position of a new chunk reads as the default voxel |
| `Chunks.Chunk.constructor` | src/world_data/chunk.rs:19-23 | a new chunk owns a fresh array equal to 32768 default voxels, matching the `new_chunk` test at lines 58-66 |
| `Chunks.Chunk.GetVoxel` | src/world_data/chunk.rs:25-34 | returns the stored voxel at an in-chunk position and `VoxelNotFound(p)` otherwise, without changing the chunk |
| `Chunks.Chunk.SetVoxel` | src/world_data/chunk.rs:36-51 | in range, it overwrites exactly that cell in place and returns `Ok`; out of range, it returns `OutOfBounds(p)` and leaves the array unchanged; the chunk stays 32768 cells |
| `Worlds.GetAt` | src/world_data.rs:28-36 | a read succeeds if and only if the chunk of `ChunkCoord::from(g)` is stored, and every failure is `ChunkNotFound` carrying that coordinate, so the chunk's own out-of-range error never surfaces |
| `Worlds.SetAt` | src/world_data.rs:38-52 | a write succeeds if and only if the chunk is stored; it then keeps the set of chunks and the 32768-cell size; every failure is `ChunkNotFound` |
| `Worlds.EmptyWorldFails` | src/world_data.rs:93-118 | on an empty world, every read and every write fails with `ChunkNotFound(ChunkCoord::from(g))` |
| `Worlds.GetAfterSet` | src/world_data.rs:28-52 | after a successful write at `g`, a read at `h` gives the written voxel if `h` names the same chunk and offset, and the old read otherwise |
| `Worlds.SetChangesOneVoxel` | src/world_data.rs:43-47 | a successful write keeps the key set and changes only the cell at `LocalCoord::from(g)` of the chunk at `ChunkCoord::from(g)` |
| `Worlds.NegativeAliasing` | src/world_data.rs:29-30 | world positions `a` in (-32, 0) and `a + 32` on the x axis name the same chunk and offset, so they read the same |
| `Worlds.World.constructor` | src/world_data.rs:22-26 | a new world holds no chunks |
| `Worlds.World.GetVoxel` | src/world_data.rs:28-36 | returns `GetAt` of the current contents: `ChunkNotFound` for an absent chunk, else the chunk's read result passed through unchanged |
| `Worlds.World.SetVoxel` | src/world_data.rs:38-52 | on an absent chunk, it returns `ChunkNotFound` and changes nothing; otherwise the new contents are `SetAt` of the old contents, and the map itself is untouched |
| `Worlds.World.SetChunk` | src/world_data.rs:60-62 | the map becomes the old map with `c` bound to the given chunk, overwriting any chunk there; other entries are unchanged |
| `Worlds.World.CreateChunk` | src/world_data.rs:54-58 | `c` is bound to a fresh all-default chunk, overwriting any chunk there; other entries are unchanged |
| `WorldScenarios.GetVoxelEmptyWorld` | src/world_data.rs:93-99 | reading any position of a new world fails with `ChunkNotFound` |
| `WorldScenarios.SetVoxelEmptyWorld` | src/world_data.rs:111-118 | writing any position of a new world fails with `ChunkNotFound` and creates no chunk |
| `WorldScenarios.CreateChunkAt` | src/world_data.rs:72-80 | after `create_chunk(c)`, `c` holds a chunk |
| `WorldScenarios.GetExistingVoxel` | src/world_data.rs:101-109 | with the origin's chunk created, (1, 5, 3) reads as the default voxel |
| `WorldScenarios.SetThenGetVoxel` | src/world_data.rs:120-129 | with the origin's chunk created, writing `v` at (1, 5, 3) succeeds and reading it back returns `v` |

## Left out

- The concurrent `DashMap`, meaning its sharding, locking and creation races. A world is a single-threaded object with a plain `map` field.
- The message texts of `ChunkNotFoundError`, `VoxelNotFoundError` and `WrappedPositionOutOfBoundsError`. They are constructors of the `Error` datatype. `Box<dyn Error>` and `?` become the `Result` datatype.
- The `usize` conversions in `Chunk`. They cannot fail from `u8`, so they are the identity here, and the platform-width concern in one message does not arise.
- `ndarray`'s memory layout. A flat array with a fixed linear index stands in for `Array3`.
- `src/coordinates/local_coords.rs`. It is not a declared module and it does not compile, and its conversion is the one in `local.rs`.
- The `Voxel` type of the external `argentum_game_voxel` crate. It is taken to be the `Voxel(u8)` of `src/world_data/voxel.rs`. The `crate::errors` module is not part of this model.
- Terrain generation. `create_chunk` only marks where generation would be called.
- `Worlds.World.SetChunk`: it requires that the incoming chunk's array is not stored under another key. In Rust this is guaranteed by moving the chunk in.

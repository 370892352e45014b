/** `Voxel`: the one-byte type identifier stored per cell.
    `Voxel::new(t)` is the datatype constructor `Voxel(t)`; the derived
    `PartialEq` and `Clone` are Dafny's value equality and copying. */
module Voxels {
  import opened Ints

  datatype Voxel = Voxel(id: U8)

  /** The derived `Default`: the zero ("empty") voxel. */
  const DEFAULT: Voxel := Voxel(0)
}

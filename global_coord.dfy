/** `GlobalCoord`: the absolute position of one voxel in the world, three
    `i32` components. `GlobalCoord::new(x, y, z)` is the datatype constructor
    and the derived `PartialEq` is Dafny's structural equality. */
module GlobalCoords {
  import opened Ints
  import Text

  datatype GlobalCoord = GlobalCoord(x: I32, y: I32, z: I32)

  /** Every component at `i32::MIN`. */
  const MIN: GlobalCoord := GlobalCoord(I32_MIN, I32_MIN, I32_MIN)

  /** Every component at `i32::MAX`. */
  const MAX: GlobalCoord := GlobalCoord(I32_MAX, I32_MAX, I32_MAX)

  /** `Display`: `"GlobalCoord (x, y, z)"`. */
  function Display(g: GlobalCoord): string
  {
    Text.Triple("GlobalCoord", g.x, g.y, g.z)
  }

  /** `MIN` and `MAX` bound every position component-wise. */
  lemma MinMaxBound(g: GlobalCoord)
    ensures MIN.x <= g.x <= MAX.x && MIN.y <= g.y <= MAX.y && MIN.z <= g.z <= MAX.z
    ensures MIN.x == -0x8000_0000 && MAX.x == 0x7FFF_FFFF
  {
  }

  /** The rendering of `{1, 2, 3}`. */
  lemma DisplayExample()
    ensures Display(GlobalCoord(1, 2, 3)) == "GlobalCoord (1, 2, 3)"
  {
  }

  /** The rendering identifies the position. */
  lemma DisplayInjective(a: GlobalCoord, b: GlobalCoord)
    ensures Display(a) == Display(b) <==> a == b
  {
    if Display(a) == Display(b) {
      Text.TripleInjective("GlobalCoord", a.x, a.y, a.z, b.x, b.y, b.z);
    }
  }
}

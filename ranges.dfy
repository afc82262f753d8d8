/** `hac::Range`: the three-dimensional workgroup count of a dispatch (src/lib.rs). */
module Ranges {
  import opened Common

  datatype Range = Range(x: u32, y: u32, z: u32)

  /** `Range::new`: a range with exactly the given extents. */
  function New(x: u32, y: u32, z: u32): (r: Range)
    ensures r.x == x && r.y == y && r.z == z
  {
    Range(x, y, z)
  }

  /** `Range::d1`: a one-dimensional range; y and z are 1. */
  function D1(x: u32): (r: Range)
    ensures r.x == x && r.y == 1 && r.z == 1
  {
    New(x, 1, 1)
  }

  /** `Range::d2`: a two-dimensional range; z is 1. */
  function D2(x: u32, y: u32): (r: Range)
    ensures r.x == x && r.y == y && r.z == 1
  {
    New(x, y, 1)
  }

  /** `Range::d3`: the same range as `Range::new`. */
  function D3(x: u32, y: u32, z: u32): (r: Range)
    ensures r.x == x && r.y == y && r.z == z
  {
    New(x, y, z)
  }

  /** The lower-dimensional constructors are `new` with the missing extents set to 1. */
  lemma ConstructorsAgree(x: u32, y: u32, z: u32)
    ensures D1(x) == D2(x, 1) == D3(x, 1, 1) == New(x, 1, 1)
    ensures D2(x, y) == D3(x, y, 1) == New(x, y, 1)
    ensures D3(x, y, z) == New(x, y, z)
  {
  }
}

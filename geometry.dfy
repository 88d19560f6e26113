/**
 * Integer voxel vectors, floating-point world positions and inclusive
 * integer boxes (the engine's Vector3i, Vector3f and Region3i), together
 * with an enumeration of the positions of a box.
 */
module Geometry {

  /** An integer voxel position or integer vector (Vector3i). */
  datatype Vec3 = Vec3(x: int, y: int, z: int)
  {
    function Plus(o: Vec3): Vec3 { Vec3(x + o.x, y + o.y, z + o.z) }
    function Minus(o: Vec3): Vec3 { Vec3(x - o.x, y - o.y, z - o.z) }
  }

  /** A floating-point world position (Vector3f); only stored and compared here. */
  datatype Vec3f = Vec3f(x: real, y: real, z: real)

  /** An axis-aligned box whose minimum and maximum corners both belong to it. */
  datatype Box = Box(min: Vec3, max: Vec3)
  {
    predicate Encompasses(p: Vec3)
    {
      min.x <= p.x <= max.x && min.y <= p.y <= max.y && min.z <= p.z <= max.z
    }
  }

  /** The box reaching `extents` away from `center` on each axis (empty on an axis with a negative extent). */
  function FromCenterExtents(center: Vec3, extents: Vec3): Box
  {
    Box(center.Minus(extents), center.Plus(extents))
  }

  /** The integers from lo to hi inclusive, ascending. */
  function Range(lo: int, hi: int): (r: seq<int>)
    ensures forall k :: k in r <==> lo <= k <= hi
    decreases hi - lo
  {
    if lo > hi then [] else [lo] + Range(lo + 1, hi)
  }

  function Column(x: int, y: int, zs: seq<int>): (r: seq<Vec3>)
    ensures forall p :: p in r <==> p.x == x && p.y == y && p.z in zs
  {
    if zs == [] then []
    else
      assert forall z :: z in zs <==> z == zs[0] || z in zs[1..];
      [Vec3(x, y, zs[0])] + Column(x, y, zs[1..])
  }

  function Slice(x: int, ys: seq<int>, zs: seq<int>): (r: seq<Vec3>)
    ensures forall p :: p in r <==> p.x == x && p.y in ys && p.z in zs
  {
    if ys == [] then []
    else
      assert forall y :: y in ys <==> y == ys[0] || y in ys[1..];
      Column(x, ys[0], zs) + Slice(x, ys[1..], zs)
  }

  function Grid(xs: seq<int>, ys: seq<int>, zs: seq<int>): (r: seq<Vec3>)
    ensures forall p :: p in r <==> p.x in xs && p.y in ys && p.z in zs
  {
    if xs == [] then []
    else
      assert forall x :: x in xs <==> x == xs[0] || x in xs[1..];
      Slice(xs[0], ys, zs) + Grid(xs[1..], ys, zs)
  }

  /**
   * The positions of a box in one fixed iteration order. The engine's own
   * iteration order of a box is not part of this model; every use below
   * relies only on which positions are listed.
   */
  function Positions(b: Box): (ps: seq<Vec3>)
    ensures forall p :: p in ps <==> b.Encompasses(p)
  {
    Grid(Range(b.min.x, b.max.x), Range(b.min.y, b.max.y), Range(b.min.z, b.max.z))
  }
}

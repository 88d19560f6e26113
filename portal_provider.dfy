/**
 * Placement of portals during world generation: scan the facet's world
 * region and place one portal at the first position that lies on the rounded
 * surface height, whose seeded noise value is above the threshold, and that
 * leaves a margin before the region's upper corner; then stop.
 *
 * The surface height and the noise are parameters: `height(x, z)` is the
 * surface height facet's value and `sample(seed, x, y, z)` is the value of
 * the white noise built from `seed`.
 */
module Placement {
  import opened Geometry
  import opened Wrappers

  /** A placed portal; its fields are not part of this model. */
  datatype Portal = DefaultPortal

  /** The facet the provider produces: its world region and its sparse portal entries. */
  datatype PortalFacet = PortalFacet(worldRegion: Box, entries: map<Vec3, Portal>)

  /** The white-noise generator, identified by its seed. */
  datatype WhiteNoise = WhiteNoise(seed: int)

  const NoiseThreshold: real := 0.9993
  const EdgeMargin: int := 8

  /** Java's Math.round on a float: the floor of the value plus one half. */
  function JavaRound(h: real): int
  {
    (h + 0.5).Floor
  }

  /** Java's (int) cast of a float: truncation toward zero. */
  function JavaTruncate(h: real): int
  {
    if h >= 0.0 then h.Floor else -((-h).Floor)
  }

  /** The acceptance test of the scan, as written (the z coordinate is compared against the region's maximum y). */
  predicate Qualifies(seed: int, height: (int, int) -> real, sample: (int, int, int, int) -> real, worldRegion: Box, pos: Vec3)
  {
    && pos.y == JavaRound(height(pos.x, pos.z))
    && sample(seed, pos.x, pos.y, pos.z) > NoiseThreshold
    && pos.x < worldRegion.max.x - EdgeMargin
    && pos.z < worldRegion.max.y - EdgeMargin
  }

  /** The first index at or after `from` whose position qualifies, if any. */
  function FirstQualifying(seed: int, height: (int, int) -> real, sample: (int, int, int, int) -> real,
                           worldRegion: Box, scan: seq<Vec3>, from: nat): (r: Option<nat>)
    requires from <= |scan|
    ensures r.Some? ==>
      && from <= r.value < |scan|
      && Qualifies(seed, height, sample, worldRegion, scan[r.value])
      && forall k :: from <= k < r.value ==> !Qualifies(seed, height, sample, worldRegion, scan[k])
    ensures r.None? ==> forall k :: from <= k < |scan| ==> !Qualifies(seed, height, sample, worldRegion, scan[k])
    decreases |scan| - from
  {
    if from == |scan| then None
    else if Qualifies(seed, height, sample, worldRegion, scan[from]) then Some(from)
    else FirstQualifying(seed, height, sample, worldRegion, scan, from + 1)
  }

  /** Where a portal accepted at `pos` is stored: the y is the truncated height, not the rounded one the scan compares against. */
  function PlacedAt(height: (int, int) -> real, pos: Vec3): Vec3
  {
    Vec3(pos.x, JavaTruncate(height(pos.x, pos.z)), pos.z)
  }

  /** The facet the scan produces. */
  function Plan(seed: int, height: (int, int) -> real, sample: (int, int, int, int) -> real,
                worldRegion: Box, scan: seq<Vec3>): (f: PortalFacet)
    ensures f.worldRegion == worldRegion
    ensures |f.entries| <= 1
    ensures f.entries == map[] <==>
      forall k :: 0 <= k < |scan| ==> !Qualifies(seed, height, sample, worldRegion, scan[k])
    ensures forall p :: p in f.entries ==>
      exists i :: 0 <= i < |scan|
        && Qualifies(seed, height, sample, worldRegion, scan[i])
        && (forall k :: 0 <= k < i ==> !Qualifies(seed, height, sample, worldRegion, scan[k]))
        && p == PlacedAt(height, scan[i])
  {
    match FirstQualifying(seed, height, sample, worldRegion, scan, 0)
    case None => PortalFacet(worldRegion, map[])
    case Some(i) =>
      assert PlacedAt(height, scan[i]) in map[PlacedAt(height, scan[i]) := DefaultPortal];
      PortalFacet(worldRegion, map[PlacedAt(height, scan[i]) := DefaultPortal])
  }

  /** Whether `scan` lists exactly the positions of `region`. */
  ghost predicate ScansRegion(scan: seq<Vec3>, region: Box)
  {
    && (forall i :: 0 <= i < |scan| ==> region.Encompasses(scan[i]))
    && (forall p :: region.Encompasses(p) ==> p in scan)
  }

  /**
   * A placed portal lies in the scanned region horizontally, at least the
   * margin away from the region's maximum x and from its maximum y (sic, for
   * z), its scanned position's noise is above the threshold, and that
   * position's y is the rounded surface height.
   */
  lemma PlacedPortalSatisfiesTest(seed: int, height: (int, int) -> real, sample: (int, int, int, int) -> real,
                                  worldRegion: Box, scan: seq<Vec3>, p: Vec3)
    requires ScansRegion(scan, worldRegion)
    requires p in Plan(seed, height, sample, worldRegion, scan).entries
    ensures worldRegion.min.x <= p.x < worldRegion.max.x - EdgeMargin
    ensures worldRegion.min.z <= p.z < worldRegion.max.y - EdgeMargin
    ensures sample(seed, p.x, JavaRound(height(p.x, p.z)), p.z) > NoiseThreshold
    ensures p.y == JavaTruncate(height(p.x, p.z))
  {
    var i :| 0 <= i < |scan|
      && Qualifies(seed, height, sample, worldRegion, scan[i])
      && p == PlacedAt(height, scan[i]);
    assert worldRegion.Encompasses(scan[i]);
  }

  /**
   * The stored y equals the compared y exactly when truncation and rounding
   * agree: for a non-negative height when its fraction is below one half, for
   * a negative height when it is whole or its fraction is at least one half.
   */
  lemma {:induction false} TruncationVersusRounding(h: real)
    ensures JavaTruncate(h) - JavaRound(h) in {-1, 0, 1}
    ensures h >= 0.0 ==> (JavaTruncate(h) == JavaRound(h) <==> h - h.Floor as real < 0.5)
    ensures h < 0.0 ==> (JavaTruncate(h) == JavaRound(h) <==> h == h.Floor as real || h - h.Floor as real >= 0.5)
  {
    var f := h.Floor;
    assert f as real <= h < f as real + 1.0;
    if h < 0.0 {
      var g := (-h).Floor;
      assert g as real <= -h < g as real + 1.0;
      if h == f as real {
        assert g == -f;
      } else {
        assert g == -f - 1;
      }
    }
    if h - f as real < 0.5 {
      assert (h + 0.5).Floor == f;
    } else {
      assert (h + 0.5).Floor == f + 1;
    }
  }

  /** A surface point at height 64.5 is accepted at y 65 but its portal is stored at y 64. */
  lemma StoredHeightCanDifferFromComparedHeight()
    ensures JavaRound(64.5) == 65 && JavaTruncate(64.5) == 64
  {
    TruncationVersusRounding(64.5);
    assert (64.5).Floor == 64;
    assert (65.0).Floor == 65;
  }

  /** The facet provider: its noise is set by SetSeed before generation. */
  class PortalProvider {
    var noise: Option<WhiteNoise>

    constructor ()
      ensures noise == None
    {
      noise := None;
    }

    method SetSeed(seed: int)
      modifies this
      ensures noise == Some(WhiteNoise(seed))
    {
      noise := Some(WhiteNoise(seed));
    }

    /**
     * Produces the portal facet of one generating region, whose facet world
     * region is `worldRegion` and whose positions are visited in the order
     * `scan`. The facet is returned whether or not a portal was placed.
     */
    method Process(height: (int, int) -> real, sample: (int, int, int, int) -> real, worldRegion: Box, scan: seq<Vec3>)
      returns (facet: PortalFacet)
      requires noise.Some?
      requires ScansRegion(scan, worldRegion)
      ensures facet == Plan(noise.value.seed, height, sample, worldRegion, scan)
    {
      var seed := noise.value.seed;
      facet := PortalFacet(worldRegion, map[]);
      var i := 0;
      while i < |scan|
        invariant 0 <= i <= |scan|
        invariant facet == PortalFacet(worldRegion, map[])
        invariant FirstQualifying(seed, height, sample, worldRegion, scan, 0)
               == FirstQualifying(seed, height, sample, worldRegion, scan, i)
        decreases |scan| - i
      {
        var pos := scan[i];
        var sHeight := height(pos.x, pos.z);
        var noiseValue := sample(seed, pos.x, pos.y, pos.z);
        if pos.y == JavaRound(sHeight) && noiseValue > NoiseThreshold
           && pos.x < worldRegion.max.x - EdgeMargin && pos.z < worldRegion.max.y - EdgeMargin {
          facet := facet.(entries := facet.entries[Vec3(pos.x, JavaTruncate(sHeight), pos.z) := DefaultPortal]);
          break;
        }
        i := i + 1;
      }
    }
  }
}

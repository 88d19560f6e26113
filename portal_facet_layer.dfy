/**
 * The world-viewer text query of the portal facet layer: "Portal" when the
 * queried map coordinate lies in the footprint rectangle of some portal
 * entry, nothing (null) otherwise. The footprint of an entry spans its
 * centre's x plus or minus the extent's x, and its centre's z plus or minus
 * the extent's y, both ends included.
 */
module FacetLayer {
  import opened Geometry
  import opened Wrappers

  /** One facet entry: the portal's centre and its vector extent. */
  datatype Entry = Entry(center: Vec3, extent: Vec3)

  const PortalText: string := "Portal"

  /** Whether (wx, wy) lies in the entry's footprint rectangle. */
  predicate InFootprint(e: Entry, wx: int, wy: int)
  {
    && e.center.x - e.extent.x <= wx <= e.center.x + e.extent.x
    && e.center.z - e.extent.y <= wy <= e.center.z + e.extent.y
  }

  /** The text for (wx, wy), searching the entries in their iteration order and returning at the first match. */
  function GetWorldText(entries: seq<Entry>, wx: int, wy: int): (r: Option<string>)
    ensures r == Some(PortalText) <==> exists i :: 0 <= i < |entries| && InFootprint(entries[i], wx, wy)
    ensures r == None <==> forall i :: 0 <= i < |entries| ==> !InFootprint(entries[i], wx, wy)
    ensures r == None || r == Some(PortalText)
  {
    if entries == [] then None
    else if InFootprint(entries[0], wx, wy) then Some(PortalText)
    else
      var rest := GetWorldText(entries[1..], wx, wy);
      assert forall i :: 1 <= i < |entries| ==> entries[i] == entries[1..][i - 1];
      rest
  }

  /** Some index of the sequence matches exactly when some element of it does. */
  lemma MatchesSome(entries: seq<Entry>, wx: int, wy: int)
    ensures (exists i :: 0 <= i < |entries| && InFootprint(entries[i], wx, wy))
        <==> (exists e :: e in entries && InFootprint(e, wx, wy))
  {
    if exists e :: e in entries && InFootprint(e, wx, wy) {
      var e :| e in entries && InFootprint(e, wx, wy);
      var i :| 0 <= i < |entries| && entries[i] == e;
    }
  }

  /** The answer depends only on which entries there are, not on the order they are visited in. */
  lemma OrderIndependent(entries: seq<Entry>, other: seq<Entry>, wx: int, wy: int)
    requires forall e :: e in entries <==> e in other
    ensures GetWorldText(entries, wx, wy) == GetWorldText(other, wx, wy)
  {
    MatchesSome(entries, wx, wy);
    MatchesSome(other, wx, wy);
  }

  /** The footprint of an entry as the query sees it: centre x and z, extent x and y. */
  function Footprint(e: Entry): (int, int, int, int)
  {
    (e.center.x, e.center.z, e.extent.x, e.extent.y)
  }

  /** The answer does not depend on any entry's centre y or extent z. */
  lemma IgnoresHeightAndDepth(entries: seq<Entry>, other: seq<Entry>, wx: int, wy: int)
    requires |entries| == |other|
    requires forall i :: 0 <= i < |entries| ==> Footprint(entries[i]) == Footprint(other[i])
    ensures GetWorldText(entries, wx, wy) == GetWorldText(other, wx, wy)
  {
    assert forall i :: 0 <= i < |entries| ==> (InFootprint(entries[i], wx, wy) <==> InFootprint(other[i], wx, wy));
  }
}

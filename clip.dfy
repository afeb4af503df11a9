/**
 * The viewport clipper (`_getClippedBounds`): the visible geographic bounds
 * are clamped, side by side, against the layer's configured bounds and turned
 * back into a bounds value.
 */
module Clip {
  import opened Common
  import opened Geo

  /** The four clamped sides, before they are turned back into bounds. */
  datatype Sides = Sides(south: real, north: real, west: real, east: real)

  /**
   * Reference definition: the component-wise intersection of the viewport
   * and the layer bounds (south and west take the larger, north and east
   * the smaller value).
   */
  function Clamp(view: LatLngBounds, layer: LatLngBounds): (c: Sides)
    // clipping only tightens against the layer bounds ...
    ensures layer.south <= c.south && c.north <= layer.north
    ensures layer.west <= c.west && c.east <= layer.east
    // ... and never widens the viewport
    ensures view.south <= c.south && c.north <= view.north
    ensures view.west <= c.west && c.east <= view.east
    // a side of the viewport already inside the layer bounds is kept
    ensures view.south >= layer.south ==> c.south == view.south
    ensures view.north <= layer.north ==> c.north == view.north
    ensures view.west >= layer.west ==> c.west == view.west
    ensures view.east <= layer.east ==> c.east == view.east
    // every side is one of the two candidates
    ensures c.south in {view.south, layer.south} && c.north in {view.north, layer.north}
    ensures c.west in {view.west, layer.west} && c.east in {view.east, layer.east}
  {
    Sides(Max(view.south, layer.south), Min(view.north, layer.north),
          Max(view.west, layer.west), Min(view.east, layer.east))
  }

  /** The viewport and the layer bounds share at least a point. */
  predicate Overlap(view: LatLngBounds, layer: LatLngBounds)
  {
    var c := Clamp(view, layer);
    c.south <= c.north && c.west <= c.east
  }

  /** What `_getClippedBounds` returns: the clamped sides as host bounds. */
  function ClippedBounds(view: LatLngBounds, layer: LatLngBounds): LatLngBounds
  {
    var c := Clamp(view, layer);
    BoundsFromCorners(LatLng(c.north, c.west), LatLng(c.south, c.east))
  }

  /**
   * `_getClippedBounds`, clamping four variables one after the other.  It
   * has no failure mode; when the two rectangles overlap, the result is
   * exactly their intersection.
   */
  method GetClippedBounds(view: LatLngBounds, layer: LatLngBounds) returns (r: LatLngBounds)
    ensures r == ClippedBounds(view, layer)
    ensures r.Normal()
    ensures Overlap(view, layer) ==>
      var c := Clamp(view, layer);
      r == LatLngBounds(c.south, c.west, c.north, c.east)
  {
    var mSouth := view.south;
    var mNorth := view.north;
    var mWest := view.west;
    var mEast := view.east;

    var lSouth := layer.south;
    var lNorth := layer.north;
    var lWest := layer.west;
    var lEast := layer.east;

    if mSouth < lSouth { mSouth := lSouth; }
    if mNorth > lNorth { mNorth := lNorth; }
    if mWest < lWest { mWest := lWest; }
    if mEast > lEast { mEast := lEast; }

    var world1 := LatLng(mNorth, mWest);
    var world2 := LatLng(mSouth, mEast);
    r := BoundsFromCorners(world1, world2);
  }

  /** Overlapping rectangles clip to a box inside both of them. */
  lemma ClipInsideBoth(view: LatLngBounds, layer: LatLngBounds)
    requires Overlap(view, layer)
    ensures var r := ClippedBounds(view, layer);
      && layer.south <= r.south <= r.north <= layer.north
      && layer.west <= r.west <= r.east <= layer.east
      && view.south <= r.south && r.north <= view.north
      && view.west <= r.west && r.east <= view.east
  {
  }

  /** Clipping an already clipped viewport again changes nothing. */
  lemma ClipIdempotent(view: LatLngBounds, layer: LatLngBounds)
    requires Overlap(view, layer)
    ensures ClippedBounds(ClippedBounds(view, layer), layer) == ClippedBounds(view, layer)
  {
    ClipInsideBoth(view, layer);
  }

  /**
   * A viewport lying entirely west of the layer bounds does not clip to an
   * inverted (empty) rectangle: the host's bounds constructor orders the
   * corners, so the result is the strip between the viewport's east edge
   * and the layer's west edge, which lies outside both rectangles.
   */
  lemma DisjointClipIsStripBetween(view: LatLngBounds, layer: LatLngBounds)
    requires view.Normal() && layer.Normal()
    requires view.east < layer.west
    ensures var r := ClippedBounds(view, layer);
      r.west == view.east && r.east == layer.west && r.west < r.east
  {
  }
}

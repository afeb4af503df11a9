/** Geographic and pixel geometry, as the host map library represents it. */
module Geo {
  import opened Common

  datatype LatLng = LatLng(lat: real, lng: real)

  /**
   * A geographic rectangle as the host stores it: its south-west and
   * north-east corners.
   */
  datatype LatLngBounds = LatLngBounds(south: real, west: real, north: real, east: real)
  {
    function NorthWest(): LatLng { LatLng(north, west) }
    function SouthEast(): LatLng { LatLng(south, east) }

    ghost predicate Normal() { south <= north && west <= east }
  }

  /**
   * `new LatLngBounds(p, q)`: the host extends an empty box by both corners,
   * so the result is the smallest box containing both, whatever their order.
   */
  function BoundsFromCorners(p: LatLng, q: LatLng): (b: LatLngBounds)
    ensures b.Normal()
    ensures b.south <= p.lat <= b.north && b.south <= q.lat <= b.north
    ensures b.west <= p.lng <= b.east && b.west <= q.lng <= b.east
    ensures b.south in {p.lat, q.lat} && b.north in {p.lat, q.lat}
    ensures b.west in {p.lng, q.lng} && b.east in {p.lng, q.lng}
  {
    LatLngBounds(Min(p.lat, q.lat), Min(p.lng, q.lng), Max(p.lat, q.lat), Max(p.lng, q.lng))
  }

  datatype Point = Point(x: real, y: real)

  /** A pixel rectangle with its top-left `min` and bottom-right `max` corner. */
  datatype PixelBounds = PixelBounds(min: Point, max: Point)

  /** `new Bounds(a, b)`: the smallest pixel box containing both points. */
  function PixelBoundsOf(a: Point, b: Point): (r: PixelBounds)
    ensures r.min.x <= r.max.x && r.min.y <= r.max.y
    ensures r.min.x <= a.x <= r.max.x && r.min.x <= b.x <= r.max.x
    ensures r.min.y <= a.y <= r.max.y && r.min.y <= b.y <= r.max.y
    ensures r.min.x in {a.x, b.x} && r.max.x in {a.x, b.x}
    ensures r.min.y in {a.y, b.y} && r.max.y in {a.y, b.y}
  {
    PixelBounds(Point(Min(a.x, b.x), Min(a.y, b.y)), Point(Max(a.x, b.x), Max(a.y, b.y)))
  }

  /** `Bounds.getSize()`. */
  function Size(b: PixelBounds): Point
  {
    Point(b.max.x - b.min.x, b.max.y - b.min.y)
  }
}

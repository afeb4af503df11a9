/**
 * The WMS flavour of the layer: it splits the options it is created with
 * into layer options and WMS request parameters, picks the projection
 * parameter by the WMS version when it is added to a map, and builds each
 * GetMap url from the parameters and a BBOX in the axis order the version
 * and the CRS call for (sections 6.7.3 and 7.3.3.6 of the OGC Web Map
 * Service 1.3.0 standard; SRS and x/y order in version 1.1.1).
 */
module Wms {
  import opened Common
  import opened Geo

  /** A coordinate reference system: the host's own EPSG:4326 object, or any other one, known by its code. */
  datatype Crs = Epsg4326 | OtherCrs(code: string)

  function CrsCode(c: Crs): string
  {
    match c
    case Epsg4326 => "EPSG:4326"
    case OtherCrs(code) => code
  }

  /** An option or parameter value; `Absent` is what reading a missing key gives. */
  datatype Value = Text(s: string) | Flag(b: bool) | Number(r: real) | CrsObject(crs: Crs) | Absent

  type Params = map<string, Value>

  function Get(params: Params, k: string): Value
  {
    if k in params then params[k] else Absent
  }

  predicate Truthy(v: Value)
  {
    match v
    case Text(s) => s != ""
    case Flag(b) => b
    case Number(r) => r != 0.0
    case CrsObject(_) => true
    case Absent => false
  }

  /** `defaultWmsParams`. */
  const DefaultWmsParams: Params := map[
    "service" := Text("WMS"),
    "request" := Text("GetMap"),
    "version" := Text("1.1.1"),
    "layers" := Text(""),
    "styles" := Text(""),
    "format" := Text("image/jpeg"),
    "transparent" := Flag(false)]

  /** The keys of the non-tiled layer's own `options` block. */
  const NonTiledLayerOptionKeys: set<string> :=
    {"attribution", "opacity", "zIndex", "minZoom", "maxZoom", "pointerEvents",
     "errorImageUrl", "bounds", "useCanvas", "detectRetina"}

  /** The keys of the WMS layer's own `options` block. */
  const WmsOptionKeys: set<string> := {"crs", "uppercase"}

  /**
   * The key is an option of the non-tiled layer or of the host's base layer
   * class (`hostKeys`), the two sets `initialize` tests.
   */
  predicate IsLayerOption(k: string, hostKeys: set<string>)
  {
    k in NonTiledLayerOptionKeys || k in hostKeys
  }

  /**
   * The WMS parameters after the keys in `done` have been visited: the
   * defaults, overridden or extended by every visited option that is not a
   * layer option.
   */
  function PartitionedParams(options: Params, hostKeys: set<string>, done: set<string>): (r: Params)
    requires done <= options.Keys
    ensures forall k :: k in r <==> k in DefaultWmsParams || (k in done && !IsLayerOption(k, hostKeys))
    ensures forall k :: k in done && !IsLayerOption(k, hostKeys) ==> r[k] == options[k]
    ensures forall k :: k in DefaultWmsParams && !(k in done && !IsLayerOption(k, hostKeys)) ==> r[k] == DefaultWmsParams[k]
  {
    map k | k in DefaultWmsParams.Keys + done && (k in DefaultWmsParams || !IsLayerOption(k, hostKeys)) ::
      if k in done && !IsLayerOption(k, hostKeys) then options[k] else DefaultWmsParams[k]
  }

  /** Visiting one more option adds it to the parameters exactly when it is not a layer option. */
  lemma PartitionStep(options: Params, hostKeys: set<string>, done: set<string>, i: string)
    requires done <= options.Keys && i in options && i !in done
    ensures PartitionedParams(options, hostKeys, done + {i}) ==
      if IsLayerOption(i, hostKeys) then PartitionedParams(options, hostKeys, done)
      else PartitionedParams(options, hostKeys, done)[i := options[i]]
  {
    var p, q := PartitionedParams(options, hostKeys, done), PartitionedParams(options, hostKeys, done + {i});
    if IsLayerOption(i, hostKeys) {
      assert q.Keys == p.Keys;
    } else {
      assert q.Keys == p.Keys + {i};
    }
  }

  /** The WMS parameters `initialize` builds from all the options. */
  function InitialParams(options: Params, hostKeys: set<string>): Params
  {
    PartitionedParams(options, hostKeys, options.Keys)
  }

  /**
   * The split as written tests the options of the non-tiled layer, not those
   * of the WMS layer itself: the WMS layer's `crs` and `uppercase` options
   * are sent to the server as request parameters too.
   */
  lemma WmsOptionsLeakIntoParams(options: Params, hostKeys: set<string>, k: string)
    requires k in WmsOptionKeys && k in options && k !in hostKeys
    ensures k in InitialParams(options, hostKeys) && InitialParams(options, hostKeys)[k] == options[k]
  {
  }

  /** The split as evidently intended: the WMS layer's own options stay out of the request too. */
  function ScopedParams(options: Params, hostKeys: set<string>): (r: Params)
    ensures forall k :: k in r ==> k in DefaultWmsParams || (k in options && !IsLayerOption(k, hostKeys) && k !in WmsOptionKeys)
    ensures forall k :: k in WmsOptionKeys && k !in DefaultWmsParams ==> k !in r
    ensures forall k :: k in options && !IsLayerOption(k, hostKeys) && k !in WmsOptionKeys ==> k in r && r[k] == options[k]
  {
    PartitionedParams(options, hostKeys + WmsOptionKeys, options.Keys)
  }

  /** The two splits agree on every key that is not an option of the WMS layer. */
  lemma ScopedParamsAgreeElsewhere(options: Params, hostKeys: set<string>, k: string)
    requires k !in WmsOptionKeys
    ensures k in ScopedParams(options, hostKeys) <==> k in InitialParams(options, hostKeys)
    ensures k in ScopedParams(options, hostKeys) ==> ScopedParams(options, hostKeys)[k] == InitialParams(options, hostKeys)[k]
  {
  }

  // ---------------------------------------------------------------------
  // The version and the projection parameter
  // ---------------------------------------------------------------------

  predicate IsDigit(c: char) { '0' <= c <= '9' }

  /** The length of the run of decimal digits `s` starts with. */
  function LeadingDigits(s: string): (n: nat)
    ensures n <= |s|
    ensures forall i :: 0 <= i < n ==> IsDigit(s[i])
    ensures n < |s| ==> !IsDigit(s[n])
  {
    if s == [] || !IsDigit(s[0]) then 0 else 1 + LeadingDigits(s[1..])
  }

  predicate AllDigits(d: string)
  {
    forall i :: 0 <= i < |d| ==> IsDigit(d[i])
  }

  /** The number a run of decimal digits denotes. */
  function DigitsValue(d: string): nat
    requires AllDigits(d)
  {
    if d == [] then 0 else 10 * DigitsValue(d[..|d| - 1]) + DigitValue(d[|d| - 1])
  }

  function DigitValue(c: char): (n: nat)
    requires IsDigit(c)
    ensures n < 10
  {
    (c - '0') as int
  }

  function Pow10(n: nat): (p: nat)
    ensures p >= 1
  {
    if n == 0 then 1 else 10 * Pow10(n - 1)
  }

  /**
   * `parseFloat` on a decimal string: the longest prefix of the form
   * `digits`, `digits.`, `.digits` or `digits.digits`, or no number
   * (`None`, for NaN) when there is none.
   */
  function ParseDecimal(s: string): (r: Option<real>)
    ensures r.Some? ==> r.value >= 0.0
    ensures r.None? <==> LeadingDigits(s) == 0 && (|s| == 0 || s[0] != '.' || LeadingDigits(s[1..]) == 0)
  {
    var i := LeadingDigits(s);
    if i < |s| && s[i] == '.' then
      var fraction := s[i + 1..];
      var f := LeadingDigits(fraction);
      if i + f == 0 then None
      else Some(Decimal(DigitsValue(s[..i]), DigitsValue(fraction[..f]), f))
    else if i == 0 then None
    else Some(DigitsValue(s[..i]) as real)
  }

  /** The number with whole part `whole` and `n` fraction digits of value `fraction`. */
  function Decimal(whole: nat, fraction: nat, n: nat): (r: real)
    ensures r >= whole as real
  {
    whole as real + fraction as real / Pow10(n) as real
  }

  /** `parseFloat` on a parameter value: a string is parsed, a number kept, anything else is NaN. */
  function ParseFloat(v: Value): Option<real>
  {
    match v
    case Text(s) => ParseDecimal(s)
    case Number(r) => Some(r)
    case _ => None
  }

  /** `'crs'` from WMS 1.3 on, `'srs'` before it and when the version is not a number. */
  function ProjectionKey(version: Option<real>): (k: string)
    ensures k == "crs" || k == "srs"
    ensures k == "crs" <==> version.Some? && version.value >= 13.0 / 10.0
  {
    if version.Some? && version.value >= 13.0 / 10.0 then "crs" else "srs"
  }

  /**
   * A version string that starts with one digit, a dot and one more digit,
   * followed by anything but a digit (`1.3.0`, `1.1.1`), parses to that
   * one-decimal number.
   */
  lemma ParseDigitDotDigit(a: char, b: char, rest: string)
    requires IsDigit(a) && IsDigit(b) && (rest == [] || !IsDigit(rest[0]))
    ensures ParseDecimal([a, '.', b] + rest) == Some(DigitValue(a) as real + DigitValue(b) as real / 10.0)
  {
    var s := [a, '.', b] + rest;
    assert s[1..] == ['.', b] + rest;
    assert LeadingDigits(s[1..]) == 0;
    assert LeadingDigits(s) == 1;
    assert s[2..] == [b] + rest && s[3..] == rest;
    assert LeadingDigits(s[2..]) == 1;
    assert s[..1] == [a] && s[2..3] == [b];
    assert DigitsValue([a]) == DigitValue(a) by {
      assert [a][..0] == [];
    }
    assert DigitsValue([b]) == DigitValue(b) by {
      assert [b][..0] == [];
    }
  }

  /** A run of digits in front of `t` adds its own length to the digits `t` starts with. */
  lemma {:induction false} LeadingDigitsAppend(w: string, t: string)
    requires AllDigits(w)
    ensures LeadingDigits(w + t) == |w| + LeadingDigits(t)
    decreases |w|
  {
    if w == [] {
      assert w + t == t;
    } else {
      assert IsDigit(w[0]) && (w + t)[0] == w[0];
      assert (w + t)[1..] == w[1..] + t;
      LeadingDigitsAppend(w[1..], t);
    }
  }

  /**
   * The value of a decimal number: whole digits `w`, a point and fraction
   * digits `f` (not both empty), followed by anything that does not
   * continue the number, parse to `w + f / 10^|f|`.
   */
  lemma ParseDecimalValue(w: string, f: string, rest: string)
    requires AllDigits(w) && AllDigits(f) && |w| + |f| > 0
    requires rest == [] || !IsDigit(rest[0])
    ensures ParseDecimal(w + "." + f + rest) == Some(Decimal(DigitsValue(w), DigitsValue(f), |f|))
  {
    var tail := ['.'] + (f + rest);
    var s := w + tail;
    assert w + "." + f + rest == s;
    LeadingDigitsAppend(w, tail);
    LeadingDigitsStop(tail);
    PrefixOfAppend(w, tail);
    assert s[|w|] == '.' && s[|w| + 1..] == f + rest;
    LeadingDigitsAppend(f, rest);
    LeadingDigitsStop(rest);
    PrefixOfAppend(f, rest);
    ParseDecimalWithPoint(s, |w|, |f|);
    assert s[..|w|] == w;
    assert s[|w| + 1..][..|f|] == f;
  }

  /** `ParseDecimal` unfolded for a string with `i` whole digits, a point and `n` fraction digits. */
  lemma ParseDecimalWithPoint(s: string, i: nat, n: nat)
    requires LeadingDigits(s) == i && i < |s| && s[i] == '.'
    requires LeadingDigits(s[i + 1..]) == n && i + n > 0
    ensures ParseDecimal(s) == Some(Decimal(DigitsValue(s[..i]), DigitsValue(s[i + 1..][..n]), n))
  {
  }

  lemma LeadingDigitsStop(t: string)
    requires t == [] || !IsDigit(t[0])
    ensures LeadingDigits(t) == 0
  {
  }

  lemma PrefixOfAppend<T>(a: seq<T>, b: seq<T>)
    ensures (a + b)[..|a|] == a
  {
  }

  /** Digits without a point, followed by anything that does not continue the number, parse to their integer value. */
  lemma ParseIntegerValue(w: string, rest: string)
    requires AllDigits(w) && |w| > 0
    requires rest == [] || (!IsDigit(rest[0]) && rest[0] != '.')
    ensures ParseDecimal(w + rest) == Some(DigitsValue(w) as real)
  {
    LeadingDigitsAppend(w, rest);
    LeadingDigitsStop(rest);
    PrefixOfAppend(w, rest);
  }

  /** The standard version strings: 1.3.0 uses `crs`, 1.1.1 and 1.1.0 use `srs`. */
  lemma StandardVersionsPickTheirKey()
    ensures ProjectionKey(ParseFloat(Text("1.3.0"))) == "crs"
    ensures ProjectionKey(ParseFloat(Text("1.1.1"))) == "srs"
    ensures ProjectionKey(ParseFloat(Text("1.1.0"))) == "srs"
  {
    ParseDigitDotDigit('1', '3', ".0");
    assert "1.3.0" == ['1', '.', '3'] + ".0";
    ParseDigitDotDigit('1', '1', ".1");
    assert "1.1.1" == ['1', '.', '1'] + ".1";
    ParseDigitDotDigit('1', '1', ".0");
    assert "1.1.0" == ['1', '.', '1'] + ".0";
  }

  // ---------------------------------------------------------------------
  // The bounding box
  // ---------------------------------------------------------------------

  /** The host's EPSG:4326 projection: x is the longitude and y the latitude. */
  function LonLat(ll: LatLng): Point
  {
    Point(ll.lng, ll.lat)
  }

  /** `this._crs.project`: EPSG:4326 projects by `LonLat`, any other CRS by the projection the host gives it. */
  function Project(crs: Crs, otherProject: LatLng -> Point, ll: LatLng): Point
  {
    match crs
    case Epsg4326 => LonLat(ll)
    case OtherCrs(_) => otherProject(ll)
  }

  /** The BBOX lists latitude first: WMS 1.3 or later together with the host's own EPSG:4326 object. */
  predicate LatitudeFirst(version: Option<real>, crs: Crs)
  {
    version.Some? && version.value >= 13.0 / 10.0 && crs == Epsg4326
  }

  /** The four BBOX numbers, from the projected north-west and south-east corners. */
  function BBox(nw: Point, se: Point, latFirst: bool): (b: seq<real>)
    ensures |b| == 4
    ensures b[1] == (if latFirst then nw.x else se.y) && b[3] == (if latFirst then se.x else nw.y)
  {
    if latFirst then [se.y, nw.x, nw.y, se.x] else [nw.x, se.y, se.x, nw.y]
  }

  /**
   * The reference order of the rectangle spanned by two points: minimum
   * easting, minimum northing, maximum easting, maximum northing, where
   * for EPSG:4326 under WMS 1.3 the latitude comes first (section 6.7.3.3
   * of the WMS 1.3.0 standard).
   */
  function AxisOrderBBox(p: Point, q: Point, latFirst: bool): seq<real>
  {
    var minEast, maxEast := Min(p.x, q.x), Max(p.x, q.x);
    var minNorth, maxNorth := Min(p.y, q.y), Max(p.y, q.y);
    if latFirst then [minNorth, minEast, maxNorth, maxEast] else [minEast, minNorth, maxEast, maxNorth]
  }

  /**
   * The BBOX built from the projected corners is the reference order of
   * their rectangle exactly when the north-west corner really lies west
   * and north of the south-east one (x eastward, y northward).
   */
  lemma BBoxFollowsAxisOrder(nw: Point, se: Point, latFirst: bool)
    ensures BBox(nw, se, latFirst) == AxisOrderBBox(nw, se, latFirst) <==> nw.x <= se.x && se.y <= nw.y
    ensures nw.x <= se.x && se.y <= nw.y ==> var b := BBox(nw, se, latFirst); b[0] <= b[2] && b[1] <= b[3]
  {
    var b, r := BBox(nw, se, latFirst), AxisOrderBBox(nw, se, latFirst);
    if !(nw.x <= se.x && se.y <= nw.y) {
      if latFirst {
        assert b[0] != r[0] || b[1] != r[1];
      } else {
        assert b[0] != r[0] || b[1] != r[1];
      }
    }
  }

  /**
   * Under WMS 1.3 with EPSG:4326 the BBOX of a geographic rectangle is
   * south, west, north, east; under 1.1.1 it is west, south, east, north.
   */
  lemma Epsg4326BBoxIsLatLon(b: LatLngBounds, version: Option<real>)
    requires b.Normal()
    ensures var bb := BBox(LonLat(b.NorthWest()), LonLat(b.SouthEast()), LatitudeFirst(version, Epsg4326));
      bb == if version.Some? && version.value >= 13.0 / 10.0 then [b.south, b.west, b.north, b.east]
            else [b.west, b.south, b.east, b.north]
  {
    BBoxFollowsAxisOrder(LonLat(b.NorthWest()), LonLat(b.SouthEast()), LatitudeFirst(version, Epsg4326));
  }

  /** An order other than latitude-first needs either an older version or a CRS other than the host's EPSG:4326. */
  lemma LatitudeFirstOnlyFor13And4326(version: Option<real>, crs: Crs, nw: Point, se: Point)
    requires BBox(nw, se, LatitudeFirst(version, crs)) != BBox(nw, se, false)
    ensures version.Some? && version.value >= 13.0 / 10.0 && crs == Epsg4326
  {
  }

  // ---------------------------------------------------------------------
  // The url
  // ---------------------------------------------------------------------

  /** `[..].join(',')`, with `format` turning a number into its text. */
  function Join(xs: seq<real>, format: real -> string): (s: string)
    ensures |xs| == 1 ==> s == format(xs[0])
    decreases |xs|
  {
    if xs == [] then "" else if |xs| == 1 then format(xs[0]) else format(xs[0]) + "," + Join(xs[1..], format)
  }

  function BBoxKey(uppercase: bool): string
  {
    if uppercase then "&BBOX=" else "&bbox="
  }

  /**
   * The GetMap url: the service url, the query string the host builds from
   * the parameters, and the BBOX under a key cased like the parameters.
   */
  function ImageUrl(wmsUrl: string, query: string, uppercase: bool, bbox: string): (u: string)
    ensures |u| == |wmsUrl| + |query| + 6 + |bbox|
    ensures u[..|wmsUrl|] == wmsUrl
    ensures u[|wmsUrl|..|wmsUrl| + |query|] == query
    ensures u[|u| - |bbox| - 6..] == BBoxKey(uppercase) + bbox
  {
    wmsUrl + query + BBoxKey(uppercase) + bbox
  }

  /** The url ends in the BBOX key exactly as the `uppercase` option asks. */
  lemma BBoxKeyFollowsUppercase(wmsUrl: string, query: string, uppercase: bool, bbox: string)
    ensures var u := ImageUrl(wmsUrl, query, uppercase, bbox);
      && (uppercase ==> u[|u| - |bbox| - 6..|u| - |bbox|] == "&BBOX=")
      && (!uppercase ==> u[|u| - |bbox| - 6..|u| - |bbox|] == "&bbox=")
  {
    var u := ImageUrl(wmsUrl, query, uppercase, bbox);
    assert u[|u| - |bbox| - 6..|u| - |bbox|] == (BBoxKey(uppercase) + bbox)[..6];
  }

  /**
   * The loop of `initialize`: start from a copy of the default parameters
   * and move every option that is not a layer option into them.
   */
  method Partition(options: Params, hostKeys: set<string>) returns (params: Params)
    ensures params == InitialParams(options, hostKeys)
  {
    params := DefaultWmsParams;
    var todo := options.Keys;
    ghost var done: set<string> := {};
    while todo != {}
      invariant done <= options.Keys && todo == options.Keys - done
      invariant params == PartitionedParams(options, hostKeys, done)
      decreases |todo|
    {
      var i :| i in todo;
      PartitionStep(options, hostKeys, done, i);
      if !IsLayerOption(i, hostKeys) {
        params := params[i := options[i]];
      }
      VisitOne(options.Keys, done, i);
      todo := todo - {i};
      done := done + {i};
    }
    assert done == options.Keys;
  }

  /** Moving a key from the unvisited keys to the visited ones. */
  lemma VisitOne<T>(all: set<T>, done: set<T>, i: T)
    requires done <= all && i in all - done
    ensures done + {i} <= all && all - (done + {i}) == (all - done) - {i}
    ensures |all - (done + {i})| < |all - done|
  {
  }

  /**
   * The WMS layer.  `options` are all the options it was created with
   * (`setOptions` keeps every one of them); the CRS and the version are
   * fixed when it is added to a map.
   */
  class WmsLayer {
    const wmsUrl: string
    const options: Params
    var wmsParams: Params
    var crs: Option<Crs>
    var wmsVersion: Option<real>

    /** The `uppercase` option. */
    function Uppercase(): bool
    {
      Truthy(Get(options, "uppercase"))
    }

    /**
     * `initialize`: start from a copy of the default parameters and move
     * every option that is not a layer option into them.
     */
    constructor Initialize(url: string, options: Params, hostKeys: set<string>)
      ensures wmsUrl == url && this.options == options
      ensures wmsParams == InitialParams(options, hostKeys)
      ensures crs.None? && wmsVersion.None?
    {
      wmsUrl := url;
      this.options := options;
      var params := Partition(options, hostKeys);
      wmsParams := params;
      crs, wmsVersion := None, None;
    }

    /**
     * `onAdd`, the WMS part: the CRS option or else the map's CRS, the
     * version parsed from the parameters, and the CRS code under `crs` or
     * `srs` as that version asks.
     */
    method OnAdd(mapCrs: Crs)
      modifies this
      ensures crs == Some(if Get(options, "crs").CrsObject? then Get(options, "crs").crs else mapCrs)
      ensures wmsVersion == ParseFloat(Get(old(wmsParams), "version"))
      ensures wmsParams == old(wmsParams)[ProjectionKey(wmsVersion) := Text(CrsCode(crs.value))]
    {
      var c := if Get(options, "crs").CrsObject? then Get(options, "crs").crs else mapCrs;
      crs := Some(c);
      wmsVersion := ParseFloat(Get(wmsParams, "version"));
      var projectionKey := if wmsVersion.Some? && wmsVersion.value >= 13.0 / 10.0 then "crs" else "srs";
      wmsParams := wmsParams[projectionKey := Text(CrsCode(c))];
    }

    /**
     * `getImageUrl`: stamp the requested pixel size into the parameters,
     * then build the url with the BBOX of the projected corners.
     * `paramString` is the host's query-string builder and `format` its
     * number-to-text conversion.
     */
    method GetImageUrl(bounds: LatLngBounds, width: real, height: real, otherProject: LatLng -> Point,
                       paramString: (Params, string, bool) -> string, format: real -> string)
      returns (url: string)
      requires crs.Some?
      modifies this
      ensures wmsParams == old(wmsParams)["width" := Number(width)]["height" := Number(height)]
      ensures crs == old(crs) && wmsVersion == old(wmsVersion)
      ensures var nw := Project(crs.value, otherProject, bounds.NorthWest());
        var se := Project(crs.value, otherProject, bounds.SouthEast());
        url == ImageUrl(wmsUrl, paramString(wmsParams, wmsUrl, Uppercase()), Uppercase(),
                        Join(BBox(nw, se, LatitudeFirst(wmsVersion, crs.value)), format))
    {
      wmsParams := wmsParams["width" := Number(width)];
      wmsParams := wmsParams["height" := Number(height)];
      var nw := Project(crs.value, otherProject, bounds.NorthWest());
      var se := Project(crs.value, otherProject, bounds.SouthEast());
      var latFirst := wmsVersion.Some? && wmsVersion.value >= 13.0 / 10.0 && crs.value == Epsg4326;
      var bbox := Join(if latFirst then [se.y, nw.x, nw.y, se.x] else [nw.x, se.y, se.x, nw.y], format);
      var uppercase := Truthy(Get(options, "uppercase"));
      url := wmsUrl + paramString(wmsParams, wmsUrl, uppercase) + (if uppercase then "&BBOX=" else "&bbox=") + bbox;
    }

    /**
     * `setParams`: merge `params` into the parameters, later values
     * winning, and ask for a redraw unless `noRedraw` is set.
     */
    method SetParams(params: Params, noRedraw: bool) returns (redraw: bool)
      modifies this
      ensures wmsParams.Keys == old(wmsParams).Keys + params.Keys
      ensures forall k :: k in params ==> wmsParams[k] == params[k]
      ensures forall k :: k in old(wmsParams) && k !in params ==> wmsParams[k] == old(wmsParams)[k]
      ensures redraw == !noRedraw
      ensures crs == old(crs) && wmsVersion == old(wmsVersion)
    {
      wmsParams := wmsParams + params;
      redraw := !noRedraw;
    }
  }
}

/**
 * The double-buffered, key-guarded refresh controller of the non-tiled
 * layer, as a state machine on values.  Each host callback (`_update`, the
 * asynchronous provider's callback, an image's `load` and `error`, the `zoom`
 * and `zoomanim` handlers) is a function from the old state to the new one;
 * `NonTiledLayer.Layer` implements each of them in place and is proved
 * against these functions.
 *
 * Naming follows the source: the CURRENT slot is the one a request loads
 * into (kept at opacity 0 until it completes), the BUFFER slot is the one on
 * screen.  A finalize swaps the two roles.
 */
module Overlay {
  import opened Common
  import opened Geo
  import opened Clip

  type Url = string

  /** The 1px transparent GIF used for the degenerate case and as the default error image. */
  const EmptyImageUrl: Url := "data:image/gif;base64,R0lGODlhAQABAHAAACH5BAUAAAAALAAAAAABAAEAAAICRAEAOw=="

  /** Below this clipped pixel width or height no request is made. */
  const MinPixelSize: real := 32.0

  /**
   * A request key.  `NoKey` is the layer's initial `''` and an image's unset
   * key (both falsy); `EmptyKey` is the `'<empty>'` sentinel; a request key
   * is built from the corners and the pixel size of the request.
   */
  datatype Key = NoKey | EmptyKey | RequestKey(nw: LatLng, se: LatLng, width: real, height: real)

  /** The opaque payload an asynchronous provider attaches to an image. */
  datatype Tag = Tag(payload: nat)

  /** A CSS position and scale given to an image. */
  datatype Transform = Transform(origin: Point, scale: Num)

  /** The two physical image slots: A is created first (the first buffer), B second (the first current). */
  datatype SlotId = A | B

  function Other(t: SlotId): (u: SlotId)
    ensures u != t
  {
    if t == A then B else A
  }

  /**
   * One image slot: the geographic bounds it was last requested for, the
   * pixel bounds captured when it was sized, the three zoom-scale factors,
   * its CSS transform and size, its opacity, and the source, key and tag of
   * its image.
   */
  datatype SlotState = SlotState(
    bounds: Option<LatLngBounds>,
    orgBounds: Option<PixelBounds>,
    scale: Num,
    sscale: Num,
    lastScale: Num,
    transform: Option<Transform>,
    size: Option<Point>,
    opacity: real,
    src: Url,
    key: Key,
    tag: Option<Tag>,
    invalid: bool)

  /** A freshly created image: nothing set, scale factors undefined, fully opaque by default. */
  const FreshSlot: SlotState :=
    SlotState(None, None, NotFinite, NotFinite, NotFinite, None, None, 1.0, "", NoKey, None, false)

  /** Events fired by the layer, and calls of the optional `_addInteraction` hook. */
  datatype Event = Loading | Load(target: SlotId) | Error(target: SlotId) | Interaction(tag: Tag)

  /** A call of the image-url provider: what was asked for, under which key, for which slot. */
  datatype Call = Call(bounds: LatLngBounds, width: real, height: real, key: Key, target: SlotId, async: bool)

  /** The layer options the controller reads. */
  datatype Options = Options(
    minZoom: real,
    maxZoom: real,
    bounds: LatLngBounds,
    errorImageUrl: Url,
    detectRetina: bool,
    hasInteraction: bool)

  const DefaultOptions: Options :=
    Options(0.0, 18.0, LatLngBounds(-85.05, -180.0, 85.05, 180.0), EmptyImageUrl, false, false)

  /** The options together with the browser's retina flag. */
  datatype Config = Config(options: Options, retina: bool)

  /**
   * What the host map tells the layer in one cycle: its visible bounds, its
   * zoom, and its two projections (to container and to layer pixels).
   */
  datatype MapView = MapView(
    bounds: LatLngBounds,
    zoom: real,
    containerPoint: LatLng -> Point,
    layerPoint: LatLng -> Point)

  /** The provider a concrete layer supplies: `getImageUrl` or `getImageUrlAsync`. */
  datatype Provider = Sync(getImageUrl: (LatLngBounds, real, real) -> Url) | Async

  /** One `zoomanim` frame: the zoom scale, the projection to the new layer pixels, and whether the host has `setTransform`. */
  datatype ZoomFrame = ZoomFrame(zoomScale: real, newLayerPoint: LatLng -> Point, hasSetTransform: bool)

  /** The layer: both slots, which one is current, the latest key, the container's visibility, and the logs. */
  datatype State = State(
    a: SlotState,
    b: SlotState,
    current: SlotId,
    key: Key,
    visible: bool,
    events: seq<Event>,
    calls: seq<Call>)

  function Slot(s: State, t: SlotId): SlotState
  {
    if t == A then s.a else s.b
  }

  function WithSlot(s: State, t: SlotId, v: SlotState): (r: State)
    ensures Slot(r, t) == v && Slot(r, Other(t)) == Slot(s, Other(t))
    ensures r.current == s.current && r.key == s.key && r.visible == s.visible
    ensures r.events == s.events && r.calls == s.calls
  {
    if t == A then s.(a := v) else s.(b := v)
  }

  function Cur(s: State): SlotState { Slot(s, s.current) }
  function Buf(s: State): SlotState { Slot(s, Other(s.current)) }

  /** Two states that agree role by role are equal. */
  lemma SameRoles(q: State, r: State)
    requires q.current == r.current && Cur(q) == Cur(r) && Buf(q) == Buf(r)
    requires q.key == r.key && q.visible == r.visible && q.events == r.events && q.calls == r.calls
    ensures q == r
  {
  }

  /** The layer right after `onAdd` created its two images, before the first update. */
  const Initial: State := State(FreshSlot, FreshSlot, B, NoKey, true, [], [])

  /** A slot that has bounds also has the pixel snapshot taken when it was sized. */
  ghost predicate SlotInv(v: SlotState)
  {
    v.bounds.Some? ==> v.orgBounds.Some?
  }

  ghost predicate Inv(s: State)
  {
    SlotInv(s.a) && SlotInv(s.b)
  }

  /** Exactly one slot is on screen: the buffer at opacity 1, the current one at 0. */
  ghost predicate Settled(s: State)
  {
    Cur(s).opacity == 0.0 && Buf(s).opacity == 1.0
  }

  // ---------------------------------------------------------------------
  // The request derived from the viewport
  // ---------------------------------------------------------------------

  /** `_getImageScale`: 2 on a retina screen when the layer asks to detect it, 1 otherwise. */
  function ImageScale(cfg: Config): (r: real)
    ensures r == 1.0 || r == 2.0
    ensures r == 2.0 <==> cfg.options.detectRetina && cfg.retina
  {
    if cfg.options.detectRetina && cfg.retina then 2.0 else 1.0
  }

  /** Container-pixel width and height of a geographic rectangle. */
  function PixelSize(m: MapView, bounds: LatLngBounds): Point
  {
    var pix1 := m.containerPoint(bounds.NorthWest());
    var pix2 := m.containerPoint(bounds.SouthEast());
    Point(pix2.x - pix1.x, pix2.y - pix1.y)
  }

  /** The bounds an update requests: the viewport clipped to the layer bounds. */
  function RequestBounds(cfg: Config, m: MapView): LatLngBounds
  {
    ClippedBounds(m.bounds, cfg.options.bounds)
  }

  /** The zoom is outside the layer's range, or the clipped image would be under 32 pixels. */
  predicate Degenerate(cfg: Config, m: MapView)
  {
    var size := PixelSize(m, RequestBounds(cfg, m));
    || m.zoom < cfg.options.minZoom
    || m.zoom > cfg.options.maxZoom
    || size.x < MinPixelSize
    || size.y < MinPixelSize
  }

  /**
   * The key an update sets: the empty sentinel in the degenerate case, and
   * otherwise a key built from the request's corners and its pixel size
   * multiplied by the image scale.
   */
  function RequestedKey(cfg: Config, m: MapView): (k: Key)
    ensures k == EmptyKey <==> Degenerate(cfg, m)
    ensures k != NoKey
    ensures !Degenerate(cfg, m) ==>
      var b := RequestBounds(cfg, m);
      var size := PixelSize(m, b);
      && k.nw == b.NorthWest() && k.se == b.SouthEast()
      && k.width == size.x * ImageScale(cfg) && k.height == size.y * ImageScale(cfg)
      && k.width >= MinPixelSize && k.height >= MinPixelSize
  {
    if Degenerate(cfg, m) then EmptyKey
    else
      var b := RequestBounds(cfg, m);
      var size := PixelSize(m, b);
      RequestKey(b.NorthWest(), b.SouthEast(), size.x * ImageScale(cfg), size.y * ImageScale(cfg))
  }

  /** Identical viewports give equal keys, and distinct request keys come from distinct requests. */
  lemma RequestedKeyDeterminesRequest(cfg: Config, m1: MapView, m2: MapView)
    requires !Degenerate(cfg, m1) && !Degenerate(cfg, m2)
    requires RequestedKey(cfg, m1) == RequestedKey(cfg, m2)
    ensures RequestBounds(cfg, m1).NorthWest() == RequestBounds(cfg, m2).NorthWest()
    ensures RequestBounds(cfg, m1).SouthEast() == RequestBounds(cfg, m2).SouthEast()
    ensures PixelSize(m1, RequestBounds(cfg, m1)) == PixelSize(m2, RequestBounds(cfg, m2))
  {
    var s := ImageScale(cfg);
    var p1 := PixelSize(m1, RequestBounds(cfg, m1));
    var p2 := PixelSize(m2, RequestBounds(cfg, m2));
    assert p1.x * s == p2.x * s && p1.y * s == p2.y * s;
  }

  // ---------------------------------------------------------------------
  // Slot geometry
  // ---------------------------------------------------------------------

  /** The slot's bounds projected to layer pixels. */
  function LayerPixelBounds(v: SlotState, layerPoint: LatLng -> Point): PixelBounds
    requires v.bounds.Some?
  {
    PixelBoundsOf(layerPoint(v.bounds.value.NorthWest()), layerPoint(v.bounds.value.SouthEast()))
  }

  /**
   * `_resetImage`: position and size the image at its bounds, remember those
   * pixel bounds as the zoom baseline, and reset the zoom scale to 1.
   */
  function ResetImage(v: SlotState, m: MapView): (r: SlotState)
    requires v.bounds.Some?
    ensures SlotInv(r)
    ensures r.orgBounds == Some(LayerPixelBounds(v, m.layerPoint)) && r.sscale == One
    ensures r.transform == Some(Transform(r.orgBounds.value.min, One))
    ensures r.size == Some(Size(r.orgBounds.value))
    ensures r.(orgBounds := v.orgBounds, sscale := v.sscale, transform := v.transform, size := v.size) == v
  {
    var pb := LayerPixelBounds(v, m.layerPoint);
    v.(transform := Some(Transform(pb.min, One)), orgBounds := Some(pb), sscale := One, size := Some(Size(pb)))
  }

  /**
   * `_resetImageScale`, on a discrete zoom change: the zoom scale becomes the
   * new pixel height of the bounds over the height captured when the image
   * was sized.
   */
  function ResetImageScale(v: SlotState, m: MapView): (r: SlotState)
    requires v.bounds.Some? && SlotInv(v)
    ensures SlotInv(r)
    ensures var h := Size(LayerPixelBounds(v, m.layerPoint)).y;
      var h0 := Size(v.orgBounds.value).y;
      && r.sscale == Div(h, h0)
      && (r.sscale.Finite? ==> r.sscale.v * h0 == h)
      && r.transform == Some(Transform(LayerPixelBounds(v, m.layerPoint).min, r.sscale))
    ensures r.(sscale := v.sscale, transform := v.transform) == v
  {
    var pb := LayerPixelBounds(v, m.layerPoint);
    var scale := Div(Size(pb).y, Size(v.orgBounds.value).y);
    v.(sscale := scale, transform := Some(Transform(pb.min, scale)))
  }

  /** The scale a `zoomanim` frame applies to a slot. */
  function FrameScale(v: SlotState, f: ZoomFrame): Num
  {
    if f.hasSetTransform then Mul(Mul(v.scale, v.sscale), Finite(f.zoomScale))
    else Mul(v.scale, Finite(f.zoomScale))
  }

  /**
   * `_animateImage`: scale the image by its request scale, its settle scale
   * and the frame's zoom scale, place it at its projected north-west corner,
   * and remember the applied scale.
   */
  function AnimateImage(v: SlotState, f: ZoomFrame): (r: SlotState)
    requires v.bounds.Some?
    ensures r.lastScale == FrameScale(v, f)
    ensures f.hasSetTransform ==> r.transform == Some(Transform(f.newLayerPoint(v.bounds.value.NorthWest()), r.lastScale))
    ensures !f.hasSetTransform ==> r.transform == v.transform
    ensures r.(lastScale := v.lastScale, transform := v.transform) == v
  {
    var scale := FrameScale(v, f);
    var topLeft := f.newLayerPoint(v.bounds.value.NorthWest());
    var moved := if f.hasSetTransform then v.(transform := Some(Transform(topLeft, scale))) else v;
    moved.(lastScale := scale)
  }

  // ---------------------------------------------------------------------
  // The callbacks
  // ---------------------------------------------------------------------

  /**
   * The first half of `_update`: the buffer's scale becomes its last animated
   * scale and its settle scale 1; the current slot gets scale 1, the clipped
   * bounds, a fresh pixel baseline, and opacity 0 (it is hidden before any
   * request is made).
   */
  function PrepareState(s: State, cfg: Config, m: MapView): (r: State)
    ensures Inv(s) ==> Inv(r)
    ensures r.(a := s.a, b := s.b) == s
    ensures Cur(r).bounds == Some(RequestBounds(cfg, m)) && Cur(r).opacity == 0.0
    ensures Cur(r).scale == One && Cur(r).lastScale == One && Cur(r).sscale == One
    ensures Cur(r).src == Cur(s).src && Cur(r).key == Cur(s).key && Cur(r).tag == Cur(s).tag
    ensures Buf(r) == Buf(s).(scale := Buf(s).lastScale, sscale := One)
  {
    var t := s.current;
    var buf := Buf(s).(scale := Buf(s).lastScale, sscale := One);
    var cur := ResetImage(Cur(s).(scale := One, lastScale := One, bounds := Some(RequestBounds(cfg, m))), m);
    WithSlot(WithSlot(s, Other(t), buf), t, cur.(opacity := 0.0))
  }

  /** The degenerate branch of `_update`: hide the layer and set the empty sentinel on the current slot. */
  function HideState(s1: State): (r: State)
    ensures !r.visible && r.key == EmptyKey && r.current == s1.current
    ensures Cur(r) == Cur(s1).(src := EmptyImageUrl, key := EmptyKey, tag := None) && Buf(r) == Buf(s1)
    ensures r.events == s1.events && r.calls == s1.calls
  {
    WithSlot(s1, s1.current, Cur(s1).(src := EmptyImageUrl, key := EmptyKey, tag := None))
      .(visible := false, key := EmptyKey)
  }

  /**
   * The request branch of `_update`: fire `loading`, make the key the layer
   * key, and call the provider once for the current slot.  A synchronous
   * provider's url and the key are written into the slot at once.
   */
  function RequestState(s1: State, bounds: LatLngBounds, width: real, height: real, k: Key, p: Provider): (r: State)
    ensures r.current == s1.current && r.key == k && r.visible == s1.visible && Buf(r) == Buf(s1)
    ensures r.events == s1.events + [Loading]
    ensures r.calls == s1.calls + [Call(bounds, width, height, k, s1.current, p.Async?)]
    ensures p.Sync? ==> Cur(r) == Cur(s1).(src := p.getImageUrl(bounds, width, height), key := k)
    ensures p.Async? ==> Cur(r) == Cur(s1)
  {
    var s2 := s1.(events := s1.events + [Loading], key := k,
                  calls := s1.calls + [Call(bounds, width, height, k, s1.current, p.Async?)]);
    match p
    case Sync(getImageUrl) => WithSlot(s2, s1.current, Cur(s1).(src := getImageUrl(bounds, width, height), key := k))
    case Async => s2
  }

  /**
   * `_update`, run on every `moveend` and redraw.  After `PrepareState`, in
   * the degenerate case the layer is hidden and the empty sentinel set, with
   * no `loading` event and no provider call; otherwise `loading` fires once,
   * the new key becomes the layer key and the provider is called once for
   * the current slot.
   */
  function UpdateState(s: State, cfg: Config, m: MapView, p: Provider): (r: State)
    ensures Inv(s) ==> Inv(r)
    ensures var s1 := PrepareState(s, cfg, m);
      && r.current == s.current && r.key == RequestedKey(cfg, m)
      && Buf(r) == Buf(s1)
      && Cur(r).(src := Cur(s1).src, key := Cur(s1).key, tag := Cur(s1).tag) == Cur(s1)
    ensures Degenerate(cfg, m) ==>
      && !r.visible && r.key == EmptyKey
      && Cur(r).key == EmptyKey && Cur(r).tag.None? && Cur(r).src == EmptyImageUrl
      && r.events == s.events && r.calls == s.calls
    ensures !Degenerate(cfg, m) ==>
      && r.visible == s.visible
      && r.events == s.events + [Loading]
      && |r.calls| == |s.calls| + 1 && r.calls[..|s.calls|] == s.calls
      && var c := r.calls[|s.calls|];
         && c.key == r.key && c.target == s.current && c.async == p.Async?
         && c.bounds == RequestBounds(cfg, m)
         && c.width == r.key.width && c.height == r.key.height
    ensures !Degenerate(cfg, m) && p.Sync? ==>
      Cur(r).key == r.key && Cur(r).src == p.getImageUrl(RequestBounds(cfg, m), r.key.width, r.key.height)
    ensures !Degenerate(cfg, m) && p.Async? ==>
      Cur(r).key == Cur(s).key && Cur(r).src == Cur(s).src && Cur(r).tag == Cur(s).tag
  {
    var s1 := PrepareState(s, cfg, m);
    var k := RequestedKey(cfg, m);
    if k == EmptyKey then HideState(s1)
    else RequestState(s1, RequestBounds(cfg, m), k.width, k.height, k, p)
  }

  /**
   * An update is its preparation followed by the request branch when the
   * clipped pixel size and the zoom allow it, and by the degenerate branch
   * otherwise.
   */
  lemma UpdateInSteps(s: State, s1: State, r: State, cfg: Config, m: MapView, p: Provider,
                      bounds: LatLngBounds, width: real, height: real, scale: real)
    requires bounds == RequestBounds(cfg, m) && PixelSize(m, bounds) == Point(width, height)
    requires scale == ImageScale(cfg)
    requires s1 == PrepareState(s, cfg, m)
    requires Degenerate(cfg, m) ==> r == HideState(s1)
    requires !Degenerate(cfg, m) ==>
      r == RequestState(s1, bounds, width * scale, height * scale,
                        RequestKey(bounds.NorthWest(), bounds.SouthEast(), width * scale, height * scale), p)
    ensures r == UpdateState(s, cfg, m, p)
  {
    if !Degenerate(cfg, m) {
      var k := RequestedKey(cfg, m);
      assert k.width == width * scale && k.height == height * scale;
      assert k == RequestKey(bounds.NorthWest(), bounds.SouthEast(), width * scale, height * scale);
    }
  }

  /**
   * The callback handed to `getImageUrlAsync` for call `n`: it writes the
   * key, url and tag it is given into the slot the call was made for,
   * whatever has happened since.
   */
  function CallbackState(s: State, n: nat, key: Key, url: Url, tag: Option<Tag>): (r: State)
    requires n < |s.calls| && s.calls[n].async
    ensures Inv(s) ==> Inv(r)
    ensures var t := s.calls[n].target;
      && Slot(r, t) == Slot(s, t).(key := key, src := url, tag := tag)
      && Slot(r, Other(t)) == Slot(s, Other(t))
    ensures r.(a := s.a, b := s.b) == s
  {
    var t := s.calls[n].target;
    WithSlot(s, t, Slot(s, t).(key := key, src := url, tag := tag))
  }

  /**
   * `_onImageDone` (and `_renderCanvas`): the current slot is shown, the
   * buffer hidden, the hook sees the current slot's tag, the two roles swap,
   * and the container becomes visible unless the completed image carries
   * the empty sentinel.
   */
  function DoneState(s: State, cfg: Config, t: SlotId): (r: State)
    ensures Inv(s) ==> Inv(r)
    ensures Settled(r)
    ensures r.current == Other(s.current)
    ensures Buf(r) == Cur(s).(opacity := 1.0) && Cur(r) == Buf(s).(opacity := 0.0)
    ensures r.visible == (s.visible || Slot(s, t).key != EmptyKey)
    ensures r.key == s.key && r.calls == s.calls
    ensures r.events == s.events + (if cfg.options.hasInteraction && Cur(s).tag.Some? then [Interaction(Cur(s).tag.value)] else [])
  {
    var t0 := s.current;
    var s1 := WithSlot(WithSlot(s, t0, Cur(s).(opacity := 1.0)), Other(t0), Buf(s).(opacity := 0.0));
    var hook := if cfg.options.hasInteraction && Cur(s).tag.Some? then [Interaction(Cur(s).tag.value)] else [];
    s1.(events := s.events + hook, current := Other(t0),
        visible := if Slot(s, t).key != EmptyKey then true else s.visible)
  }

  /** The completion passes the guard: it is the error image, or its key is set and is the latest key. */
  predicate Accepted(s: State, cfg: Config, t: SlotId)
  {
    var v := Slot(s, t);
    v.src == cfg.options.errorImageUrl || (v.key != NoKey && v.key == s.key)
  }

  /**
   * `_onImageLoad` on slot `t`: unless the error image loaded, the invalid
   * mark is cleared and an outdated or unkeyed image is dropped silently;
   * otherwise the layer finalizes and fires `load`.
   */
  function LoadState(s: State, cfg: Config, t: SlotId): (r: State)
    ensures Inv(s) ==> Inv(r)
    ensures !Accepted(s, cfg, t) ==> r == WithSlot(s, t, Slot(s, t).(invalid := false))
    ensures Accepted(s, cfg, t) ==>
      && r.current == Other(s.current) && Settled(r)
      && |r.events| > 0 && r.events[|r.events| - 1] == Load(t)
    ensures r.key == s.key && r.calls == s.calls
  {
    var s1 := AdmitState(s, cfg, t);
    if Accepted(s, cfg, t) then
      var s2 := DoneState(s1, cfg, t);
      s2.(events := s2.events + [Load(t)])
    else s1
  }

  /** The first step of `_onImageLoad`: any image but the error image loses its invalid mark. */
  function AdmitState(s: State, cfg: Config, t: SlotId): (r: State)
    ensures Inv(s) ==> Inv(r)
    ensures Slot(s, t).src != cfg.options.errorImageUrl ==> r == WithSlot(s, t, Slot(s, t).(invalid := false))
    ensures Slot(s, t).src == cfg.options.errorImageUrl ==> r == s
  {
    var v := Slot(s, t);
    if v.src != cfg.options.errorImageUrl then WithSlot(s, t, v.(invalid := false)) else s
  }

  /**
   * `_onImageError` on slot `t`: fires `error`, marks the image invalid and
   * substitutes the error image, unless that is what failed.
   */
  function ErrorState(s: State, cfg: Config, t: SlotId): (r: State)
    ensures Inv(s) ==> Inv(r)
    ensures r.events == s.events + [Error(t)]
    ensures Slot(r, t).invalid && Slot(r, t).src == cfg.options.errorImageUrl
    ensures Slot(r, t).(invalid := Slot(s, t).invalid, src := Slot(s, t).src) == Slot(s, t)
    ensures Slot(r, Other(t)) == Slot(s, Other(t))
    ensures r.current == s.current && r.key == s.key && r.visible == s.visible && r.calls == s.calls
  {
    var v := Slot(s, t).(invalid := true);
    var v1 := if v.src != cfg.options.errorImageUrl then v.(src := cfg.options.errorImageUrl) else v;
    WithSlot(s, t, v1).(events := s.events + [Error(t)])
  }

  /** `_setZoom`: every slot that has bounds is rescaled against its baseline. */
  function SetZoomState(s: State, m: MapView): (r: State)
    requires Inv(s)
    ensures Inv(r)
    ensures forall t :: Slot(s, t).bounds.Some? ==> Slot(r, t) == ResetImageScale(Slot(s, t), m)
    ensures forall t :: Slot(s, t).bounds.None? ==> Slot(r, t) == Slot(s, t)
    ensures r.(a := s.a, b := s.b) == s
  {
    var a := if s.a.bounds.Some? then ResetImageScale(s.a, m) else s.a;
    var b := if s.b.bounds.Some? then ResetImageScale(s.b, m) else s.b;
    s.(a := a, b := b)
  }

  /** `_animateZoom`: every slot that has bounds follows the zoom frame. */
  function AnimateZoomState(s: State, f: ZoomFrame): (r: State)
    ensures Inv(s) ==> Inv(r)
    ensures forall t :: Slot(s, t).bounds.Some? ==> Slot(r, t) == AnimateImage(Slot(s, t), f)
    ensures forall t :: Slot(s, t).bounds.None? ==> Slot(r, t) == Slot(s, t)
    ensures r.(a := s.a, b := s.b) == s
  {
    var a := if s.a.bounds.Some? then AnimateImage(s.a, f) else s.a;
    var b := if s.b.bounds.Some? then AnimateImage(s.b, f) else s.b;
    s.(a := a, b := b)
  }

  // ---------------------------------------------------------------------
  // Runs: any interleaving of host callbacks
  // ---------------------------------------------------------------------

  /** One callback the host may deliver. */
  datatype Step =
    | ViewChange(m: MapView, p: Provider)                        // `moveend` or `redraw`
    | Callback(n: nat, key: Key, url: Url, tag: Option<Tag>)     // the async provider answers call n
    | ImageLoad(t: SlotId)
    | ImageError(t: SlotId)
    | Zoom(m: MapView)                                           // discrete zoom change
    | ZoomAnim(f: ZoomFrame)                                     // one zoom animation frame

  /** The effect of one step; a callback for a call that was never made, or made synchronously, does not exist. */
  function Apply(s: State, cfg: Config, step: Step): (r: State)
    requires Inv(s)
    ensures Inv(r)
    ensures !step.ViewChange? ==> r.key == s.key && r.calls == s.calls
  {
    match step
    case ViewChange(m, p) => UpdateState(s, cfg, m, p)
    case Callback(n, key, url, tag) =>
      if n < |s.calls| && s.calls[n].async then CallbackState(s, n, key, url, tag) else s
    case ImageLoad(t) => LoadState(s, cfg, t)
    case ImageError(t) => ErrorState(s, cfg, t)
    case Zoom(m) => SetZoomState(s, m)
    case ZoomAnim(f) => AnimateZoomState(s, f)
  }

  /** The state after a sequence of callbacks. */
  function Run(s: State, cfg: Config, steps: seq<Step>): (r: State)
    requires Inv(s)
    ensures Inv(r)
    ensures |r.calls| >= |s.calls| && r.calls[..|s.calls|] == s.calls
    decreases |steps|
  {
    if steps == [] then s else Run(Apply(s, cfg, steps[0]), cfg, steps[1..])
  }

  /** The key set by the last view change among `steps`, or `k` when there is none. */
  function LastKey(k: Key, cfg: Config, steps: seq<Step>): Key
    decreases |steps|
  {
    if steps == [] then k
    else LastKey(if steps[0].ViewChange? then RequestedKey(cfg, steps[0].m) else k, cfg, steps[1..])
  }

  /** Whatever else happened, the layer key is the key of the latest view change. */
  lemma {:induction false} KeyIsLastRequested(s: State, cfg: Config, steps: seq<Step>)
    requires Inv(s)
    ensures Run(s, cfg, steps).key == LastKey(s.key, cfg, steps)
    decreases |steps|
  {
    if steps != [] {
      var s1 := Apply(s, cfg, steps[0]);
      assert s1.key == if steps[0].ViewChange? then RequestedKey(cfg, steps[0].m) else s.key;
      KeyIsLastRequested(s1, cfg, steps[1..]);
    }
  }

  /**
   * Only the latest key swaps: after any run, a load that swaps the two
   * slots is either the error image or an image carrying the key of the
   * latest view change.
   */
  lemma OnlyLatestKeySwaps(s: State, cfg: Config, steps: seq<Step>, t: SlotId)
    requires Inv(s)
    ensures var r := Run(s, cfg, steps);
      Apply(r, cfg, ImageLoad(t)).current != r.current ==>
        || Slot(r, t).src == cfg.options.errorImageUrl
        || (Slot(r, t).key != NoKey && Slot(r, t).key == LastKey(s.key, cfg, steps))
  {
    KeyIsLastRequested(s, cfg, steps);
  }

  /** Every step keeps exactly one slot on screen. */
  lemma ApplyKeepsSettled(s: State, cfg: Config, step: Step)
    requires Inv(s) && Settled(s)
    ensures Settled(Apply(s, cfg, step))
  {
    match step
    case ViewChange(m, p) =>
      var s1 := PrepareState(s, cfg, m);
      assert Buf(s1).opacity == 1.0;
    case Callback(n, key, url, tag) =>
    case ImageLoad(t) =>
    case ImageError(t) =>
    case Zoom(m) =>
      forall u ensures Slot(SetZoomState(s, m), u).opacity == Slot(s, u).opacity {}
    case ZoomAnim(f) =>
      forall u ensures Slot(AnimateZoomState(s, f), u).opacity == Slot(s, u).opacity {}
  }

  lemma {:induction false} RunKeepsSettled(s: State, cfg: Config, steps: seq<Step>)
    requires Inv(s) && Settled(s)
    ensures Settled(Run(s, cfg, steps))
    decreases |steps|
  {
    if steps != [] {
      ApplyKeepsSettled(s, cfg, steps[0]);
      RunKeepsSettled(Apply(s, cfg, steps[0]), cfg, steps[1..]);
    }
  }

  /**
   * From the first update in `onAdd` on, in every reachable state exactly
   * one slot is on screen (opacity 1) and the other is hidden (opacity 0).
   */
  lemma OneSlotVisibleAfterOnAdd(cfg: Config, m: MapView, p: Provider, steps: seq<Step>)
    ensures Inv(UpdateState(Initial, cfg, m, p))
    ensures var s0 := UpdateState(Initial, cfg, m, p);
      && Settled(Run(s0, cfg, steps))
      && var r := Run(s0, cfg, steps);
         (Slot(r, A).opacity == 1.0 && Slot(r, B).opacity == 0.0) || (Slot(r, A).opacity == 0.0 && Slot(r, B).opacity == 1.0)
  {
    var s0 := UpdateState(Initial, cfg, m, p);
    assert Buf(s0).opacity == Buf(PrepareState(Initial, cfg, m)).opacity == 1.0;
    RunKeepsSettled(s0, cfg, steps);
  }

  /** Two finalizes restore the original roles, and from a settled state the original slots. */
  lemma TwoSwapsRestoreRoles(s: State, cfg: Config, t1: SlotId, t2: SlotId)
    ensures var r := DoneState(DoneState(s, cfg, t1), cfg, t2);
      && r.current == s.current
      && Cur(r) == Cur(s).(opacity := 0.0) && Buf(r) == Buf(s).(opacity := 1.0)
      && (Settled(s) ==> r.a == s.a && r.b == s.b)
  {
  }

  /** A second error on the same image only fires `error` again: the error image is substituted once. */
  lemma ErrorNeverLoops(s: State, cfg: Config, t: SlotId)
    ensures var r1 := ErrorState(s, cfg, t);
      ErrorState(r1, cfg, t) == r1.(events := r1.events + [Error(t)])
  {
  }

  /** A degenerate update repeated with the same viewport changes nothing more. */
  lemma DegenerateUpdateIdempotent(s: State, cfg: Config, m: MapView, p: Provider)
    requires Degenerate(cfg, m)
    ensures var r := UpdateState(s, cfg, m, p);
      UpdateState(r, cfg, m, p) == r
  {
    var r := UpdateState(s, cfg, m, p);
    var r2 := UpdateState(r, cfg, m, p);
    assert Buf(r2) == Buf(r);
    assert Cur(r2) == Cur(r);
    if s.current == A { assert r2.a == r.a && r2.b == r.b; } else { assert r2.a == r.a && r2.b == r.b; }
  }

  /**
   * A run of degenerate view changes never calls the provider and never
   * fires `loading`; it leaves the layer hidden under the empty sentinel.
   */
  lemma {:induction false} DegenerateRunNeverFetches(s: State, cfg: Config, steps: seq<Step>)
    requires Inv(s)
    requires forall i :: 0 <= i < |steps| ==> steps[i].ViewChange? && Degenerate(cfg, steps[i].m)
    ensures var r := Run(s, cfg, steps);
      && r.calls == s.calls && r.events == s.events
      && (steps != [] ==> r.key == EmptyKey && !r.visible && Cur(r).key == EmptyKey)
    decreases |steps|
  {
    if steps != [] {
      var s1 := Apply(s, cfg, steps[0]);
      assert steps[0].ViewChange? && Degenerate(cfg, steps[0].m);
      if |steps| > 1 {
        assert forall i :: 0 <= i < |steps[1..]| ==> steps[1..][i] == steps[i + 1];
      }
      DegenerateRunNeverFetches(s1, cfg, steps[1..]);
    }
  }

  // ---------------------------------------------------------------------
  // Scenarios
  // ---------------------------------------------------------------------

  /**
   * A synchronous request that loads: `loading` fires once, the image is
   * requested at the clipped pixel size times the image scale, and its
   * load swaps it on screen, fires `load` and makes the layer visible.
   */
  lemma SyncRequestCompletes(s: State, cfg: Config, m: MapView, getImageUrl: (LatLngBounds, real, real) -> Url)
    requires !Degenerate(cfg, m)
    requires getImageUrl(RequestBounds(cfg, m), RequestedKey(cfg, m).width, RequestedKey(cfg, m).height)
             != cfg.options.errorImageUrl
    ensures var k := RequestedKey(cfg, m);
      var r1 := UpdateState(s, cfg, m, Sync(getImageUrl));
      var r := LoadState(r1, cfg, s.current);
      && r1.calls == s.calls + [Call(RequestBounds(cfg, m), k.width, k.height, k, s.current, false)]
      && r.current == Other(s.current) && Settled(r) && r.visible
      && Buf(r).src == getImageUrl(RequestBounds(cfg, m), k.width, k.height) && Buf(r).key == k
      && r.events[..|s.events| + 1] == s.events + [Loading]
      && r.events[|r.events| - 1] == Load(s.current)
  {
    var k := RequestedKey(cfg, m);
    var r1 := UpdateState(s, cfg, m, Sync(getImageUrl));
    assert r1.calls == s.calls + [r1.calls[|s.calls|]];
    assert Accepted(r1, cfg, s.current);
    var s1 := WithSlot(r1, s.current, Slot(r1, s.current).(invalid := false));
    var d := DoneState(s1, cfg, s.current);
    assert d.events[..|s.events| + 1] == r1.events;
    assert LoadState(r1, cfg, s.current) == d.(events := d.events + [Load(s.current)]);
  }

  /**
   * Two view changes are made before either asynchronous answer arrives,
   * with keys K1 and then K2; K2's answer arrives and loads first, then
   * K1's.  K2's completion swaps and fires `load`; K1's completion neither
   * swaps nor fires anything.  But K1's callback has still written its url
   * into the slot both requests were made for, and after the swap that is
   * the slot on screen: the stale image replaces the fresh one.  This is
   * the `<img>` path (`useCanvas: false`, or no canvas support); on the
   * default canvas path the answer only rewrites the off-screen image, and
   * its load is dropped before anything is drawn.
   */
  lemma StaleAnswerReplacesScreen(s: State, cfg: Config, m1: MapView, m2: MapView,
                                  u1: Url, u2: Url, g1: Option<Tag>, g2: Option<Tag>)
    requires !Degenerate(cfg, m1) && !Degenerate(cfg, m2)
    requires RequestedKey(cfg, m1) != RequestedKey(cfg, m2)
    requires u1 != cfg.options.errorImageUrl && u2 != cfg.options.errorImageUrl
    ensures var n, t := |s.calls|, s.current;
      var s2 := UpdateState(UpdateState(s, cfg, m1, Async), cfg, m2, Async);
      && |s2.calls| == n + 2 && s2.calls[n].async && s2.calls[n + 1].async
      && var s4 := LoadState(CallbackState(s2, n + 1, RequestedKey(cfg, m2), u2, g2), cfg, t);
         && s4.current == Other(t) && |s4.events| > 0 && s4.events[|s4.events| - 1] == Load(t)
         && |s4.calls| == n + 2 && s4.calls[n].async
         && var s5 := CallbackState(s4, n, RequestedKey(cfg, m1), u1, g1);
            var s6 := LoadState(s5, cfg, t);
            && s6.current == s4.current && s6.events == s4.events
            && Buf(s6).src == u1 && Buf(s6).opacity == 1.0 && Buf(s6).key != s6.key
  {
    var n, t := |s.calls|, s.current;
    var s1 := UpdateState(s, cfg, m1, Async);
    var s2 := UpdateState(s1, cfg, m2, Async);
    assert s2.calls[..n + 1] == s1.calls;
    var s3 := CallbackState(s2, n + 1, RequestedKey(cfg, m2), u2, g2);
    assert Accepted(s3, cfg, t);
    var s4 := LoadState(s3, cfg, t);
    var s5 := CallbackState(s4, n, RequestedKey(cfg, m1), u1, g1);
    assert !Accepted(s5, cfg, t);
  }

  /**
   * The asynchronous callback with the staleness guard applied where it
   * evidently belongs: an answer whose key is no longer the layer key is
   * dropped before it touches any slot.
   */
  function GuardedCallbackState(s: State, n: nat, key: Key, url: Url, tag: Option<Tag>): (r: State)
    requires n < |s.calls| && s.calls[n].async
    ensures Inv(s) ==> Inv(r)
    ensures key != s.key ==> r == s
    ensures key == s.key ==>
      var t := s.calls[n].target;
      Slot(r, t) == Slot(s, t).(key := key, src := url, tag := tag) && Slot(r, Other(t)) == Slot(s, Other(t))
    ensures r.(a := s.a, b := s.b) == s
  {
    if key != s.key then s else CallbackState(s, n, key, url, tag)
  }

  /**
   * The same interleaving with the guarded callback: K1's late answer
   * changes nothing (so the browser has no new image to load either), and
   * the slot on screen keeps K2's image, whose key is the layer key.
   */
  lemma GuardedStaleAnswerKeepsScreen(s: State, cfg: Config, m1: MapView, m2: MapView,
                                      u1: Url, u2: Url, g1: Option<Tag>, g2: Option<Tag>)
    requires !Degenerate(cfg, m1) && !Degenerate(cfg, m2)
    requires RequestedKey(cfg, m1) != RequestedKey(cfg, m2)
    requires u1 != cfg.options.errorImageUrl && u2 != cfg.options.errorImageUrl
    ensures var n, t := |s.calls|, s.current;
      var s2 := UpdateState(UpdateState(s, cfg, m1, Async), cfg, m2, Async);
      && |s2.calls| == n + 2 && s2.calls[n].async && s2.calls[n + 1].async
      && var s4 := LoadState(GuardedCallbackState(s2, n + 1, RequestedKey(cfg, m2), u2, g2), cfg, t);
         && s4.current == Other(t) && |s4.events| > 0 && s4.events[|s4.events| - 1] == Load(t)
         && |s4.calls| == n + 2 && s4.calls[n].async
         && var s5 := GuardedCallbackState(s4, n, RequestedKey(cfg, m1), u1, g1);
            && s5 == s4
            && Buf(s5).src == u2 && Buf(s5).opacity == 1.0 && Buf(s5).key == s5.key == RequestedKey(cfg, m2)
  {
    var n, t := |s.calls|, s.current;
    var s1 := UpdateState(s, cfg, m1, Async);
    var s2 := UpdateState(s1, cfg, m2, Async);
    assert s2.calls[..n + 1] == s1.calls;
    var s3 := GuardedCallbackState(s2, n + 1, RequestedKey(cfg, m2), u2, g2);
    assert Accepted(s3, cfg, t);
  }
}

/**
 * The first version of the layer (`NonTiledLayer.js`) as a state machine on
 * values.  It has no request key: the layer remembers the url of the latest
 * request in `url`, and an image completes only when its `src` is that url.
 * An image that fails is replaced by the error image and still completes.
 * `LegacyNonTiledLayer.Layer` implements each step in place and is proved
 * against these functions.
 *
 * As in the current version, the CURRENT slot is the one a request loads
 * into (opacity 0) and the BUFFER slot is the one on screen; a finalize
 * swaps them.
 */
module LegacyOverlay {
  import opened Common
  import opened Geo
  import opened Clip
  import Overlay

  type Url = Overlay.Url
  type Tag = Overlay.Tag
  type SlotId = Overlay.SlotId
  type MapView = Overlay.MapView

  /** The layer options this version reads (`attribution`, `opacity`, `zIndex` and `pointerEvents` only style the container). */
  datatype Options = Options(
    minZoom: real,
    maxZoom: real,
    bounds: LatLngBounds,
    errorImageUrl: Url,
    hasInteraction: bool)

  const DefaultOptions: Options :=
    Options(0.0, 18.0, LatLngBounds(-85.05, -180.0, 85.05, 180.0), Overlay.EmptyImageUrl, false)

  /**
   * One image: the geographic bounds it was last requested for, the pixel
   * position and size `_resetImage` gave it, its opacity, its `src`, the tag
   * an asynchronous provider attached, and its `invalid` class.
   */
  datatype SlotState = SlotState(
    bounds: Option<LatLngBounds>,
    position: Option<Point>,
    size: Option<Point>,
    opacity: real,
    src: Url,
    tag: Option<Tag>,
    invalid: bool)

  /** A freshly created image: nothing set, fully opaque by default. */
  const FreshSlot: SlotState := SlotState(None, None, None, 1.0, "", None, false)

  /** Events fired by the layer, and calls of the optional `_addInteraction` hook. */
  datatype Event = Load(target: SlotId) | Error(target: SlotId) | Interaction(tag: Option<Tag>)

  /** A call of the image-url provider: the corners and pixel size asked for, and the slot it was made for. */
  datatype Call = Call(nw: LatLng, se: LatLng, width: real, height: real, target: SlotId, async: bool)

  /** `getImageUrl(nw, se, width, height)` or `getImageUrlAsync`, whichever the concrete layer defines. */
  datatype Provider = Sync(getImageUrl: (LatLng, LatLng, real, real) -> Url) | Async

  /** Both slots, which one is current, the url of the latest request, the container's visibility, and the logs. */
  datatype State = State(
    a: SlotState,
    b: SlotState,
    current: SlotId,
    url: Url,
    visible: bool,
    events: seq<Event>,
    calls: seq<Call>)

  function Slot(s: State, t: SlotId): SlotState
  {
    if t == Overlay.A then s.a else s.b
  }

  function WithSlot(s: State, t: SlotId, v: SlotState): (r: State)
    ensures Slot(r, t) == v && Slot(r, Overlay.Other(t)) == Slot(s, Overlay.Other(t))
    ensures r.current == s.current && r.url == s.url && r.visible == s.visible
    ensures r.events == s.events && r.calls == s.calls
  {
    if t == Overlay.A then s.(a := v) else s.(b := v)
  }

  function Cur(s: State): SlotState { Slot(s, s.current) }
  function Buf(s: State): SlotState { Slot(s, Overlay.Other(s.current)) }

  /** The layer right after `onAdd` created its two images (the buffer first), before the first update. */
  const Initial: State := State(FreshSlot, FreshSlot, Overlay.B, "", true, [], [])

  /** An image that has bounds has been placed and sized. */
  ghost predicate SlotInv(v: SlotState)
  {
    v.bounds.Some? ==> v.position.Some? && v.size.Some?
  }

  ghost predicate Inv(s: State)
  {
    SlotInv(s.a) && SlotInv(s.b)
  }

  /** Exactly one image is on screen: the buffer at opacity 1, the current one at 0. */
  ghost predicate Settled(s: State)
  {
    Cur(s).opacity == 0.0 && Buf(s).opacity == 1.0
  }

  // ---------------------------------------------------------------------
  // The request derived from the viewport
  // ---------------------------------------------------------------------

  /** The bounds an update requests: the viewport clipped to the layer bounds. */
  function RequestBounds(opts: Options, m: MapView): LatLngBounds
  {
    ClippedBounds(m.bounds, opts.bounds)
  }

  predicate ZoomOutOfRange(opts: Options, m: MapView)
  {
    m.zoom < opts.minZoom || m.zoom > opts.maxZoom
  }

  /** The clipped image would be under 32 container pixels wide or high. */
  predicate TooSmall(opts: Options, m: MapView)
  {
    var size := Overlay.PixelSize(m, RequestBounds(opts, m));
    size.x < Overlay.MinPixelSize || size.y < Overlay.MinPixelSize
  }

  /** The update reaches the provider. */
  predicate Requests(opts: Options, m: MapView)
  {
    !ZoomOutOfRange(opts, m) && !TooSmall(opts, m)
  }

  /** `_resetImage`: place the image at the top-left of its bounds in layer pixels and give it their size. */
  function ResetImage(v: SlotState, m: MapView): (r: SlotState)
    requires v.bounds.Some?
    ensures SlotInv(r)
    ensures var pb := PixelBoundsOf(m.layerPoint(v.bounds.value.NorthWest()), m.layerPoint(v.bounds.value.SouthEast()));
      r.position == Some(pb.min) && r.size == Some(Size(pb))
    ensures r.(position := v.position, size := v.size) == v
  {
    var pb := PixelBoundsOf(m.layerPoint(v.bounds.value.NorthWest()), m.layerPoint(v.bounds.value.SouthEast()));
    v.(position := Some(pb.min), size := Some(Size(pb)))
  }

  // ---------------------------------------------------------------------
  // The callbacks
  // ---------------------------------------------------------------------

  /** The part of `_update` that runs whenever the zoom is in range: show the container and re-place the buffer. */
  function PrepareState(s: State, m: MapView): (r: State)
    ensures Inv(s) ==> Inv(r)
    ensures r.visible && r.current == s.current && r.url == s.url && Cur(r) == Cur(s)
    ensures Buf(r) == if Buf(s).bounds.Some? then ResetImage(Buf(s), m) else Buf(s)
    ensures r.events == s.events && r.calls == s.calls
  {
    var s1 := s.(visible := true);
    if Buf(s1).bounds.Some? then WithSlot(s1, Overlay.Other(s.current), ResetImage(Buf(s1), m)) else s1
  }

  /**
   * The request branch of `_update`: the current image gets the clipped
   * bounds and is placed, the provider is called for it (a synchronous
   * provider sets its `src` at once), its `src` at that moment becomes the
   * layer's `url`, and it is hidden.
   */
  function RequestState(s: State, bounds: LatLngBounds, width: real, height: real, m: MapView, p: Provider): (r: State)
    ensures Inv(s) ==> Inv(r)
    ensures r.current == s.current && r.visible == s.visible && r.events == s.events && Buf(r) == Buf(s)
    ensures r.calls == s.calls + [Call(bounds.NorthWest(), bounds.SouthEast(), width, height, s.current, p.Async?)]
    ensures Cur(r).bounds == Some(bounds) && Cur(r).opacity == 0.0 && r.url == Cur(r).src
    ensures SlotInv(Cur(r)) && Cur(r).tag == Cur(s).tag && Cur(r).invalid == Cur(s).invalid
    ensures p.Sync? ==> Cur(r).src == p.getImageUrl(bounds.NorthWest(), bounds.SouthEast(), width, height)
    ensures p.Async? ==> Cur(r).src == Cur(s).src
  {
    var placed := ResetImage(Cur(s).(bounds := Some(bounds)), m);
    var requested := match p
      case Sync(getImageUrl) => placed.(src := getImageUrl(bounds.NorthWest(), bounds.SouthEast(), width, height))
      case Async => placed;
    WithSlot(s, s.current, requested.(opacity := 0.0))
      .(url := requested.src,
        calls := s.calls + [Call(bounds.NorthWest(), bounds.SouthEast(), width, height, s.current, p.Async?)])
  }

  /**
   * `_update`, run on every `moveend` and redraw.  Out of the zoom range it
   * only hides the container.  Otherwise the container is shown and the
   * buffer re-placed; an image under 32 pixels is not requested, and
   * neither the current image nor `url` changes; else the provider is
   * called once for the current image, `url` becomes its `src` and it is
   * hidden until it loads.
   */
  function UpdateState(s: State, opts: Options, m: MapView, p: Provider): (r: State)
    ensures Inv(s) ==> Inv(r)
    ensures ZoomOutOfRange(opts, m) ==> r == s.(visible := false)
    ensures !ZoomOutOfRange(opts, m) ==>
      && r.visible && r.current == s.current && r.events == s.events
      && Buf(r) == (if Buf(s).bounds.Some? then ResetImage(Buf(s), m) else Buf(s))
    ensures !ZoomOutOfRange(opts, m) && TooSmall(opts, m) ==>
      Cur(r) == Cur(s) && r.url == s.url && r.calls == s.calls
    ensures Requests(opts, m) ==>
      var b := RequestBounds(opts, m);
      var size := Overlay.PixelSize(m, b);
      && r.calls == s.calls + [Call(b.NorthWest(), b.SouthEast(), size.x, size.y, s.current, p.Async?)]
      && Cur(r).bounds == Some(b) && Cur(r).opacity == 0.0 && r.url == Cur(r).src
      && (p.Sync? ==> Cur(r).src == p.getImageUrl(b.NorthWest(), b.SouthEast(), size.x, size.y))
      && (p.Async? ==> Cur(r).src == Cur(s).src && Cur(r).tag == Cur(s).tag)
  {
    if ZoomOutOfRange(opts, m) then s.(visible := false)
    else
      var s1 := PrepareState(s, m);
      var bounds := RequestBounds(opts, m);
      var size := Overlay.PixelSize(m, bounds);
      if size.x < Overlay.MinPixelSize || size.y < Overlay.MinPixelSize then s1
      else RequestState(s1, bounds, size.x, size.y, m, p)
  }

  /**
   * The callback handed to `getImageUrlAsync` by call `n`, as written: it
   * sets the `src` and tag of the image the call was made for.  It does not
   * touch `url`, which `_update` set before the answer came.
   */
  function CallbackState(s: State, n: nat, url: Url, tag: Option<Tag>): (r: State)
    requires n < |s.calls| && s.calls[n].async
    ensures Inv(s) ==> Inv(r)
    ensures var t := s.calls[n].target;
      && Slot(r, t) == Slot(s, t).(src := url, tag := tag)
      && Slot(r, Overlay.Other(t)) == Slot(s, Overlay.Other(t))
    ensures r.(a := s.a, b := s.b) == s
  {
    var t := s.calls[n].target;
    WithSlot(s, t, Slot(s, t).(src := url, tag := tag))
  }

  /**
   * `_onImageDone`: show the current image, hide the buffer, hand the
   * current image's tag to the interaction hook, swap the roles and fire
   * `load` for the image that completed.
   */
  function DoneState(s: State, opts: Options, t: SlotId): (r: State)
    ensures Inv(s) ==> Inv(r)
    ensures Settled(r) && r.current == Overlay.Other(s.current)
    ensures Buf(r) == Cur(s).(opacity := 1.0) && Cur(r) == Buf(s).(opacity := 0.0)
    ensures r.url == s.url && r.visible == s.visible && r.calls == s.calls
    ensures r.events == s.events + (if opts.hasInteraction then [Interaction(Cur(s).tag)] else []) + [Load(t)]
  {
    var t0 := s.current;
    var s1 := WithSlot(WithSlot(s, t0, Cur(s).(opacity := 1.0)), Overlay.Other(t0), Buf(s).(opacity := 0.0));
    var hook := if opts.hasInteraction then [Interaction(Cur(s).tag)] else [];
    s1.(current := Overlay.Other(t0), events := s.events + hook + [Load(t)])
  }

  /** A load passes the guard: it is not the error image, and its `src` is the url of the latest request. */
  predicate Accepted(s: State, opts: Options, t: SlotId)
  {
    Slot(s, t).src != opts.errorImageUrl && Slot(s, t).src == s.url
  }

  /** The first step of `_onImageLoad`: any image but the error image loses its invalid mark. */
  function AdmitState(s: State, opts: Options, t: SlotId): (r: State)
    ensures Inv(s) ==> Inv(r)
    ensures Slot(s, t).src != opts.errorImageUrl ==> r == WithSlot(s, t, Slot(s, t).(invalid := false))
    ensures Slot(s, t).src == opts.errorImageUrl ==> r == s
  {
    if Slot(s, t).src != opts.errorImageUrl then WithSlot(s, t, Slot(s, t).(invalid := false)) else s
  }

  /**
   * `_onImageLoad` on slot `t`: the load of the error image does nothing; any
   * other image loses its invalid mark and completes exactly when its `src`
   * is the latest url.
   */
  function LoadState(s: State, opts: Options, t: SlotId): (r: State)
    ensures Inv(s) ==> Inv(r)
    ensures r.current != s.current <==> Accepted(s, opts, t)
    ensures Slot(s, t).src == opts.errorImageUrl ==> r == s
    ensures !Accepted(s, opts, t) ==> r == AdmitState(s, opts, t) && r.events == s.events
    ensures Accepted(s, opts, t) ==> Settled(r) && |r.events| > 0 && r.events[|r.events| - 1] == Load(t)
    ensures r.url == s.url && r.calls == s.calls
  {
    var s1 := AdmitState(s, opts, t);
    if Accepted(s, opts, t) then DoneState(s1, opts, t) else s1
  }

  /**
   * `_onImageError` on slot `t`: fire `error` and mark the image invalid;
   * unless the error image itself failed, substitute it and complete anyway.
   */
  function ErrorState(s: State, opts: Options, t: SlotId): (r: State)
    ensures Inv(s) ==> Inv(r)
    ensures Slot(s, t).src == opts.errorImageUrl ==>
      r == WithSlot(s, t, Slot(s, t).(invalid := true)).(events := s.events + [Error(t)])
    ensures Slot(s, t).src != opts.errorImageUrl ==>
      && r.current == Overlay.Other(s.current) && Settled(r)
      && Slot(r, t).src == opts.errorImageUrl && Slot(r, t).invalid
      && |r.events| > |s.events| + 1
      && r.events[..|s.events| + 1] == s.events + [Error(t)] && r.events[|r.events| - 1] == Load(t)
    ensures r.url == s.url && r.calls == s.calls && r.visible == s.visible
  {
    var v := Slot(s, t);
    var s1 := WithSlot(s, t, v.(invalid := true)).(events := s.events + [Error(t)]);
    if v.src != opts.errorImageUrl then
      var s2 := WithSlot(s1, t, Slot(s1, t).(src := opts.errorImageUrl));
      var r := DoneState(s2, opts, t);
      assert r.events[..|s.events| + 1] == s.events + [Error(t)];
      r
    else s1
  }

  /** `_viewreset`, on a discrete zoom change: re-place every image that has bounds, the buffer first. */
  function ViewResetState(s: State, m: MapView): (r: State)
    ensures Inv(s) ==> Inv(r)
    ensures forall t :: Slot(s, t).bounds.Some? ==> Slot(r, t) == ResetImage(Slot(s, t), m)
    ensures forall t :: Slot(s, t).bounds.None? ==> Slot(r, t) == Slot(s, t)
    ensures r.(a := s.a, b := s.b) == s
  {
    var a := if s.a.bounds.Some? then ResetImage(s.a, m) else s.a;
    var b := if s.b.bounds.Some? then ResetImage(s.b, m) else s.b;
    s.(a := a, b := b)
  }

  // ---------------------------------------------------------------------
  // Runs: any interleaving of host callbacks
  // ---------------------------------------------------------------------

  datatype Step =
    | ViewChange(m: MapView, p: Provider)                  // `moveend` or `redraw`
    | Callback(n: nat, url: Url, tag: Option<Tag>)         // the async provider answers call n
    | ImageLoad(t: SlotId)
    | ImageError(t: SlotId)
    | ViewReset(m: MapView)                                // `zoom`

  /** The effect of one step; a callback for a call that was never made, or made synchronously, does not exist. */
  function Apply(s: State, opts: Options, step: Step): (r: State)
    requires Inv(s)
    ensures Inv(r)
    ensures !step.ViewChange? ==> r.url == s.url && r.calls == s.calls
  {
    match step
    case ViewChange(m, p) => UpdateState(s, opts, m, p)
    case Callback(n, url, tag) =>
      if n < |s.calls| && s.calls[n].async then CallbackState(s, n, url, tag) else s
    case ImageLoad(t) => LoadState(s, opts, t)
    case ImageError(t) => ErrorState(s, opts, t)
    case ViewReset(m) => ViewResetState(s, m)
  }

  function Run(s: State, opts: Options, steps: seq<Step>): (r: State)
    requires Inv(s)
    ensures Inv(r)
    decreases |steps|
  {
    if steps == [] then s else Run(Apply(s, opts, steps[0]), opts, steps[1..])
  }

  lemma ApplyKeepsSettled(s: State, opts: Options, step: Step)
    requires Inv(s) && Settled(s)
    ensures Settled(Apply(s, opts, step))
  {
    match step
    case ViewChange(m, p) =>
    case Callback(n, url, tag) =>
    case ImageLoad(t) =>
    case ImageError(t) =>
    case ViewReset(m) =>
      forall u ensures Slot(ViewResetState(s, m), u).opacity == Slot(s, u).opacity {}
  }

  lemma {:induction false} RunKeepsSettled(s: State, opts: Options, steps: seq<Step>)
    requires Inv(s) && Settled(s)
    ensures Settled(Run(s, opts, steps))
    decreases |steps|
  {
    if steps != [] {
      ApplyKeepsSettled(s, opts, steps[0]);
      RunKeepsSettled(Apply(s, opts, steps[0]), opts, steps[1..]);
    }
  }

  /**
   * After any run, a load that swaps the roles comes from an image that is
   * not the error image and whose `src` is the url taken at the latest
   * request, which only view changes replace.
   */
  lemma OnlyLatestUrlSwaps(s: State, opts: Options, steps: seq<Step>, t: SlotId)
    requires Inv(s)
    ensures var r := Run(s, opts, steps);
      Apply(r, opts, ImageLoad(t)).current != r.current ==>
        Slot(r, t).src != opts.errorImageUrl && Slot(r, t).src == r.url
  {
  }

  /**
   * Once an update has reached the provider, exactly one image is on
   * screen in every later state, whatever the host delivers.
   */
  lemma OneImageVisibleAfterRequest(s: State, opts: Options, m: MapView, p: Provider, steps: seq<Step>)
    requires Inv(s) && Requests(opts, m) && Buf(s).opacity == 1.0
    ensures var r := Run(UpdateState(s, opts, m, p), opts, steps);
      (Slot(r, Overlay.A).opacity == 1.0 && Slot(r, Overlay.B).opacity == 0.0)
      || (Slot(r, Overlay.A).opacity == 0.0 && Slot(r, Overlay.B).opacity == 1.0)
  {
    var s1 := UpdateState(s, opts, m, p);
    assert Settled(s1);
    RunKeepsSettled(s1, opts, steps);
  }

  /** Two finalizes restore the original roles, and from a settled state the original images. */
  lemma TwoSwapsRestoreRoles(s: State, opts: Options, t1: SlotId, t2: SlotId)
    ensures var r := DoneState(DoneState(s, opts, t1), opts, t2);
      && r.current == s.current
      && Cur(r) == Cur(s).(opacity := 0.0) && Buf(r) == Buf(s).(opacity := 1.0)
      && (Settled(s) ==> r.a == s.a && r.b == s.b)
  {
  }

  /** A second error on the same image only fires `error` again: the error image is substituted once. */
  lemma ErrorNeverLoops(s: State, opts: Options, t: SlotId)
    ensures var r1 := ErrorState(s, opts, t);
      ErrorState(r1, opts, t) == r1.(events := r1.events + [Error(t)])
  {
  }

  // ---------------------------------------------------------------------
  // Scenarios
  // ---------------------------------------------------------------------

  /** With a synchronous provider the requested image loads, swaps on screen and fires `load`. */
  lemma SyncRequestCompletes(s: State, opts: Options, m: MapView, getImageUrl: (LatLng, LatLng, real, real) -> Url)
    requires Requests(opts, m)
    requires var b := RequestBounds(opts, m);
      var size := Overlay.PixelSize(m, b);
      getImageUrl(b.NorthWest(), b.SouthEast(), size.x, size.y) != opts.errorImageUrl
    ensures var b := RequestBounds(opts, m);
      var size := Overlay.PixelSize(m, b);
      var r := LoadState(UpdateState(s, opts, m, Sync(getImageUrl)), opts, s.current);
      && r.current == Overlay.Other(s.current) && Settled(r)
      && Buf(r).src == getImageUrl(b.NorthWest(), b.SouthEast(), size.x, size.y)
      && r.events[|r.events| - 1] == Load(s.current)
  {
    assert Accepted(UpdateState(s, opts, m, Sync(getImageUrl)), opts, s.current);
  }

  /**
   * With an asynchronous provider, as written: `url` is read from the
   * image before the answer arrives, so it is the image's OLD `src`.  When
   * the answer sets a new `src` and that image loads, the load is taken to
   * be obsolete: nothing swaps, no `load` fires, and the new image stays
   * hidden at opacity 0.
   */
  lemma AsyncAnswerDiscarded(s: State, opts: Options, m: MapView, u: Url, g: Option<Tag>)
    requires Requests(opts, m)
    requires u != Cur(s).src && u != opts.errorImageUrl
    ensures var n, t := |s.calls|, s.current;
      var s1 := UpdateState(s, opts, m, Async);
      && n < |s1.calls| && s1.calls[n].async && s1.calls[n].target == t
      && var s3 := LoadState(CallbackState(s1, n, u, g), opts, t);
         && s3.current == t && s3.events == s1.events
         && Cur(s3).src == u && Cur(s3).opacity == 0.0 && s3.url != u
  {
    var n, t := |s.calls|, s.current;
    var s1 := UpdateState(s, opts, m, Async);
    assert s1.calls[n].target == t;
    var s2 := CallbackState(s1, n, u, g);
    assert !Accepted(s2, opts, t);
  }

  /**
   * The callback as evidently intended: the answer to the latest request
   * also becomes the layer's `url`, as the synchronous path has it at once.
   * An answer to an older request leaves `url` alone.
   */
  function RecordingCallbackState(s: State, n: nat, url: Url, tag: Option<Tag>): (r: State)
    requires n < |s.calls| && s.calls[n].async
    ensures Inv(s) ==> Inv(r)
    ensures var t := s.calls[n].target;
      && Slot(r, t) == Slot(s, t).(src := url, tag := tag)
      && Slot(r, Overlay.Other(t)) == Slot(s, Overlay.Other(t))
    ensures r.url == if n == |s.calls| - 1 then url else s.url
    ensures r.(a := s.a, b := s.b, url := s.url) == s
  {
    var r := CallbackState(s, n, url, tag);
    if n == |s.calls| - 1 then r.(url := url) else r
  }

  /** With the recording callback the asynchronous answer loads, swaps on screen and fires `load`. */
  lemma RecordedAsyncAnswerShown(s: State, opts: Options, m: MapView, u: Url, g: Option<Tag>)
    requires Requests(opts, m)
    requires u != opts.errorImageUrl
    ensures var n, t := |s.calls|, s.current;
      var s1 := UpdateState(s, opts, m, Async);
      && n < |s1.calls| && s1.calls[n].async && s1.calls[n].target == t
      && var s3 := LoadState(RecordingCallbackState(s1, n, u, g), opts, t);
         && s3.current == Overlay.Other(t) && Settled(s3)
         && Buf(s3).src == u && Buf(s3).tag == g && s3.url == u
         && s3.events[|s3.events| - 1] == Load(t)
  {
    var n, t := |s.calls|, s.current;
    var s1 := UpdateState(s, opts, m, Async);
    assert s1.calls[n].target == t;
    var s2 := RecordingCallbackState(s1, n, u, g);
    assert Accepted(s2, opts, t);
  }
}

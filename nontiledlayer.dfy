/**
 * The layer object itself: two image elements whose fields the callbacks
 * update in place, and a layer that holds the current/buffer roles, the
 * latest request key, the container's visibility and the event log.  Every
 * callback is proved to have exactly the effect of the matching step
 * function of `Overlay`, so the lemmas proved there (only the latest key
 * swaps, exactly one image on screen, the stale-callback interleaving) hold
 * of this implementation.
 */
module NonTiledLayer {
  import opened Common
  import opened Geo
  import opened Clip
  import Overlay

  /**
   * One `<img>` element.  Its `src`, its opacity, its `invalid` class and
   * the expando fields the layer keeps on it (`_bounds`, `_orgBounds`,
   * `_scale`, `_sscale`, `_lastScale`, `key`, `tag`, its CSS transform and
   * size) are one record, updated in place.
   */
  class Image {
    var state: Overlay.SlotState

    /** `_initImage`: an image with nothing requested yet. */
    constructor ()
      ensures state == Overlay.FreshSlot
    {
      state := Overlay.FreshSlot;
    }
  }

  class Layer {
    const options: Overlay.Options
    const retina: bool
    /** `getImageUrl` or `getImageUrlAsync`, whichever the concrete layer defines. */
    const provider: Overlay.Provider
    /** The image created first in `onAdd` (the first buffer) and the one created second. */
    const imageA: Image
    const imageB: Image
    var currentImage: Image
    var bufferImage: Image
    var key: Overlay.Key
    var visible: bool
    var events: seq<Overlay.Event>
    var calls: seq<Overlay.Call>

    /** The two roles are held by the two distinct images. */
    ghost predicate Valid()
      reads this
    {
      && imageA != imageB
      && ((currentImage == imageA && bufferImage == imageB) || (currentImage == imageB && bufferImage == imageA))
    }

    function Config(): Overlay.Config
    {
      Overlay.Config(options, retina)
    }

    /** Which physical image `image` is. */
    function IdOf(image: Image): Overlay.SlotId
    {
      if image == imageA then Overlay.A else Overlay.B
    }

    function ImageOf(t: Overlay.SlotId): (image: Image)
      ensures image == imageA || image == imageB
      ensures imageA != imageB ==> IdOf(image) == t
    {
      match t
      case A => imageA
      case B => imageB
    }

    /** The whole layer as a value. */
    function State(): Overlay.State
      reads this, imageA, imageB
    {
      Overlay.State(imageA.state, imageB.state, IdOf(currentImage), key, visible, events, calls)
    }

    /**
     * `initialize` followed by `onAdd`: the two images are created (the
     * first one as the buffer) and the first update runs.
     */
    constructor OnAdd(options: Overlay.Options, retina: bool, provider: Overlay.Provider, m: Overlay.MapView)
      ensures Valid() && fresh(imageA) && fresh(imageB)
      ensures this.options == options && this.retina == retina && this.provider == provider
      ensures State() == Overlay.UpdateState(Overlay.Initial, Overlay.Config(options, retina), m, provider)
    {
      this.options := options;
      this.retina := retina;
      this.provider := provider;
      var first := new Image();
      var second := new Image();
      imageA, imageB := first, second;
      bufferImage, currentImage := first, second;
      key := Overlay.NoKey;
      visible := true;
      events, calls := [], [];
      new;
      Update(m);
    }

    /** `_resetImage`: size and place the image at its bounds and take them as the zoom baseline. */
    method ResetImage(image: Image, m: Overlay.MapView)
      requires image.state.bounds.Some?
      modifies image
      ensures image.state == Overlay.ResetImage(old(image.state), m)
    {
      var b := image.state.bounds.value;
      var bounds := PixelBoundsOf(m.layerPoint(b.NorthWest()), m.layerPoint(b.SouthEast()));
      image.state := image.state.(transform := Some(Overlay.Transform(bounds.min, One)));
      image.state := image.state.(orgBounds := Some(bounds), sscale := One);
      image.state := image.state.(size := Some(Size(bounds)));
    }

    /** `_resetImageScale`: rescale the image against the baseline taken by `_resetImage`. */
    method ResetImageScale(image: Image, m: Overlay.MapView)
      requires image.state.bounds.Some? && image.state.orgBounds.Some?
      modifies image
      ensures image.state == Overlay.ResetImageScale(old(image.state), m)
    {
      var b := image.state.bounds.value;
      var bounds := PixelBoundsOf(m.layerPoint(b.NorthWest()), m.layerPoint(b.SouthEast()));
      var orgSize := Size(image.state.orgBounds.value).y;
      var scaledSize := Size(bounds).y;
      var scale := Div(scaledSize, orgSize);
      image.state := image.state.(sscale := scale);
      image.state := image.state.(transform := Some(Overlay.Transform(bounds.min, scale)));
    }

    /** `_animateImage`: follow one zoom animation frame. */
    method AnimateImage(image: Image, f: Overlay.ZoomFrame)
      requires image.state.bounds.Some?
      modifies image
      ensures image.state == Overlay.AnimateImage(old(image.state), f)
    {
      var v := image.state;
      var scale := if f.hasSetTransform then Mul(Mul(v.scale, v.sscale), Finite(f.zoomScale))
                   else Mul(v.scale, Finite(f.zoomScale));
      var topLeft := f.newLayerPoint(v.bounds.value.NorthWest());
      if f.hasSetTransform {
        image.state := image.state.(transform := Some(Overlay.Transform(topLeft, scale)));
      }
      image.state := image.state.(lastScale := scale);
    }

    /**
     * The first half of `_update`: the buffer keeps its last animated scale,
     * and the current image gets scale 1, the requested bounds, a fresh
     * pixel baseline, and opacity 0 before anything is requested.
     */
    method PrepareImages(bounds: LatLngBounds, m: Overlay.MapView)
      requires Valid() && bounds == Overlay.RequestBounds(Config(), m)
      modifies imageA, imageB
      ensures Valid() && State() == Overlay.PrepareState(old(State()), Config(), m)
    {
      ghost var r := Overlay.PrepareState(State(), Config(), m);
      bufferImage.state := bufferImage.state.(scale := bufferImage.state.lastScale);
      currentImage.state := currentImage.state.(scale := One);
      currentImage.state := currentImage.state.(lastScale := currentImage.state.scale);
      bufferImage.state := bufferImage.state.(sscale := One);
      currentImage.state := currentImage.state.(bounds := Some(bounds));
      ResetImage(currentImage, m);
      currentImage.state := currentImage.state.(opacity := 0.0);
      Same(r);
    }

    /**
     * `_update`: clip the viewport to the layer bounds, prepare the hidden
     * current image, then either hide the layer under the empty sentinel or
     * fire `loading`, set the new key and ask the provider for the image.
     */
    method Update(m: Overlay.MapView)
      requires Valid()
      modifies this, imageA, imageB
      ensures Valid() && State() == Overlay.UpdateState(old(State()), Config(), m, provider)
    {
      ghost var s0 := State();
      var bounds := GetClippedBounds(m.bounds, options.bounds);
      var pix1 := m.containerPoint(bounds.NorthWest());
      var pix2 := m.containerPoint(bounds.SouthEast());
      var width := pix2.x - pix1.x;
      var height := pix2.y - pix1.y;
      assert Overlay.PixelSize(m, bounds) == Point(width, height);
      assert State() == s0;
      PrepareImages(bounds, m);
      ghost var s1 := State();
      if m.zoom < options.minZoom || m.zoom > options.maxZoom || width < Overlay.MinPixelSize || height < Overlay.MinPixelSize {
        Hide();
        Overlay.UpdateInSteps(s0, s1, State(), Config(), m, provider, bounds, width, height, Overlay.ImageScale(Config()));
        return;
      }
      var imageScale := Overlay.ImageScale(Config());
      Request(bounds, width * imageScale, height * imageScale);
      Overlay.UpdateInSteps(s0, s1, State(), Config(), m, provider, bounds, width, height, imageScale);
    }

    /** The degenerate branch of `_update`: hide the container and give the current image the empty sentinel. */
    method Hide()
      requires Valid()
      modifies this, imageA, imageB
      ensures Valid() && State() == Overlay.HideState(old(State()))
    {
      ghost var r := Overlay.HideState(State());
      var i := currentImage;
      visible := false;
      i.state := i.state.(src := Overlay.EmptyImageUrl, key := Overlay.EmptyKey);
      key := i.state.key;
      i.state := i.state.(tag := None);
      Same(r);
    }

    /**
     * The request branch of `_update`: fire `loading`, make the request key
     * the layer key and call the provider for the current image.
     */
    method Request(bounds: LatLngBounds, width: real, height: real)
      requires Valid()
      modifies this, imageA, imageB
      ensures Valid()
      ensures State() == Overlay.RequestState(old(State()), bounds, width, height,
                                              Overlay.RequestKey(bounds.NorthWest(), bounds.SouthEast(), width, height), provider)
    {
      ghost var r := Overlay.RequestState(State(), bounds, width, height,
                                          Overlay.RequestKey(bounds.NorthWest(), bounds.SouthEast(), width, height), provider);
      var i := currentImage;
      events := events + [Overlay.Loading];
      key := Overlay.RequestKey(bounds.NorthWest(), bounds.SouthEast(), width, height);
      calls := calls + [Overlay.Call(bounds, width, height, key, IdOf(i), provider.Async?)];
      match provider {
        case Sync(getImageUrl) =>
          i.state := i.state.(src := getImageUrl(bounds, width, height));
          i.state := i.state.(key := key);
          Same(r);
        case Async =>
          Same(r);
      }
    }

    /** The layer is `r`, given that it agrees with `r` role by role. */
    lemma Same(r: Overlay.State)
      requires Valid() && IdOf(currentImage) == r.current
      requires currentImage.state == Overlay.Cur(r) && bufferImage.state == Overlay.Buf(r)
      requires key == r.key && visible == r.visible && events == r.events && calls == r.calls
      ensures State() == r
    {
    }

    /** `redraw`: an update, once the layer is on a map. */
    method Redraw(attachedTo: Option<Overlay.MapView>)
      requires Valid()
      modifies this, imageA, imageB
      ensures Valid()
      ensures State() == if attachedTo.Some? then Overlay.UpdateState(old(State()), Config(), attachedTo.value, provider) else old(State())
    {
      if attachedTo.Some? {
        Update(attachedTo.value);
      }
    }

    /**
     * The callback passed to `getImageUrlAsync` by call `n` answers: it
     * writes into the image that call captured, whatever happened since.
     */
    method AsyncCallback(n: nat, key: Overlay.Key, url: Overlay.Url, tag: Option<Overlay.Tag>)
      requires Valid() && n < |calls| && calls[n].async
      modifies imageA, imageB
      ensures Valid() && State() == Overlay.CallbackState(old(State()), n, key, url, tag)
    {
      var i := ImageOf(calls[n].target);
      i.state := i.state.(key := key);
      i.state := i.state.(src := url);
      i.state := i.state.(tag := tag);
    }

    /** The callback with the staleness guard where it evidently belongs: an answer under an outdated key is dropped. */
    method GuardedAsyncCallback(n: nat, key: Overlay.Key, url: Overlay.Url, tag: Option<Overlay.Tag>)
      requires Valid() && n < |calls| && calls[n].async
      modifies imageA, imageB
      ensures Valid() && State() == Overlay.GuardedCallbackState(old(State()), n, key, url, tag)
    {
      if key == this.key {
        AsyncCallback(n, key, url, tag);
      }
    }

    /**
     * The layer-side half of `_onImageDone`: fire the interaction hook, swap
     * the two roles, and make the container visible when `show` holds.
     */
    method SwapRoles(hook: seq<Overlay.Event>, show: bool)
      requires Valid()
      modifies this
      ensures Valid() && currentImage == old(bufferImage) && bufferImage == old(currentImage)
      ensures events == old(events) + hook && visible == (old(visible) || show)
      ensures key == old(key) && calls == old(calls)
    {
      events := events + hook;
      currentImage, bufferImage := bufferImage, currentImage;
      if show {
        visible := true;
      }
    }

    /**
     * `_onImageDone`: show the current image, hide the buffer, hand the
     * current tag to the interaction hook, swap the roles, and make the
     * container visible unless the completed image is the empty sentinel.
     */
    method OnImageDone(target: Image)
      requires Valid() && (target == imageA || target == imageB)
      modifies this, imageA, imageB
      ensures Valid() && State() == Overlay.DoneState(old(State()), Config(), IdOf(target))
    {
      ghost var r := Overlay.DoneState(State(), Config(), IdOf(target));
      assert Overlay.Slot(State(), IdOf(target)) == target.state;
      currentImage.state := currentImage.state.(opacity := 1.0);
      bufferImage.state := bufferImage.state.(opacity := 0.0);
      var hook := if options.hasInteraction && currentImage.state.tag.Some? then [Overlay.Interaction(currentImage.state.tag.value)] else [];
      SwapRoles(hook, target.state.key != Overlay.EmptyKey);
      Same(r);
    }

    /**
     * `_onImageLoad`: the error image always completes; any other image
     * loses its invalid mark and completes only when it carries the latest
     * key.  A completion fires `load`.
     */
    method OnImageLoad(target: Image)
      requires Valid() && (target == imageA || target == imageB)
      modifies this, imageA, imageB
      ensures Valid() && State() == Overlay.LoadState(old(State()), Config(), IdOf(target))
    {
      var accepted := Admit(target);
      if !accepted {
        return;
      }
      OnImageDone(target);
      events := events + [Overlay.Load(IdOf(target))];
    }

    /**
     * The guard of `_onImageLoad`: any image but the error image loses its
     * invalid mark, and it passes only when it carries the latest key.
     */
    method Admit(target: Image) returns (accepted: bool)
      requires Valid() && (target == imageA || target == imageB)
      modifies target
      ensures Valid() && State() == Overlay.AdmitState(old(State()), Config(), IdOf(target))
      ensures accepted == Overlay.Accepted(old(State()), Config(), IdOf(target))
    {
      assert Overlay.Slot(State(), IdOf(target)) == target.state;
      if target.state.src != options.errorImageUrl {
        target.state := target.state.(invalid := false);
        if target.state.key == Overlay.NoKey || target.state.key != key {
          return false;
        }
      }
      return true;
    }

    /** `_onImageError`: fire `error`, mark the image invalid and fall back to the error image once. */
    method OnImageError(target: Image)
      requires Valid() && (target == imageA || target == imageB)
      modifies this, imageA, imageB
      ensures Valid() && State() == Overlay.ErrorState(old(State()), Config(), IdOf(target))
    {
      events := events + [Overlay.Error(IdOf(target))];
      target.state := target.state.(invalid := true);
      if target.state.src != options.errorImageUrl {
        target.state := target.state.(src := options.errorImageUrl);
      }
    }

    /** `_setZoom`: rescale each image that has been requested. */
    method SetZoom(m: Overlay.MapView)
      requires Valid() && Overlay.Inv(State())
      modifies imageA, imageB
      ensures Valid() && State() == Overlay.SetZoomState(old(State()), m)
    {
      if currentImage.state.bounds.Some? {
        ResetImageScale(currentImage, m);
      }
      if bufferImage.state.bounds.Some? {
        ResetImageScale(bufferImage, m);
      }
    }

    /** `_animateZoom`: move each image that has been requested with the animation frame. */
    method AnimateZoom(f: Overlay.ZoomFrame)
      requires Valid()
      modifies imageA, imageB
      ensures Valid() && State() == Overlay.AnimateZoomState(old(State()), f)
    {
      if currentImage.state.bounds.Some? {
        AnimateImage(currentImage, f);
      }
      if bufferImage.state.bounds.Some? {
        AnimateImage(bufferImage, f);
      }
    }
  }
}

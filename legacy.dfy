/**
 * The first version of the layer object (`NonTiledLayer.js`): two image
 * elements updated in place and a layer holding the current/buffer roles,
 * the url of the latest request, the container's visibility and the event
 * log.  Every callback is proved to have exactly the effect of the matching
 * step function of `LegacyOverlay`.
 */
module LegacyNonTiledLayer {
  import opened Common
  import opened Geo
  import opened Clip
  import Overlay
  import LegacyOverlay

  /** One `<img>` element: its `src`, opacity, `invalid` class, position, size and the `_bounds` and `tag` kept on it. */
  class Image {
    var state: LegacyOverlay.SlotState

    /** `_initImage`: an image with nothing requested yet. */
    constructor ()
      ensures state == LegacyOverlay.FreshSlot
    {
      state := LegacyOverlay.FreshSlot;
    }
  }

  class Layer {
    const options: LegacyOverlay.Options
    /** `getImageUrl` or `getImageUrlAsync`, whichever the concrete layer defines. */
    const provider: LegacyOverlay.Provider
    /** The image created first in `onAdd` (the first buffer) and the one created second. */
    const imageA: Image
    const imageB: Image
    var currentImage: Image
    var bufferImage: Image
    var url: Overlay.Url
    var visible: bool
    var events: seq<LegacyOverlay.Event>
    var calls: seq<LegacyOverlay.Call>

    /** The two roles are held by the two distinct images. */
    ghost predicate Valid()
      reads this
    {
      && imageA != imageB
      && ((currentImage == imageA && bufferImage == imageB) || (currentImage == imageB && bufferImage == imageA))
    }

    /** Which physical image `image` is. */
    function IdOf(image: Image): Overlay.SlotId
    {
      if image == imageA then Overlay.A else Overlay.B
    }

    function ImageOf(t: Overlay.SlotId): (image: Image)
      ensures image == imageA || image == imageB
      ensures imageA != imageB ==> IdOf(image) == t
    {
      match t
      case A => imageA
      case B => imageB
    }

    /** The whole layer as a value. */
    function State(): LegacyOverlay.State
      reads this, imageA, imageB
    {
      LegacyOverlay.State(imageA.state, imageB.state, IdOf(currentImage), url, visible, events, calls)
    }

    /** The layer is `r`, given that it agrees with `r` role by role. */
    lemma Same(r: LegacyOverlay.State)
      requires Valid() && IdOf(currentImage) == r.current
      requires currentImage.state == LegacyOverlay.Cur(r) && bufferImage.state == LegacyOverlay.Buf(r)
      requires url == r.url && visible == r.visible && events == r.events && calls == r.calls
      ensures State() == r
    {
    }

    /**
     * `initialize` followed by `onAdd`: the two images are created (the
     * buffer first) and the first update runs.
     */
    constructor OnAdd(options: LegacyOverlay.Options, provider: LegacyOverlay.Provider, m: Overlay.MapView)
      ensures Valid() && fresh(imageA) && fresh(imageB)
      ensures this.options == options && this.provider == provider
      ensures State() == LegacyOverlay.UpdateState(LegacyOverlay.Initial, options, m, provider)
    {
      this.options := options;
      this.provider := provider;
      var first := new Image();
      var second := new Image();
      imageA, imageB := first, second;
      bufferImage, currentImage := first, second;
      url := "";
      visible := true;
      events, calls := [], [];
      new;
      Update(m);
    }

    /** `_resetImage`: place and size the image at its bounds. */
    method ResetImage(image: Image, m: Overlay.MapView)
      requires image.state.bounds.Some?
      modifies image
      ensures image.state == LegacyOverlay.ResetImage(old(image.state), m)
    {
      var b := image.state.bounds.value;
      var bounds := PixelBoundsOf(m.layerPoint(b.NorthWest()), m.layerPoint(b.SouthEast()));
      var size := Size(bounds);
      image.state := image.state.(position := Some(bounds.min));
      image.state := image.state.(size := Some(size));
    }

    /** `_viewreset`: re-place each image that has bounds, the buffer first. */
    method ViewReset(m: Overlay.MapView)
      requires Valid()
      modifies imageA, imageB
      ensures Valid() && State() == LegacyOverlay.ViewResetState(old(State()), m)
    {
      if bufferImage.state.bounds.Some? {
        ResetImage(bufferImage, m);
      }
      if currentImage.state.bounds.Some? {
        ResetImage(currentImage, m);
      }
    }

    /**
     * `_update`: out of the zoom range only hide the container; otherwise
     * show it, re-place the buffer, clip the viewport to the layer bounds,
     * and request an image unless it would be under 32 pixels.
     */
    method Update(m: Overlay.MapView)
      requires Valid()
      modifies this, imageA, imageB
      ensures Valid() && State() == LegacyOverlay.UpdateState(old(State()), options, m, provider)
    {
      if m.zoom < options.minZoom || m.zoom > options.maxZoom {
        visible := false;
        return;
      }
      Show(m);
      ghost var s1 := State();
      var bounds := GetClippedBounds(m.bounds, options.bounds);
      var pix1 := m.containerPoint(bounds.NorthWest());
      var pix2 := m.containerPoint(bounds.SouthEast());
      var width := pix2.x - pix1.x;
      var height := pix2.y - pix1.y;
      assert Overlay.PixelSize(m, bounds) == Point(width, height);
      assert State() == s1;
      if width < Overlay.MinPixelSize || height < Overlay.MinPixelSize {
        return;
      }
      Request(bounds, width, height, m);
    }

    /** The part of `_update` that runs whenever the zoom is in range: show the container and re-place the buffer. */
    method Show(m: Overlay.MapView)
      requires Valid()
      modifies this, imageA, imageB
      ensures Valid() && State() == LegacyOverlay.PrepareState(old(State()), m)
    {
      visible := true;
      if bufferImage.state.bounds.Some? {
        ghost var r := LegacyOverlay.PrepareState(State(), m);
        ResetImage(bufferImage, m);
        Same(r);
      }
    }

    /**
     * The request branch of `_update`: give the current image the bounds,
     * place it, call the provider for it, record its `src` as the latest
     * url and hide it.
     */
    method Request(bounds: LatLngBounds, width: real, height: real, m: Overlay.MapView)
      requires Valid()
      modifies this, imageA, imageB
      ensures Valid() && State() == LegacyOverlay.RequestState(old(State()), bounds, width, height, m, provider)
    {
      ghost var r := LegacyOverlay.RequestState(State(), bounds, width, height, m, provider);
      var i := currentImage;
      i.state := i.state.(bounds := Some(bounds));
      ResetImage(i, m);
      match provider {
        case Sync(getImageUrl) =>
          i.state := i.state.(src := getImageUrl(bounds.NorthWest(), bounds.SouthEast(), width, height));
        case Async =>
      }
      i.state := i.state.(opacity := 0.0);
      Record(bounds, width, height, i.state.src);
      Same(r);
    }

    /** The layer-side half of a request: log the provider call and take the image's `src` as the latest url. */
    method Record(bounds: LatLngBounds, width: real, height: real, src: Overlay.Url)
      requires Valid()
      modifies this
      ensures Valid() && currentImage == old(currentImage) && bufferImage == old(bufferImage)
      ensures url == src && visible == old(visible) && events == old(events)
      ensures calls == old(calls) + [LegacyOverlay.Call(bounds.NorthWest(), bounds.SouthEast(), width, height, IdOf(currentImage), provider.Async?)]
    {
      calls := calls + [LegacyOverlay.Call(bounds.NorthWest(), bounds.SouthEast(), width, height, IdOf(currentImage), provider.Async?)];
      url := src;
    }

    /** `redraw`: an update, once the layer is on a map. */
    method Redraw(attachedTo: Option<Overlay.MapView>)
      requires Valid()
      modifies this, imageA, imageB
      ensures Valid()
      ensures State() == if attachedTo.Some? then LegacyOverlay.UpdateState(old(State()), options, attachedTo.value, provider) else old(State())
    {
      if attachedTo.Some? {
        Update(attachedTo.value);
      }
    }

    /** The callback passed to `getImageUrlAsync` by call `n`, as written: set the `src` and tag of the image it captured. */
    method AsyncCallback(n: nat, src: Overlay.Url, tag: Option<Overlay.Tag>)
      requires Valid() && n < |calls| && calls[n].async
      modifies imageA, imageB
      ensures Valid() && State() == LegacyOverlay.CallbackState(old(State()), n, src, tag)
    {
      var i := ImageOf(calls[n].target);
      i.state := i.state.(src := src);
      i.state := i.state.(tag := tag);
    }

    /** The callback as evidently intended: the answer to the latest request also becomes the latest url. */
    method RecordingAsyncCallback(n: nat, src: Overlay.Url, tag: Option<Overlay.Tag>)
      requires Valid() && n < |calls| && calls[n].async
      modifies this, imageA, imageB
      ensures Valid() && State() == LegacyOverlay.RecordingCallbackState(old(State()), n, src, tag)
    {
      AsyncCallback(n, src, tag);
      if n == |calls| - 1 {
        url := src;
      }
    }

    /** The layer-side half of `_onImageDone`: fire the hook and `load`, and swap the two roles. */
    method SwapRoles(fired: seq<LegacyOverlay.Event>)
      requires Valid()
      modifies this
      ensures Valid() && currentImage == old(bufferImage) && bufferImage == old(currentImage)
      ensures events == old(events) + fired
      ensures url == old(url) && visible == old(visible) && calls == old(calls)
    {
      events := events + fired;
      currentImage, bufferImage := bufferImage, currentImage;
    }

    /**
     * `_onImageDone`: show the current image, hide the buffer, hand the
     * current tag to the interaction hook, swap the roles and fire `load`.
     */
    method OnImageDone(target: Image)
      requires Valid() && (target == imageA || target == imageB)
      modifies this, imageA, imageB
      ensures Valid() && State() == LegacyOverlay.DoneState(old(State()), options, IdOf(target))
    {
      ghost var r := LegacyOverlay.DoneState(State(), options, IdOf(target));
      currentImage.state := currentImage.state.(opacity := 1.0);
      bufferImage.state := bufferImage.state.(opacity := 0.0);
      var hook := if options.hasInteraction then [LegacyOverlay.Interaction(currentImage.state.tag)] else [];
      SwapRoles(hook + [LegacyOverlay.Load(IdOf(target))]);
      Same(r);
    }

    /**
     * `_onImageLoad`: the error image does nothing; any other image loses
     * its invalid mark and completes only when its `src` is the latest url.
     */
    method OnImageLoad(target: Image)
      requires Valid() && (target == imageA || target == imageB)
      modifies this, imageA, imageB
      ensures Valid() && State() == LegacyOverlay.LoadState(old(State()), options, IdOf(target))
    {
      var accepted := Admit(target);
      if accepted {
        OnImageDone(target);
      }
    }

    /** The guard of `_onImageLoad`: clear the invalid mark unless it is the error image, and pass only the latest url. */
    method Admit(target: Image) returns (accepted: bool)
      requires Valid() && (target == imageA || target == imageB)
      modifies target
      ensures Valid() && State() == LegacyOverlay.AdmitState(old(State()), options, IdOf(target))
      ensures accepted == LegacyOverlay.Accepted(old(State()), options, IdOf(target))
    {
      assert LegacyOverlay.Slot(State(), IdOf(target)) == target.state;
      if target.state.src != options.errorImageUrl {
        target.state := target.state.(invalid := false);
        if target.state.src != url {
          return false;
        }
        return true;
      }
      return false;
    }

    /**
     * `_onImageError`: fire `error` and mark the image invalid; unless the
     * error image itself failed, substitute it and complete anyway.
     */
    method OnImageError(target: Image)
      requires Valid() && (target == imageA || target == imageB)
      modifies this, imageA, imageB
      ensures Valid() && State() == LegacyOverlay.ErrorState(old(State()), options, IdOf(target))
    {
      ghost var s, t := State(), IdOf(target);
      assert LegacyOverlay.Slot(s, t) == target.state;
      events := events + [LegacyOverlay.Error(IdOf(target))];
      target.state := target.state.(invalid := true);
      if target.state.src != options.errorImageUrl {
        target.state := target.state.(src := options.errorImageUrl);
        OnImageDone(target);
      }
    }
  }
}

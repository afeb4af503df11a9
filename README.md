# Leaflet.NonTiledLayer — a verified model of the refresh controller

Leaflet.NonTiledLayer draws a map overlay as one image covering the whole
viewport instead of a grid of tiles. On every view change it asks a
provider for a new image of the visible part of the layer. It loads that
image into a hidden element, and swaps it on screen only once it has
loaded. Two image elements take turns:
- the *current* image (`_currentImage`) is being loaded at opacity 0;
- the *buffer* image (`_bufferImage`) is the one on screen.

A load completes only if it answers the latest request. The modern
layer checks this with a request *key*; the first version checks it
with the latest *url*. A failed load shows the error image. The error
image never triggers a second substitution.

The model has four parts:

- `Overlay` (pure) and `NonTiledLayer` (imperative) model the modern
  layer (`src/non-tiled-layer.ts`, and the same code in
  `src/NonTiledLayer.ts`).
  - `Overlay` gives every handler a step function on a value `State`:
    the two slots `A` and `B`, which of them is current, the layer key,
    the container's visibility, the events fired and the provider calls
    made. It proves properties of single steps and of arbitrary runs.
  - `NonTiledLayer.Layer` is the layer object: two `Image` objects
    updated in place and the role, key, visibility and event fields.
    Each of its methods is proved to change the object exactly as the
    matching step function says.
- `LegacyOverlay` and `LegacyNonTiledLayer` do the same for the first
  version (`NonTiledLayer.js`). It has no keys and no retina scale, and
  its zoom animation only sets CSS transforms (left out below). It
  checks staleness against the latest `url`, and hides the layer only
  by zoom range.
- `Clip` is the clipping of the viewport to the layer bounds, which both
  versions share. `Geo` holds the Leaflet geometry it needs, and
  `Common` holds small numeric helpers. These helpers include a
  division that may yield a non-finite number.
- `Wms` is the WMS subclass (`src/wms.ts`, and the same code in
  `src/NonTiledLayer.ts`). It covers:
  - splitting the constructor options into layer options and WMS
    parameters;
  - the version-dependent `crs`/`srs` key;
  - the axis order of the bounding box;
  - the image url;
  - `setParams`.

Things the model takes as parameters:
- The map is a `MapView` value. Its projections (`layerPoint`,
  `containerPoint`, the zoom-animation projection) are functions left
  unspecified.
- The provider is either `Sync(getImageUrl)` or `Async`.
- A browser `load`/`error` event is a call the host makes on a given
  image.
- An asynchronous answer is a call the host makes on a given provider
  call, and may arrive in any order.

Two behaviours of the code are easy to miss, and the model keeps both:
- `_getClippedBounds` builds its result with `LatLngBounds`, which
  normalises its corners. When the viewport and the layer bounds do not
  overlap, the result is therefore the strip between them, not an empty
  or inverted box (`Clip.DisjointClipIsStripBetween`).
- In the modern layer, the load of the error image skips the key check.
  It therefore swaps the roles and fires `load`, even for an image whose
  request is stale.

## Model

| member | source | states |
|---|---|---|
| Geo.BoundsFromCorners | src/non-tiled-layer.ts:332-335 | the bounds built from two corners are normal, contain both corners, and take each side from one of them |
| Geo.PixelBoundsOf | src/non-tiled-layer.ts:291-295 | the pixel bounds of two points have min ≤ max, contain both points, and take each side from one of them, so they are the tightest such box |
| Clip.Clamp | src/non-tiled-layer.ts:326-330 | each clamped side lies inside both the layer bounds and the viewport, and a viewport side already inside the layer bounds is kept |
| Clip.GetClippedBounds | src/non-tiled-layer.ts:312-336 | the result is normal and equals `ClippedBounds`; when viewport and layer overlap it lies inside both |
| Clip.ClipInsideBoth | src/non-tiled-layer.ts:312-336 | when viewport and layer overlap, the clipped bounds lie inside the viewport and inside the layer bounds |
| Clip.ClipIdempotent | NonTiledLayer.js:200-224 | clipping an already clipped viewport again changes nothing |
| Clip.DisjointClipIsStripBetween | src/non-tiled-layer.ts:332-335 | a viewport entirely west of the layer clips to the strip between the viewport's east edge and the layer's west edge, not to an empty box |
| Overlay.ImageScale | src/non-tiled-layer.ts:338-340 | the image scale is 2 exactly when `detectRetina` is set and the display is retina, and 1 otherwise |
| Overlay.RequestedKey | src/non-tiled-layer.ts:384-404 | the key is the `<empty>` sentinel exactly when the update is degenerate; otherwise it holds the clipped corners and the pixel size times the image scale, and it is never the missing key |
| Overlay.RequestedKeyDeterminesRequest | src/non-tiled-layer.ts:401-404 | two updates with the same key request the same corners at the same pixel size |
| Overlay.ResetImage | src/non-tiled-layer.ts:291-310 | places the slot at the pixel bounds of its `_bounds`, sizes it to them, resets the zoom scale to 1, and changes nothing else |
| Overlay.ResetImageScale | src/non-tiled-layer.ts:277-289 | the settle scale becomes the ratio of the current pixel height to the height at the last reset (non-finite when that is 0), and the transform is set at the new top-left corner |
| Overlay.AnimateImage | src/NonTiledLayer.ts:249-273 | the last scale becomes the request scale times the frame's zoom scale, times the settle scale too when the browser can set transforms, in which case the transform is placed at the projected north-west corner; nothing else changes |
| Overlay.PrepareState | src/non-tiled-layer.ts:354-382 | the current slot gets the clipped bounds, scale 1 and opacity 0, and keeps its `src`, key and tag; the buffer's scale becomes its last scale; the invariant is kept |
| Overlay.HideState | src/non-tiled-layer.ts:384-396 | hides the container and gives the current slot the empty image, the `<empty>` key and no tag; the layer key becomes `<empty>` |
| Overlay.RequestState | src/non-tiled-layer.ts:398-416 | fires `loading`, records one provider call for the current slot, sets the layer key, and with a synchronous provider gives the slot the returned url and the key at once |
| Overlay.UpdateState | src/non-tiled-layer.ts:342-417 | `_update` as preparation followed by either hiding (degenerate) or a request at the clipped bounds and the scaled pixel size; the invariant is kept |
| Overlay.UpdateInSteps | src/non-tiled-layer.ts:342-417 | the update computed step by step, with the width and height scaled separately, is exactly `UpdateState` |
| Overlay.CallbackState | src/non-tiled-layer.ts:410-415 | the asynchronous answer writes key, url and tag into the slot the request captured, whatever its role is now |
| Overlay.DoneState | src/non-tiled-layer.ts:440-461 | shows the current slot, hides the buffer, swaps the roles, fires the interaction hook when there is a tag, and makes the container visible unless the key is `<empty>`; afterwards exactly one slot is on screen |
| Overlay.AdmitState | src/non-tiled-layer.ts:428-431 | clears the invalid mark of a non-error image, and leaves the error image untouched |
| Overlay.LoadState | src/non-tiled-layer.ts:428-438 | a load that is not accepted only clears the invalid mark; an accepted one (the error image, or a slot whose key is the layer key) completes and fires `load` |
| Overlay.ErrorState | src/non-tiled-layer.ts:419-426 | fires `error`, marks the slot invalid and points it at the error image; the roles, the key and the other slot are unchanged |
| Overlay.SetZoomState | src/non-tiled-layer.ts:132-140 | every slot that has bounds gets its zoom scale reset, and the other slots are unchanged |
| Overlay.AnimateZoomState | src/non-tiled-layer.ts:256-264 | every slot that has bounds gets its animation frame, and the other slots are unchanged |
| Overlay.Apply | src/non-tiled-layer.ts:342-461 | every host step keeps the invariant; only a view change touches the key and the provider calls |
| Overlay.Run | src/non-tiled-layer.ts:342-461 | a run keeps the invariant, and the provider calls only grow (the earlier calls stay a prefix) |
| Overlay.KeyIsLastRequested | src/non-tiled-layer.ts:391-404 | after any run, the layer key is the key of the last view change, or the starting key if there was none |
| Overlay.OnlyLatestKeySwaps | src/non-tiled-layer.ts:428-438 | a load that swaps the roles comes from the error image or from a slot whose key is the key of the latest view change |
| Overlay.ApplyKeepsSettled | src/non-tiled-layer.ts:440-461 | every step keeps exactly one slot on screen |
| Overlay.RunKeepsSettled | src/non-tiled-layer.ts:440-461 | every run keeps exactly one slot on screen |
| Overlay.OneSlotVisibleAfterOnAdd | src/non-tiled-layer.ts:78-113 | from the first update in `onAdd` on, in every reachable state one slot has opacity 1 and the other 0 |
| Overlay.TwoSwapsRestoreRoles | src/non-tiled-layer.ts:453-456 | two completions restore the roles, and from a settled state they restore both slots |
| Overlay.ErrorNeverLoops | src/non-tiled-layer.ts:422-425 | a second error on the same slot only fires `error` again |
| Overlay.DegenerateUpdateIdempotent | src/non-tiled-layer.ts:384-396 | repeating a degenerate update with the same viewport changes nothing |
| Overlay.DegenerateRunNeverFetches | src/non-tiled-layer.ts:384-396 | a run of degenerate view changes neither calls the provider nor fires `loading`, and leaves the layer hidden under the `<empty>` key |
| Overlay.SyncRequestCompletes | src/non-tiled-layer.ts:407-409 | a synchronous request fires `loading` once, calls the provider once at the scaled size, and its load swaps the image on screen, fires `load` and shows the layer |
| Overlay.StaleAnswerReplacesScreen | src/non-tiled-layer.ts:410-415 | as written, on the `<img>` path (`useCanvas: false`, or no canvas support): when an older asynchronous answer arrives after a newer one has loaded, it overwrites the slot now on screen. On the default canvas path it only rewrites the off-screen `_image`, whose load is then dropped before `_renderCanvas` draws |
| Overlay.GuardedCallbackState | src/non-tiled-layer.ts:410-415 | the corrected callback drops an answer whose key is not the layer key, and otherwise writes it as before |
| Overlay.GuardedStaleAnswerKeepsScreen | src/non-tiled-layer.ts:410-415 | with the corrected callback, the late answer changes nothing and the screen keeps the latest image |
| NonTiledLayer.Layer.OnAdd | src/non-tiled-layer.ts:78-113 | creates two distinct fresh images and runs the first update, which leaves the layer in `UpdateState(Initial, …)` |
| NonTiledLayer.Layer.ResetImage | src/non-tiled-layer.ts:291-310 | the image becomes `Overlay.ResetImage` of its old state |
| NonTiledLayer.Layer.ResetImageScale | src/non-tiled-layer.ts:277-289 | the image becomes `Overlay.ResetImageScale` of its old state |
| NonTiledLayer.Layer.AnimateImage | src/NonTiledLayer.ts:249-273 | the image becomes `Overlay.AnimateImage` of its old state |
| NonTiledLayer.Layer.PrepareImages | src/non-tiled-layer.ts:354-382 | the layer becomes `Overlay.PrepareState` of its old state |
| NonTiledLayer.Layer.Update | src/non-tiled-layer.ts:342-417 | the layer becomes `Overlay.UpdateState` of its old state |
| NonTiledLayer.Layer.Hide | src/non-tiled-layer.ts:390-395 | the layer becomes `Overlay.HideState` of its old state |
| NonTiledLayer.Layer.Request | src/non-tiled-layer.ts:398-416 | the layer becomes `Overlay.RequestState` of its old state |
| NonTiledLayer.Layer.Redraw | src/non-tiled-layer.ts:249-254 | once the layer is on a map it updates, and otherwise it is unchanged |
| NonTiledLayer.Layer.AsyncCallback | src/non-tiled-layer.ts:410-415 | the layer becomes `Overlay.CallbackState` of its old state (as written) |
| NonTiledLayer.Layer.GuardedAsyncCallback | src/non-tiled-layer.ts:410-415 | the layer becomes `Overlay.GuardedCallbackState` of its old state (corrected) |
| NonTiledLayer.Layer.OnImageDone | src/non-tiled-layer.ts:440-461 | the layer becomes `Overlay.DoneState` of its old state |
| NonTiledLayer.Layer.OnImageLoad | src/non-tiled-layer.ts:428-438 | the layer becomes `Overlay.LoadState` of its old state |
| NonTiledLayer.Layer.Admit | src/non-tiled-layer.ts:429-433 | clears the invalid mark as `Overlay.AdmitState` does, and returns exactly `Overlay.Accepted` |
| NonTiledLayer.Layer.OnImageError | src/non-tiled-layer.ts:419-426 | the layer becomes `Overlay.ErrorState` of its old state |
| NonTiledLayer.Layer.SetZoom | src/non-tiled-layer.ts:132-140 | the layer becomes `Overlay.SetZoomState` of its old state |
| NonTiledLayer.Layer.AnimateZoom | src/non-tiled-layer.ts:256-264 | the layer becomes `Overlay.AnimateZoomState` of its old state |
| LegacyOverlay.ResetImage | NonTiledLayer.js:188-198 | places and sizes the image at the pixel bounds of its `_bounds`, and changes nothing else |
| LegacyOverlay.PrepareState | NonTiledLayer.js:239-244 | shows the container and re-places the buffer if it has bounds |
| LegacyOverlay.RequestState | NonTiledLayer.js:260-275 | gives the current image the bounds, records one provider call, hides the image, and takes its `src` (the new one if synchronous, the old one if asynchronous) as the latest url |
| LegacyOverlay.UpdateState | NonTiledLayer.js:233-276 | out of zoom range it only hides the container; an image under 32 pixels is not requested; otherwise it requests |
| LegacyOverlay.CallbackState | NonTiledLayer.js:268-271 | the asynchronous answer sets `src` and tag on the image the request captured |
| LegacyOverlay.DoneState | NonTiledLayer.js:294-305 | shows the current image, hides the buffer, calls the interaction hook, swaps the roles and fires `load`; afterwards exactly one image is on screen |
| LegacyOverlay.AdmitState | NonTiledLayer.js:286-287 | clears the invalid mark of a non-error image, and leaves the error image untouched |
| LegacyOverlay.LoadState | NonTiledLayer.js:285-293 | the roles swap exactly when the load is accepted (a non-error image whose `src` is the latest url); the error image changes nothing |
| LegacyOverlay.ErrorState | NonTiledLayer.js:277-284 | fires `error` and marks the image invalid; unless it already is the error image, it substitutes the error image and completes |
| LegacyOverlay.ViewResetState | NonTiledLayer.js:226-231 | every image that has bounds is re-placed, and the other images are unchanged |
| LegacyOverlay.Apply | NonTiledLayer.js:226-305 | every host step keeps the invariant; only a view change touches the url and the provider calls |
| LegacyOverlay.Run | NonTiledLayer.js:226-305 | every run keeps the invariant |
| LegacyOverlay.ApplyKeepsSettled | NonTiledLayer.js:294-305 | every step keeps exactly one image on screen |
| LegacyOverlay.RunKeepsSettled | NonTiledLayer.js:294-305 | every run keeps exactly one image on screen |
| LegacyOverlay.OnlyLatestUrlSwaps | NonTiledLayer.js:285-293 | a corollary of `LoadState` applied to the state a run reaches: after any run, a load that swaps the roles comes from a non-error image whose `src` is the latest url |
| LegacyOverlay.OneImageVisibleAfterRequest | NonTiledLayer.js:260-305 | once an update reaches the provider, every later state has one image at opacity 1 and the other at 0 |
| LegacyOverlay.TwoSwapsRestoreRoles | NonTiledLayer.js:301-303 | two completions restore the roles, and from a settled state they restore both images |
| LegacyOverlay.ErrorNeverLoops | NonTiledLayer.js:280-283 | a second error on the same image only fires `error` again |
| LegacyOverlay.SyncRequestCompletes | NonTiledLayer.js:265-266 | a synchronous request's image loads, swaps on screen and fires `load` |
| LegacyOverlay.AsyncAnswerDiscarded | NonTiledLayer.js:268-273 | as written: an asynchronous answer with a new url is loaded but discarded as obsolete, and stays hidden |
| LegacyOverlay.RecordingCallbackState | NonTiledLayer.js:268-273 | the corrected callback also makes the answer to the latest request the latest url |
| LegacyOverlay.RecordedAsyncAnswerShown | NonTiledLayer.js:268-273 | with the corrected callback, the asynchronous answer loads, swaps on screen and fires `load` |
| LegacyNonTiledLayer.Layer.OnAdd | NonTiledLayer.js:26-48 | creates two distinct fresh images and runs the first update |
| LegacyNonTiledLayer.Layer.ResetImage | NonTiledLayer.js:188-198 | the image becomes `LegacyOverlay.ResetImage` of its old state |
| LegacyNonTiledLayer.Layer.ViewReset | NonTiledLayer.js:226-231 | the layer becomes `LegacyOverlay.ViewResetState` of its old state |
| LegacyNonTiledLayer.Layer.Update | NonTiledLayer.js:233-276 | the layer becomes `LegacyOverlay.UpdateState` of its old state |
| LegacyNonTiledLayer.Layer.Show | NonTiledLayer.js:239-244 | the layer becomes `LegacyOverlay.PrepareState` of its old state |
| LegacyNonTiledLayer.Layer.Request | NonTiledLayer.js:260-275 | the layer becomes `LegacyOverlay.RequestState` of its old state |
| LegacyNonTiledLayer.Layer.Redraw | NonTiledLayer.js:156-161 | once the layer is on a map it updates, and otherwise it is unchanged |
| LegacyNonTiledLayer.Layer.AsyncCallback | NonTiledLayer.js:268-271 | the layer becomes `LegacyOverlay.CallbackState` of its old state (as written) |
| LegacyNonTiledLayer.Layer.RecordingAsyncCallback | NonTiledLayer.js:268-273 | the layer becomes `LegacyOverlay.RecordingCallbackState` of its old state (corrected) |
| LegacyNonTiledLayer.Layer.OnImageDone | NonTiledLayer.js:294-305 | the layer becomes `LegacyOverlay.DoneState` of its old state |
| LegacyNonTiledLayer.Layer.OnImageLoad | NonTiledLayer.js:285-293 | the layer becomes `LegacyOverlay.LoadState` of its old state |
| LegacyNonTiledLayer.Layer.Admit | NonTiledLayer.js:286-290 | clears the invalid mark as `LegacyOverlay.AdmitState` does, and returns exactly `LegacyOverlay.Accepted` |
| LegacyNonTiledLayer.Layer.OnImageError | NonTiledLayer.js:277-284 | the layer becomes `LegacyOverlay.ErrorState` of its old state |
| Wms.PartitionedParams | src/wms.ts:35-45 | after some options have been visited, the parameters are the defaults overridden by each visited option that is not a layer option |
| Wms.Partition | src/wms.ts:35-47 | the loop over the options yields exactly the defaults overridden by every option that is not a layer option |
| Wms.WmsOptionsLeakIntoParams | src/wms.ts:37-45 | as written: a `crs` or `uppercase` option is copied into the WMS parameters |
| Wms.ScopedParams | src/wms.ts:37-45 | corrected: the WMS layer's own options never become parameters, and every other non-layer option does |
| Wms.ScopedParamsAgreeElsewhere | src/wms.ts:37-45 | the corrected split differs from the code as written only on the WMS layer's own options |
| Wms.LeadingDigits | src/wms.ts:54 | the length of the longest digit prefix |
| Wms.ParseDecimal | src/wms.ts:54 | a decimal prefix parses to a non-negative number exactly when it has a digit before or right after the point |
| Wms.LeadingDigitsAppend | src/wms.ts:54 | a run of digits in front of a string adds its length to the digits that string starts with |
| Wms.ParseDecimalValue | src/wms.ts:54 | whole digits, a point and fraction digits (not both empty), followed by a non-digit or nothing, parse to whole + fraction / 10^(number of fraction digits) |
| Wms.ParseIntegerValue | src/wms.ts:54 | digits followed by neither a digit nor a point parse to their integer value |
| Wms.ProjectionKey | src/wms.ts:56 | the key is `crs` exactly when the parsed version is at least 1.3, and `srs` otherwise (including an unparsable version) |
| Wms.ParseDigitDotDigit | src/wms.ts:54 | a version string `d.d…` parses to its first two digits |
| Wms.StandardVersionsPickTheirKey | src/wms.ts:54-56 | version 1.3.0 uses `crs`; versions 1.1.1 and 1.1.0 use `srs` |
| Wms.BBox | src/wms.ts:71-73 | four numbers, with latitude in the second and fourth place unless the order is latitude first |
| Wms.BBoxFollowsAxisOrder | src/wms.ts:71-73 | the box equals the reference order built from the minimum and maximum of the two corners' coordinates exactly when the north-west corner lies west and north of the south-east one; each minimum is then at most its maximum |
| Wms.Epsg4326BBoxIsLatLon | src/wms.ts:71-73 | for EPSG:4326 under 1.3 the box is south, west, north, east; otherwise it is west, south, east, north |
| Wms.LatitudeFirstOnlyFor13And4326 | src/wms.ts:71 | the order flips only for version 1.3 or later together with EPSG:4326 |
| Wms.ImageUrl | src/wms.ts:75 | the url is the service url, then the parameter string, then the bbox key followed by the bbox |
| Wms.BBoxKeyFollowsUppercase | src/wms.ts:75 | the bbox key is `&BBOX=` exactly when `uppercase` is set, and `&bbox=` otherwise |
| Wms.WmsLayer.Initialize | src/wms.ts:30-50 | the parameters are the partitioned options; no CRS or version yet |
| Wms.WmsLayer.OnAdd | src/wms.ts:52-60 | the CRS is the `crs` option or else the map's; the version is parsed; the CRS code is stored under the version's key |
| Wms.WmsLayer.GetImageUrl | src/wms.ts:62-76 | stamps width and height into the parameters and returns the url over the projected box in the version's axis order |
| Wms.WmsLayer.SetParams | src/wms.ts:78-86 | merges the new parameters over the old ones, and asks for a redraw exactly when `noRedraw` is not set |

## Left out

- DOM and canvas rendering are not modelled. This covers the `div` container, CSS styles, `pointerEvents`, `zIndex`, `opacity`, and the whole `useCanvas` path including `_renderCanvas`. The model follows the `<img>` path.
- `onRemove`, `getEvents`, `getElement`, `setOpacity`, `setZIndex`, `bringToFront`, `bringToBack`, `getAttribution`, `getPane` and `addTo` are not modelled: they only attach, detach or style DOM nodes.
- NonTiledLayer.Layer.OnAdd: models the first add only. On a later add the code reuses `_div` with the visibility the last update left, and keeps `key`; the model starts again from `Initial` (visible, no key). Nothing observable depends on this: fresh images show nothing before their first completion, and the first update overwrites the key.
- `_initImage` is modelled only as a fresh slot. Its `crossOrigin` attribute and zoom-animation CSS class belong to the DOM.
- The text of a key is abstracted as a record of the two corners, width and height. `LatLng.toString` rounds coordinates to a fixed number of decimals. Two views that differ only below that rounding therefore share a key in the code but not in the model.
- The browser normalises `src` to an absolute url. The model compares urls as given.
- Map projections, `getBounds`, `getZoomScale` and the zoom-animation projection are parameters.
- `Util.getParamString` and the text format of numbers are parameters of `Wms.ImageUrl` and `Wms.Join`.
- Overlay.AnimateImage: under Leaflet 0.7 (no `setTransform`) the model records the scale but not the CSS translate string, whose centring offset is presentation only.
- The legacy `_animateZoom` and `_animateImage` (NonTiledLayer.js:163-186) and its Leaflet 0.7 event wiring are not modelled: they only set CSS transforms during a zoom animation and touch no role, url, opacity or event.
- The global factory functions (`L.nonTiledLayer`, `nonTiledLayer.wms`) and the build files are not modelled.
- Wms.ParseDecimal: models `parseFloat` only for a leading decimal number. It does not handle leading whitespace, a sign, an exponent or `Infinity`, none of which occurs in a WMS version.
- Wms.WmsLayer.OnAdd: a truthy `crs` option that is not a CRS object is not modelled. Its `code` reads as `undefined`, which is stored under the projection key, and `getImageUrl` then fails at `this._crs.project`.
- Wms.WmsLayer.SetParams: returns whether a redraw is due instead of calling `redraw`. The WMS class is not linked to `NonTiledLayer.Layer`. The base `onAdd` called at the end of `onAdd` is `NonTiledLayer.Layer.OnAdd`.
- Wms.Partition: visits the option keys in an arbitrary order. The order of a `for … in` loop does not change the result, since each key is written once.
- Overlay.ImageScale: the retina flag is a parameter of the layer, because `Browser.retina` is a browser property.
- LegacyOverlay.RequestState: an asynchronous answer always arrives as a later host step, after `getImageUrlAsync` has returned and `this.url = i.src` has read the old `src`. A provider that calls back inside `getImageUrlAsync` sets `src` before that read, so its image is taken as the latest url and completes. The model does not cover that case.
- Overlay.DoneState: a tag is an object or absent, so `Some` stands for a truthy tag. A falsy tag such as `0` or `""` would not reach the interaction hook in the code, but would in the model.
- Concurrency is modelled only as an arbitrary interleaving of host calls (view changes, asynchronous answers, loads and errors). Each call runs to completion, as in a browser event loop.

## Findings

| source | as written | input that shows it | evidently intended | confidence | as-written member | corrected member |
|---|---|---|---|---|---|---|
| src/non-tiled-layer.ts:410-415 | the asynchronous callback writes key, url and tag into the image it captured, even when that image has since become the one on screen | with `useCanvas: false` (or no canvas support): view change K1, then view change K2, both asynchronous; K2's answer arrives and loads; then K1's answer arrives. On the default canvas path the late answer only rewrites the off-screen `canvas._image` (its load is dropped at line 432, before `_renderCanvas` draws), so the screen keeps K2's pixels | an answer whose key is no longer the layer key is dropped before it touches the image | not executed | Overlay.StaleAnswerReplacesScreen | Overlay.GuardedStaleAnswerKeepsScreen |
| NonTiledLayer.js:268-273 | `this.url = i.src` runs before the asynchronous callback sets the new `src`, so the latest url is the image's old `src`, and the answer's load is discarded as obsolete | an asynchronous provider whose answer differs from the image's previous `src` and is delivered after `getImageUrlAsync` returns | the answer to the latest request becomes the latest url | not executed | LegacyOverlay.AsyncAnswerDiscarded | LegacyOverlay.RecordedAsyncAnswerShown |
| src/wms.ts:37-45 | options are tested against `NonTiledLayer.prototype.options`, not against the WMS layer's own options, so `crs` and `uppercase` are copied into the WMS parameters | options `{uppercase: true}`: the query string gets an `uppercase` parameter | only options that belong to no layer become WMS parameters | not executed | Wms.WmsOptionsLeakIntoParams | Wms.ScopedParams |

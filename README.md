# Main canvas of the image editor, modelled in Dafny

This project models the orchestration core of the editor's main canvas
(`src/components/MainCanvas/index.js`). The canvas does five things:

- It fits a decoded image into an 800x800 working area and keeps its aspect ratio (`changeImage`). The exact fit is `Fit`. What the image element then holds is `FitPixels`, the exact fit cut to whole pixels.
- It builds the scene once: a stage, an image layer, a design layer, a transformer and the base image node. On later images it resizes the stage and swaps the base node's image.
- It applies the finetune configuration to the image layer: the mutator calls in key order, then a filter list resolved in the built-in registry first and the custom registry second.
- It turns a pending annotation descriptor into a shape. The shape's position is moved into canvas space and its handlers are bound. The shape is then added to the design layer and published in the `annotations` map, and the pending slot is cleared.
- It keeps the transformer's node set equal to `selections` (bind-down). It also commits the last transformed node back to `selections` through a debounce on one module-level timer (commit-up).

Layout:

- `image_fit.dfy` (module `ImageFit`): the fit as pure functions on exact reals, and lemmas about it.
- `scene.dfy` (module `Scene`): the rendering library's objects as opaque handles. They record only what the canvas sets: sizes, children in order, the transformer's nodes, a shape's bindings, and a layer's mutator-call trace and filter list.
- `finetune.dfy` (module `Finetune`): the configuration, its call trace and the filter resolution.
- `annotation.dfy` (module `Annotation`): the descriptor, the coordinate translation and the map update.
- `debounce.dfy` (module `Debounce`): the commit-up debounce as a pending-slot state machine with an explicit "timer fires" event.
- `store.dfy` (module `HostStore`): the host state as a record, updated by shallow-merged partial patches (`updateState`).
- `main_canvas.dfy` (module `MainCanvasComponent`): the component as a class. Each React effect is a method run against the current state. The module-level `timeout` is the class `TransformTimer`.

Behaviour kept as the code has it:

- On resize, line 105 sets the stage's width to the image's *height*. The model keeps this.
- An image element's `width` and `height` are unsigned integer attributes, so each size the fit writes loses its fraction. A 1x1000 image is stored as 0x800, with a width of zero.
- A filter name that neither registry resolves stays in the filter list as an undefined entry (`None`). It is not dropped.
- Only `libClassName` and `eventsToApply` are left out of the shape's config. `id` is passed to the shape.
- A shape class the library cannot construct throws before anything changes. The pending descriptor is not cleared.
- A pending debounce commit has no liveness guard. Firing it always writes to the store it captured.
- An empty image URL counts as a missing image (`!image`).
- A mutator name the image layer does not have makes `imageLayer[name]` undefined. The call throws. The calls before it have been made, and the filter list is not set.

## Model

| member | source | states |
|---|---|---|
| `ImageFit.Fit` | src/components/MainCanvas/index.js:156-176 | In exact arithmetic, the fitted width and height are always inside the 800x800 box, and the width stays positive. |
| `ImageFit.FitCases` | src/components/MainCanvas/index.js:166-176 | A case for each branch. Ratio at most 1 (squares included) with width over 800 gives 800 x ratio·800. Ratio over 1 with height over 800 gives 800/ratio x 800. Otherwise, and in particular when the image already fits, nothing changes. |
| `ImageFit.ClampsExclusive` | src/components/MainCanvas/index.js:166-176 | At most one clamp fires. Verticality is fixed before either test, so after the width clamp the height test fails. |
| `ImageFit.FitKeepsRatio` | src/components/MainCanvas/index.js:157-176 | The fitted height/width equals the original ratio. |
| `ImageFit.FitIdempotent` | src/components/MainCanvas/index.js:168-176 | Fitting an already-fitted image changes nothing. |
| `ImageFit.WideExample` | src/components/MainCanvas/index.js:168-171 | 1600x900 becomes 800x450. |
| `ImageFit.TallExample` | src/components/MainCanvas/index.js:173-176 | 400x1000 becomes 320x800. |
| `ImageFit.FitPixels` | src/components/MainCanvas/index.js:166-176 | The sizes the element holds after the fit. Each is at most one pixel below the exact fit, and both are inside the box. A decoded size in whole pixels stays in whole pixels. |
| `ImageFit.FitPixelsIsFloor` | src/components/MainCanvas/index.js:166-176 | For a decoded image in whole pixels, the stored sizes are the exact fit rounded down. |
| `ImageFit.PortraitExample` | src/components/MainCanvas/index.js:172-175 | 1000x1333 has an exact width above 600 but is stored as 600x800. |
| `ImageFit.ThinExample` | src/components/MainCanvas/index.js:172-175 | 1x1000 fits exactly to 0.8x800 but is stored as 0x800. |
| `MainCanvasComponent.MainCanvas.ChangeImage` | src/components/MainCanvas/index.js:156-183 | The image element is resized in place to `FitPixels` of its old size and becomes the prepared image. `originalImage` records the source, width, height and ratio read before any change. A failed load (no element) marks the image failed. It records `Unknown`, which stands for the undefined source and sizes and the NaN ratio that JavaScript computes. Nothing else in the store changes. |
| `MainCanvasComponent.MainCanvas.ImageEffect` | src/components/MainCanvas/index.js:31-50 | An absent or empty prop throws and changes nothing. A URL that decodes gives a fresh element, sized to `FitPixels` of the decoded size and prepared. A URL that fails marks the image failed, then throws with the URL. An element is resized in place to `FitPixels` and prepared. |
| `MainCanvasComponent.MainCanvas.StageEffect` | src/components/MainCanvas/index.js:52-108 | With no stage and a ready image, it creates exactly one fresh stage sized to the image. The image layer goes before the design layer. The transformer starts with no nodes, listens to `transform`, does not scale from the center, snaps to 0/90/180/270, and sits in the design layer. The cached base image is at (0,0) in the image layer. Neither layer has calls or filters yet. The five handles are published and no other store field changes. With a stage, the store and the layers stay the same. The stage height becomes the image height, the stage width also becomes the image height, and the base node draws the new image (it throws if there is none). While loading or after a failure it does nothing. |
| `MainCanvasComponent.ApplySettings` | src/components/MainCanvas/index.js:114-116 | The calls made are one filter's settings in key order, each with its argument. The walk stops at the first name the layer does not have, and the returned index points to it. |
| `MainCanvasComponent.ApplyEntry` | src/components/MainCanvas/index.js:113-117 | One filter's turn in the walk. If every setting of the filter ran, the layer's trace is the first i+1 filters' calls, all of them known. Otherwise the trace is exactly `KnownPrefix` of the whole configuration's calls, and the returned name is `FirstUnknown`. |
| `MainCanvasComponent.ApplyFinetune` | src/components/MainCanvas/index.js:112-117 | The calls made are the longest prefix of the configuration's calls (filter by filter, then setting by setting) whose names the layer has. The result is the first name it does not have, if any. The children and the filter list do not change. |
| `MainCanvasComponent.MainCanvas.FinetuneEffect` | src/components/MainCanvas/index.js:110-120 | It runs only with both a stage and an image layer. The calls are made in order and all before the filter list is set. The filter list is `ResolveFilters` of the keys. An unknown mutator name throws, with the first such name, and leaves the filter list as it was. The list depends only on the keys and the two registries, so applying the same config again sets the same list. |
| `Finetune.CallsAppend` | src/components/MainCanvas/index.js:113-117 | The trace of two configurations joined is the trace of the first followed by the trace of the second. |
| `Finetune.KnownPrefix` | src/components/MainCanvas/index.js:113-117 | The calls that run form a prefix of the trace, all with names the layer has. If the prefix is shorter than the trace, the next call's name is unknown. |
| `Finetune.KnownPrefixAt` | src/components/MainCanvas/index.js:113-117 | The calls that run are exactly the trace up to its first unknown name, or the whole trace when there is none. |
| `Finetune.FirstUnknown` | src/components/MainCanvas/index.js:113-117 | There is no throwing call exactly when every name of the trace is one the layer has. |
| `Finetune.CallsSnoc` | src/components/MainCanvas/index.js:113-116 | The calls of the first i+1 filters are those of the first i, followed by filter i's settings in key order. |
| `Finetune.CallAt` | src/components/MainCanvas/index.js:113-116 | Setting j of filter i sits in the whole trace right after the calls of the earlier filters and of the earlier settings of filter i. |
| `Finetune.StopsAt` | src/components/MainCanvas/index.js:113-117 | If setting j of filter i is the first unknown name, the calls that ran are the earlier filters' calls and the earlier settings of filter i, and that name is the one that throws. |
| `Finetune.RunsAll` | src/components/MainCanvas/index.js:113-117 | If every name is known, the whole trace runs and nothing throws. |
| `Finetune.ResolveFilters` | src/components/MainCanvas/index.js:118 | The list has the same length and order as the names. Entry i is the built-in filter when one exists, otherwise the custom one. It stays undefined when neither registry has the name. |
| `Finetune.BrightenContrastExample` | src/components/MainCanvas/index.js:112-118 | `{Brighten: {brightness: 0.3}, Contrast: {contrast: 0.1}}` makes the calls brightness(0.3) then contrast(0.1). The filter list is [Brighten, Contrast]. |
| `Annotation.ShapeConfigOf` | src/components/MainCanvas/index.js:126-131 | The shape keeps the id and the other properties. A truthy x becomes x − origin.x, and an absent or zero x becomes 0. The same holds for y. `libClassName` and `eventsToApply` are not passed. |
| `Annotation.WithAnnotation` | src/components/MainCanvas/index.js:140-146 | `annotations[id]` is the new shape, every other entry is unchanged, and the key set gains only `id`. |
| `Annotation.RectExample` | src/components/MainCanvas/index.js:126-131 | A Rect at (150,80) with the canvas corner at (50,20) lands at (100,60). |
| `MainCanvasComponent.MainCanvas.AnnotationEffect` | src/components/MainCanvas/index.js:122-148 | It runs only with a stage, both layers and a pending descriptor. A fresh shape of the requested class gets `ShapeConfigOf` the descriptor and exactly its handlers, in order. It is appended to the design layer, whose calls and filter list stay as they were, and published under its id. `tmpAnnotate` becomes null and no other store field changes. An unconstructible class throws and changes nothing. With nothing pending it does nothing, so a descriptor is not materialised twice. |
| `MainCanvasComponent.MainCanvas.SelectionEffect` | src/components/MainCanvas/index.js:150-154 | When a transformer exists, its node set becomes exactly `selections`. The old set is replaced, not merged. |
| `MainCanvasComponent.MainCanvas.OnTransform` | src/components/MainCanvas/index.js:80-83 | A transform event cancels any pending commit. It arms the shared timer with this canvas's store and the event's target. |
| `MainCanvasComponent.TransformTimer.Arm` | src/components/MainCanvas/index.js:81-82 | The slot holds the new commit whatever it held before (last write wins). |
| `MainCanvasComponent.TransformTimer.Fire` | src/components/MainCanvas/index.js:82 | The pending commit, if any, sets its store's `selections` to `[target]` and leaves every other field alone. The slot becomes idle. |
| `Debounce.BurstArmsLast` | src/components/MainCanvas/index.js:80-83 | A burst of transform events commits nothing and leaves the last target pending. |
| `Debounce.BurstThenFire` | src/components/MainCanvas/index.js:80-83 | Any non-empty burst of transform events followed by one timer firing makes exactly one commit, of the last event's target. |
| `Debounce.CommitsAtMostFires` | src/components/MainCanvas/index.js:80-83 | No run of events commits more often than the timer fires. |

## Left out

- React scheduling (`useEffect`, `useState`, dependency arrays) is not modelled. Each effect is a method that the caller runs against the current state.
- The JSX rendering of lines 185-199 (error message, loading placeholder, container element) is not modelled.
- The transformer's theme styling (anchor and border colours, sizes, dash, padding, lines 70-77) is presentation only.
- Browser image loading (`new Image()`, `crossOrigin`, `onload`/`onerror`) is not modelled. Only its outcome is: `ImageEffect` takes the decoded size, or `None` for a failure.
- Within the model, the callbacks run to completion when `ImageEffect` returns. The interval during which the image is still loading is not modelled.
- The canvas's bounding rectangle (`getBoundingClientRect`) is the `origin` parameter of `AnnotationEffect`.
- The 50 ms timer delay is not modelled. The timer firing is the explicit `TransformTimer.Fire` step.
- Konva dispatching `transform` events to the handler is not modelled. The handler is `OnTransform`, called directly.
- In JavaScript the `timeout` variable keeps a stale id after the timer fires. Clearing that id later does nothing. The model sets the slot back to idle instead, which behaves the same.
- The rendering library's internals are not modelled: construction details, `cache()` pixel work, hit-testing, filter pixels, and how `on` parses event names with namespaces or several events.
- The filter registries are maps supplied to the component. Inherited object properties of the JavaScript registries are not modelled.
- The shape classes the library can construct and the methods a layer answers to are given sets (`Library`). They are not a list taken from the library.
- `ImageFit.Fit`: requires a positive width. In floating point a zero width gives an infinite or NaN ratio, and exact reals cannot represent that.
- `MainCanvasComponent.MainCanvas.ChangeImage`: requires a positive width of a decoded image, for the same reason as `Fit`.
- `MainCanvasComponent.MainCanvas.ImageEffect`: requires a positive width of a decoded image, for the same reason as `Fit`.
- `MainCanvasComponent.MainCanvas.ImageEffect`: records the URL prop as the element's `src`. A browser reads `src` back resolved against the document's base URL, so `originalImage.src` can be the absolute form of the prop. That resolution is not modelled.
- `ImageFit.FitKeepsRatio`: holds for the exact fit only. The stored sizes keep the ratio only to within one pixel on each side, through `FitPixels`.
- Floating-point rounding is not modelled: the fit uses exact reals, and only the cut to whole pixels on each write is modelled. A NaN coordinate (falsy in JavaScript) is not modelled.
- Annotation coordinates are numbers or absent. JavaScript's coercion of non-number `x`/`y` values is not modelled.
- A descriptor always carries `eventsToApply` and an `id`. The TypeError for a missing `eventsToApply` is not modelled, and neither is the `"undefined"` key used for a missing id.

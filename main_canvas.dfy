/**
 * The main canvas component: its effects, each an explicit method run against
 * the current host state, its `changeImage` callback, and the module-level
 * debounce timer of the transformer's `transform` handler.
 *
 * React's scheduling is not modelled: whoever runs an effect calls its method.
 * Konva objects are the handles of module Scene.
 */
module MainCanvasComponent {
  import opened Wrappers
  import opened Scene
  import opened ImageFit
  import opened Finetune
  import opened Annotation
  import opened Debounce
  import opened HostStore

  /** Id of the container element the stage attaches to. */
  const MainCanvasId := "filerobot-image-editor_main-canvas"

  /** Angles the transformer snaps rotation to. */
  const RotationSnaps: seq<int> := [0, 90, 180, 270]

  /** The `image` prop: missing, a URL to load, or an image element the host already holds. */
  datatype ImageProp = Missing | Url(url: string) | Element(element: ImageElement)

  /** `!image`: no prop at all, or the empty string. */
  predicate IsFalsy(image: ImageProp) {
    image.Missing? || (image.Url? && image.url == "")
  }

  /** `preparedImage`: null while loading, false after a failed load, the fitted image once ready. */
  datatype Prepared = Loading | Failed | Ready(image: ImageElement)

  /** What the component throws. */
  datatype Error =
    | MissingImage
    | LoadFailed(url: string)
    | NotAFunction(name: string)
    | NotAConstructor(className: string)
    | NoBaseImage

  /** A debounced selection commit: the store it writes and the node that was transformed. */
  datatype Commit = Commit(store: Store, target: Node)

  /** The metadata recorded for a decoded image before it is fitted. */
  function Metadata(src: string, d: Dims): OriginalImage
    requires d.width > 0.0
  {
    Original(src, d.width, d.height, Ratio(d))
  }

  /**
   * The module-level `timeout`: a single pending commit shared by every canvas.
   * Arming it cancels whatever was pending.
   */
  class TransformTimer {
    var slot: Slot<Commit>

    constructor ()
      ensures slot == Idle
    {
      slot := Idle;
    }

    /** `clearTimeout(timeout); timeout = setTimeout(commit)`. */
    method Arm(c: Commit)
      modifies this
      ensures slot == Step(old(slot), Transform(c)).0
      ensures slot == Armed(c)
    {
      slot := Armed(c);
    }

    /** The timer fires: the pending commit, if any, writes `selections: [target]` to its store. */
    method Fire()
      modifies this, if slot.Armed? then {slot.pending.store} else {}
      ensures slot == Step(old(slot), TimerFires).0
      ensures var emitted := Step(old(slot), TimerFires).1;
        emitted.Some? ==>
          var c := emitted.value;
          c.store.state == Merge(old(c.store.state), Keep.(selections := Some([c.target])))
    {
      match slot
      case Idle =>
      case Armed(c) =>
        slot := Idle;
        c.store.Update(Keep.(selections := Some([c.target])));
    }
  }

  /** The scene a first image creates: fresh handles, wired together in the order the component adds them. */
  ghost predicate SceneBuilt(s: State, img: ImageElement)
    reads s.canvas, s.imageLayer, s.designLayer, s.transformer, s.canvasedImage, img
  {
    && s.canvas != null && s.imageLayer != null && s.designLayer != null
    && s.transformer != null && s.canvasedImage != null
    && s.imageLayer != s.designLayer
    && s.canvas.container == MainCanvasId
    && s.canvas.width == img.width && s.canvas.height == img.height
    && s.canvas.layers == [s.imageLayer, s.designLayer]
    && s.imageLayer.children == [ImageNode(s.canvasedImage)]
    && s.imageLayer.calls == [] && s.imageLayer.filters == []
    && s.designLayer.children == [TransformerNode(s.transformer)]
    && s.designLayer.calls == [] && s.designLayer.filters == []
    && s.transformer.nodes == [] && s.transformer.listensToTransform
    && !s.transformer.centeredScaling && s.transformer.rotationSnaps == RotationSnaps
    && s.canvasedImage.image == img && s.canvasedImage.x == 0.0 && s.canvasedImage.y == 0.0
    && s.canvasedImage.cached
  }

  /**
   * The inner walk: one filter's settings, in key order, each a call on the
   * layer. Stops at the first name the layer does not answer to and returns
   * its position; returns the length when every call ran.
   */
  method ApplySettings(layer: Layer, settings: seq<Setting>) returns (j: nat)
    modifies layer
    ensures j <= |settings|
    ensures layer.calls == old(layer.calls) + SettingCalls(settings[..j])
    ensures AllKnown(SettingCalls(settings[..j]), layer.api)
    ensures j < |settings| ==> settings[j].name !in layer.api
    ensures layer.children == old(layer.children) && layer.filters == old(layer.filters)
  {
    j := 0;
    while j < |settings|
      invariant 0 <= j <= |settings|
      invariant layer.calls == old(layer.calls) + SettingCalls(settings[..j])
      invariant AllKnown(SettingCalls(settings[..j]), layer.api)
      invariant layer.children == old(layer.children) && layer.filters == old(layer.filters)
    {
      var name := settings[j].name;
      if name !in layer.api {
        return;
      }
      layer.Invoke(Call(name, settings[j].arg));
      assert SettingCalls(settings[..j + 1]) == SettingCalls(settings[..j]) + [Call(name, settings[j].arg)];
      j := j + 1;
    }
  }

  /**
   * One step of the outer walk: filter `i`'s settings through `ApplySettings`,
   * after the calls of the filters before it (`before` is the trace the layer
   * had when the walk began). Either every call of the filter ran and the walk
   * goes on, or one threw and the walk is over.
   */
  method ApplyEntry(layer: Layer, config: Config, i: nat, ghost before: seq<Call>) returns (unknown: Option<string>)
    requires i < |config|
    requires layer.calls == before + Calls(config[..i]) && AllKnown(Calls(config[..i]), layer.api)
    modifies layer
    ensures unknown.None? ==>
      layer.calls == before + Calls(config[..i + 1]) && AllKnown(Calls(config[..i + 1]), layer.api)
    ensures unknown.Some? ==>
      layer.calls == before + KnownPrefix(Calls(config), layer.api)
      && unknown == FirstUnknown(Calls(config), layer.api)
    ensures layer.children == old(layer.children) && layer.filters == old(layer.filters)
  {
    var settings := config[i].settings;
    var j := ApplySettings(layer, settings);
    if j < |settings| {
      StopsAt(config, layer.api, i, j, before);
      return Some(settings[j].name);
    }
    Advance(config, layer.api, i, j, before);
    return None;
  }

  /**
   * The outer walk: every filter of the configuration in key order. The calls
   * made are the longest run of the configuration's calls the layer answers
   * to; the first name it does not answer to is returned.
   */
  method ApplyFinetune(layer: Layer, config: Config) returns (unknown: Option<string>)
    modifies layer
    ensures layer.calls == old(layer.calls) + KnownPrefix(Calls(config), layer.api)
    ensures unknown == FirstUnknown(Calls(config), layer.api)
    ensures layer.children == old(layer.children) && layer.filters == old(layer.filters)
  {
    var i := 0;
    while i < |config|
      invariant 0 <= i <= |config|
      invariant layer.calls == old(layer.calls) + Calls(config[..i])
      invariant AllKnown(Calls(config[..i]), layer.api)
      invariant layer.children == old(layer.children) && layer.filters == old(layer.filters)
    {
      unknown := ApplyEntry(layer, config, i, old(layer.calls));
      if unknown.Some? {
        return;
      }
      i := i + 1;
    }
    assert config[..i] == config;
    RunsAll(config, layer.api);
    return None;
  }

  class MainCanvas {
    /** The host's state container. */
    const store: Store
    /** The rendering library: layer methods, shape classes, built-in filters. */
    const konva: Library
    /** The custom filter registry, consulted after the built-in one. */
    const customFilters: map<string, FilterFn>
    /** The module-level debounce timer. */
    const timer: TransformTimer
    var preparedImage: Prepared

    constructor (store: Store, konva: Library, customFilters: map<string, FilterFn>, timer: TransformTimer)
      ensures this.store == store && this.konva == konva && this.customFilters == customFilters
      ensures this.timer == timer && preparedImage == Loading
    {
      this.store := store;
      this.konva := konva;
      this.customFilters := customFilters;
      this.timer := timer;
      preparedImage := Loading;
    }

    /**
     * `changeImage`: fits a decoded image in place and makes it the prepared
     * image, or, given no image (a failed load), marks the load failed. In both
     * cases the host receives the metadata read before any change.
     */
    method ChangeImage(loaded: ImageElement?)
      requires loaded != null ==> Decoded(Dims(loaded.width, loaded.height))
      modifies this, store, loaded
      ensures loaded == null ==>
        && preparedImage == Failed
        && store.state == Merge(old(store.state), Keep.(originalImage := Some(Some(Unknown))))
      ensures loaded != null ==>
        var before := old(Dims(loaded.width, loaded.height));
        && Dims(loaded.width, loaded.height) == FitPixels(before)
        && preparedImage == Ready(loaded)
        && store.state == Merge(old(store.state), Keep.(originalImage := Some(Some(Metadata(loaded.src, before)))))
    {
      if loaded == null {
        preparedImage := Failed;
        store.Update(Keep.(originalImage := Some(Some(Unknown))));
        return;
      }
      var ratio := Ratio(Dims(loaded.width, loaded.height));
      var originalImage := Original(loaded.src, loaded.width, loaded.height, ratio);
      var isVerticalImage := ratio > 1.0;
      if loaded.width > MaxCanvasWidth && !isVerticalImage {
        loaded.width := MaxCanvasWidth;
        loaded.height := Truncate(ratio * loaded.width);
      }
      if loaded.height > MaxCanvasHeight && isVerticalImage {
        loaded.height := MaxCanvasHeight;
        assert loaded.height / ratio >= 0.0;
        loaded.width := Truncate(loaded.height / ratio);
      }
      preparedImage := Ready(loaded);
      store.Update(Keep.(originalImage := Some(Some(originalImage))));
    }

    /**
     * The image effect: an absent or empty prop throws; a URL is loaded
     * (`decoded` is what the browser decoded, `None` when loading failed) and
     * handed to `ChangeImage`; an element is handed over as it is, and fitted
     * in place.
     */
    method ImageEffect(image: ImageProp, decoded: Option<Dims>) returns (err: Option<Error>)
      requires image.Url? && decoded.Some? ==> Decoded(decoded.value)
      requires image.Element? ==> Decoded(Dims(image.element.width, image.element.height))
      modifies this, store, if image.Element? then {image.element} else {}
      ensures IsFalsy(image) ==>
        err == Some(MissingImage) && preparedImage == old(preparedImage) && store.state == old(store.state)
      ensures image.Url? && !IsFalsy(image) && decoded.None? ==>
        && err == Some(LoadFailed(image.url))
        && preparedImage == Failed
        && store.state == Merge(old(store.state), Keep.(originalImage := Some(Some(Unknown))))
      ensures image.Url? && !IsFalsy(image) && decoded.Some? ==>
        && err == None
        && preparedImage.Ready? && fresh(preparedImage.image)
        && preparedImage.image.src == image.url
        && Dims(preparedImage.image.width, preparedImage.image.height) == FitPixels(decoded.value)
        && store.state == Merge(old(store.state), Keep.(originalImage := Some(Some(Metadata(image.url, decoded.value)))))
      ensures image.Element? ==>
        var el := image.element;
        var before := old(Dims(el.width, el.height));
        && err == None
        && preparedImage == Ready(el)
        && Dims(el.width, el.height) == FitPixels(before)
        && store.state == Merge(old(store.state), Keep.(originalImage := Some(Some(Metadata(el.src, before)))))
    {
      if IsFalsy(image) {
        return Some(MissingImage);
      }
      if image.Url? {
        if decoded.None? {
          ChangeImage(null);
          return Some(LoadFailed(image.url));
        }
        var element := new ImageElement(image.url, decoded.value.width, decoded.value.height);
        ChangeImage(element);
        return None;
      }
      ChangeImage(image.element);
      return None;
    }

    /**
     * The stage effect. With no stage yet and an image ready it builds the scene
     * once and publishes its five handles; with a stage it sets the stage's height
     * and its width to the image's height, and swaps the base node's image; while
     * loading or after a failed load it does nothing.
     */
    method StageEffect() returns (err: Option<Error>)
      modifies store, store.state.canvas, store.state.canvasedImage
      ensures old(store.state.canvas) == null && preparedImage.Ready? ==>
        var s := store.state;
        && err == None
        && SceneBuilt(s, preparedImage.image)
        && fresh(s.canvas) && fresh(s.imageLayer) && fresh(s.designLayer)
        && fresh(s.transformer) && fresh(s.canvasedImage)
        && s == Merge(old(store.state), Keep.(canvas := Some(s.canvas), designLayer := Some(s.designLayer),
                imageLayer := Some(s.imageLayer), canvasedImage := Some(s.canvasedImage),
                transformer := Some(s.transformer)))
      ensures old(store.state.canvas) != null && preparedImage.Ready? ==>
        var s := store.state;
        var img := preparedImage.image;
        && s == old(store.state)
        && s.canvas.height == img.height && s.canvas.width == img.height
        && s.canvas.layers == old(s.canvas.layers)
        && (s.canvasedImage == null ==> err == Some(NoBaseImage))
        && (s.canvasedImage != null ==>
              err == None && s.canvasedImage.image == img && s.canvasedImage.cached == old(s.canvasedImage.cached))
      ensures !preparedImage.Ready? ==>
        && err == None && store.state == old(store.state)
        && (store.state.canvas != null ==> unchanged(store.state.canvas))
        && (store.state.canvasedImage != null ==> unchanged(store.state.canvasedImage))
    {
      var s := store.state;
      if s.canvas == null && preparedImage.Ready? {
        var img := preparedImage.image;
        var canvas := new Stage(MainCanvasId, img.width, img.height);
        var imageLayer := new Layer(konva.layerApi);
        canvas.Add(imageLayer);
        var designLayer := new Layer(konva.layerApi);
        canvas.Add(designLayer);
        var transformer := new Transformer(false, RotationSnaps, []);
        transformer.OnTransform();
        designLayer.Add(TransformerNode(transformer));
        var canvasedImage := new CanvasImage(img, 0.0, 0.0);
        canvasedImage.Cache();
        imageLayer.Add(ImageNode(canvasedImage));
        store.Update(Keep.(canvas := Some(canvas), designLayer := Some(designLayer), imageLayer := Some(imageLayer),
          canvasedImage := Some(canvasedImage), transformer := Some(transformer)));
        return None;
      } else if preparedImage.Ready? {
        var img := preparedImage.image;
        s.canvas.SetHeight(img.height);
        s.canvas.SetWidth(img.height);
        if s.canvasedImage == null {
          return Some(NoBaseImage);
        }
        s.canvasedImage.SetImage(img);
        return None;
      }
      return None;
    }

    /**
     * The finetune effect. With a stage and an image layer it calls each
     * configured mutator on the layer, filter by filter in key order, then sets
     * the layer's filter list from the filter names. A mutator name the layer
     * does not answer to throws there, after the calls before it and before the
     * filter list is set.
     */
    method FinetuneEffect() returns (err: Option<Error>)
      modifies store.state.imageLayer
      ensures var s := store.state;
        s.canvas != null && s.imageLayer != null ==>
          var layer := s.imageLayer;
          var calls := Calls(s.finetune);
          var unknown := FirstUnknown(calls, layer.api);
          && layer.calls == old(layer.calls) + KnownPrefix(calls, layer.api)
          && layer.children == old(layer.children)
          && (unknown.None? ==>
                err == None && layer.filters == ResolveFilters(Keys(s.finetune), konva.filters, customFilters))
          && (unknown.Some? ==>
                err == Some(NotAFunction(unknown.value)) && layer.filters == old(layer.filters))
      ensures var s := store.state;
        !(s.canvas != null && s.imageLayer != null) ==>
          err == None && (s.imageLayer != null ==> unchanged(s.imageLayer))
    {
      var s := store.state;
      if s.canvas == null || s.imageLayer == null {
        return None;
      }
      var layer := s.imageLayer;
      var unknown := ApplyFinetune(layer, s.finetune);
      if unknown.Some? {
        return Some(NotAFunction(unknown.value));
      }
      layer.SetFilters(ResolveFilters(Keys(s.finetune), konva.filters, customFilters));
      return None;
    }

    /**
     * The annotation effect. With a stage, both layers and a pending descriptor
     * it builds the shape from the descriptor (position made canvas-local against
     * `origin`, the canvas's bounding-rectangle corner), binds every handler,
     * adds the shape to the design layer, publishes it under its id and clears
     * the pending descriptor. A class the library cannot construct throws before
     * anything changes.
     */
    method AnnotationEffect(origin: Point) returns (err: Option<Error>)
      modifies store, store.state.designLayer
      ensures var s := old(store.state);
        !(s.canvas != null && s.imageLayer != null && s.designLayer != null && s.tmpAnnotate.Some?) ==>
          && err == None && store.state == s
          && (s.designLayer != null ==> unchanged(s.designLayer))
      ensures var s := old(store.state);
        s.canvas != null && s.imageLayer != null && s.designLayer != null && s.tmpAnnotate.Some? &&
        s.tmpAnnotate.value.libClassName !in konva.shapeClasses ==>
          && err == Some(NotAConstructor(s.tmpAnnotate.value.libClassName))
          && store.state == s && unchanged(s.designLayer)
      ensures var s := old(store.state);
        s.canvas != null && s.imageLayer != null && s.designLayer != null && s.tmpAnnotate.Some? &&
        s.tmpAnnotate.value.libClassName in konva.shapeClasses ==>
          var d := s.tmpAnnotate.value;
          && err == None
          && d.id in store.state.annotations
          && var shape := store.state.annotations[d.id];
          && fresh(shape)
          && shape.className == d.libClassName
          && shape.config == ShapeConfigOf(d, origin)
          && shape.handlers == d.eventsToApply
          && s.designLayer.children == old(s.designLayer.children) + [ShapeNode(shape)]
          && s.designLayer.calls == old(s.designLayer.calls) && s.designLayer.filters == old(s.designLayer.filters)
          && store.state == Merge(s, Keep.(annotations := Some(WithAnnotation(s.annotations, d.id, shape)),
                                           tmpAnnotate := Some(None)))
    {
      var s := store.state;
      if s.canvas == null || s.imageLayer == null || s.designLayer == null || s.tmpAnnotate.None? {
        return None;
      }
      var d := s.tmpAnnotate.value;
      if d.libClassName !in konva.shapeClasses {
        return Some(NotAConstructor(d.libClassName));
      }
      var shape := new Shape(d.libClassName, ShapeConfigOf(d, origin));
      var events := d.eventsToApply;
      var k := 0;
      while k < |events|
        invariant 0 <= k <= |events|
        invariant shape.handlers == events[..k]
        modifies shape
      {
        shape.On(events[k].event, events[k].handler);
        k := k + 1;
      }
      assert events[..k] == events;
      s.designLayer.Add(ShapeNode(shape));
      var id := d.id;
      store.UpdateWith((st: State) => Keep.(annotations := Some(WithAnnotation(st.annotations, id, shape)),
                                   tmpAnnotate := Some(None)));
      return None;
    }

    /** The selection effect: the transformer, if any, wraps exactly the selected nodes. */
    method SelectionEffect()
      modifies store.state.transformer
      ensures var t := store.state.transformer;
        t != null ==> t.nodes == store.state.selections && t.listensToTransform == old(t.listensToTransform)
    {
      var t := store.state.transformer;
      if t != null {
        t.SetNodes(store.state.selections);
      }
    }

    /** The transformer's `transform` handler: re-arm the shared timer for this event's target. */
    method OnTransform(target: Node)
      modifies timer
      ensures timer.slot == Step(old(timer.slot), Transform(Commit(store, target))).0
      ensures timer.slot == Armed(Commit(store, target))
    {
      timer.Arm(Commit(store, target));
    }
  }
}

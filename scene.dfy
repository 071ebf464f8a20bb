/**
 * The objects of the rendering library and of the browser that the main canvas
 * drives, reduced to opaque handles. Each keeps only the state the canvas sets
 * or reads: sizes, children in insertion order, the node set of the transformer,
 * the event bindings of a shape, and the trace of mutator calls and the filter
 * list of a layer. Drawing, hit-testing, caching and filter pixels are not here.
 */
module Scene {
  import opened Wrappers

  /** An event handler supplied by the host; what it does is not the canvas's concern. */
  datatype Handler = Handler(id: nat)

  /** A pixel filter function of the built-in or the custom registry. */
  datatype FilterFn = FilterFn(id: nat)

  /** A plain value: a mutator argument, or a shape property. */
  datatype Value = Num(n: real) | Text(s: string) | Flag(b: bool) | Ref(id: nat)

  /** One call `layer[name](arg)` on a layer. */
  datatype Call = Call(name: string, arg: Value)

  /** One registration `node.on(event, handler)`. */
  datatype Binding = Binding(event: string, handler: Handler)

  /** What a new shape is built from: its id, its canvas-local position and its other properties. */
  datatype ShapeConfig = ShapeConfig(id: string, x: real, y: real, rest: map<string, Value>)

  /**
   * The rendering library as a capability: the method names a layer answers to,
   * the shape class names it can construct, and its built-in filter registry.
   */
  datatype Library = Library(layerApi: set<string>, shapeClasses: set<string>, filters: map<string, FilterFn>)

  /** A decoded browser image; its `width` and `height` are writable properties. */
  class ImageElement {
    const src: string
    var width: real
    var height: real

    constructor (src: string, width: real, height: real)
      ensures this.src == src && this.width == width && this.height == height
    {
      this.src := src;
      this.width := width;
      this.height := height;
    }
  }

  /** A node drawing an image element at a fixed position. */
  class CanvasImage {
    var image: ImageElement
    const x: real
    const y: real
    var cached: bool

    constructor (image: ImageElement, x: real, y: real)
      ensures this.image == image && this.x == x && this.y == y && !cached
    {
      this.image := image;
      this.x := x;
      this.y := y;
      cached := false;
    }

    method Cache()
      modifies this
      ensures cached && image == old(image)
    {
      cached := true;
    }

    /** Swaps the drawn image; the node keeps its identity and its cache flag. */
    method SetImage(img: ImageElement)
      modifies this
      ensures image == img && cached == old(cached)
    {
      image := img;
    }
  }

  /** The selection widget: the nodes it wraps and whether the canvas listens to its `transform` events. */
  class Transformer {
    const centeredScaling: bool
    const rotationSnaps: seq<int>
    var nodes: seq<Node>
    var listensToTransform: bool

    constructor (centeredScaling: bool, rotationSnaps: seq<int>, nodes: seq<Node>)
      ensures this.centeredScaling == centeredScaling && this.rotationSnaps == rotationSnaps
      ensures this.nodes == nodes && !listensToTransform
    {
      this.centeredScaling := centeredScaling;
      this.rotationSnaps := rotationSnaps;
      this.nodes := nodes;
      listensToTransform := false;
    }

    /** Replaces the wrapped node set. */
    method SetNodes(ns: seq<Node>)
      modifies this
      ensures nodes == ns && listensToTransform == old(listensToTransform)
    {
      nodes := ns;
    }

    method OnTransform()
      modifies this
      ensures listensToTransform && nodes == old(nodes)
    {
      listensToTransform := true;
    }
  }

  /** An annotation shape of some library class, with the handlers bound on it in order. */
  class Shape {
    const className: string
    const config: ShapeConfig
    var handlers: seq<Binding>

    constructor (className: string, config: ShapeConfig)
      ensures this.className == className && this.config == config && handlers == []
    {
      this.className := className;
      this.config := config;
      handlers := [];
    }

    method On(event: string, handler: Handler)
      modifies this
      ensures handlers == old(handlers) + [Binding(event, handler)]
    {
      handlers := handlers + [Binding(event, handler)];
    }
  }

  /** Anything a layer can hold, and anything the transformer can wrap. */
  datatype Node =
    | ImageNode(image: CanvasImage)
    | TransformerNode(transformer: Transformer)
    | ShapeNode(shape: Shape)

  /** A layer: its children in z-order, the mutator calls made on it and its filter list. */
  class Layer {
    const api: set<string>
    var children: seq<Node>
    var calls: seq<Call>
    var filters: seq<Option<FilterFn>>

    constructor (api: set<string>)
      ensures this.api == api && children == [] && calls == [] && filters == []
    {
      this.api := api;
      children := [];
      calls := [];
      filters := [];
    }

    method Add(n: Node)
      modifies this
      ensures children == old(children) + [n]
      ensures calls == old(calls) && filters == old(filters)
    {
      children := children + [n];
    }

    /** `layer[c.name](c.arg)`, for a name the layer answers to. */
    method Invoke(c: Call)
      requires c.name in api
      modifies this
      ensures calls == old(calls) + [c]
      ensures children == old(children) && filters == old(filters)
    {
      calls := calls + [c];
    }

    method SetFilters(fs: seq<Option<FilterFn>>)
      modifies this
      ensures filters == fs
      ensures children == old(children) && calls == old(calls)
    {
      filters := fs;
    }
  }

  /** The root surface, attached to a container element, holding its layers in order. */
  class Stage {
    const container: string
    var width: real
    var height: real
    var layers: seq<Layer>

    constructor (container: string, width: real, height: real)
      ensures this.container == container && this.width == width && this.height == height
      ensures layers == []
    {
      this.container := container;
      this.width := width;
      this.height := height;
      layers := [];
    }

    method Add(layer: Layer)
      modifies this
      ensures layers == old(layers) + [layer]
      ensures width == old(width) && height == old(height)
    {
      layers := layers + [layer];
    }

    method SetWidth(w: real)
      modifies this
      ensures width == w && height == old(height) && layers == old(layers)
    {
      width := w;
    }

    method SetHeight(h: real)
      modifies this
      ensures height == h && width == old(width) && layers == old(layers)
    {
      height := h;
    }
  }
}

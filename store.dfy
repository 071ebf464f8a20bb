/**
 * The host's state container as the canvas sees it: a record of the fields it
 * reads and writes, updated by partial patches that are merged shallowly.
 */
module HostStore {
  import opened Wrappers
  import opened Scene
  import opened ImageFit
  import opened Finetune
  import opened Annotation

  /** The fields of the host state the canvas reads or writes; `null` handles are not yet created. */
  datatype State = State(
    canvas: Stage?,
    imageLayer: Layer?,
    designLayer: Layer?,
    transformer: Transformer?,
    canvasedImage: CanvasImage?,
    selections: seq<Node>,
    finetune: Config,
    tmpAnnotate: Option<Descriptor>,
    annotations: map<string, Shape>,
    originalImage: Option<OriginalImage>)

  /** A partial object handed to `updateState`: `None` leaves a field as it is. */
  datatype Patch = Patch(
    canvas: Option<Stage?>,
    imageLayer: Option<Layer?>,
    designLayer: Option<Layer?>,
    transformer: Option<Transformer?>,
    canvasedImage: Option<CanvasImage?>,
    selections: Option<seq<Node>>,
    finetune: Option<Config>,
    tmpAnnotate: Option<Option<Descriptor>>,
    annotations: Option<map<string, Shape>>,
    originalImage: Option<Option<OriginalImage>>)

  /** The patch that sets nothing; the canvas's patches are this one with a few fields set. */
  const Keep := Patch(None, None, None, None, None, None, None, None, None, None)

  function Pick<T>(patched: Option<T>, current: T): T {
    if patched.Some? then patched.value else current
  }

  /** Shallow merge: each field the patch sets replaces the current one. */
  function Merge(s: State, p: Patch): State {
    State(
      Pick(p.canvas, s.canvas),
      Pick(p.imageLayer, s.imageLayer),
      Pick(p.designLayer, s.designLayer),
      Pick(p.transformer, s.transformer),
      Pick(p.canvasedImage, s.canvasedImage),
      Pick(p.selections, s.selections),
      Pick(p.finetune, s.finetune),
      Pick(p.tmpAnnotate, s.tmpAnnotate),
      Pick(p.annotations, s.annotations),
      Pick(p.originalImage, s.originalImage))
  }

  /** The host store; the canvas only ever writes it through `Update`. */
  class Store {
    var state: State

    constructor (initial: State)
      ensures state == initial
    {
      state := initial;
    }

    /** `updateState(partial)`. */
    method Update(p: Patch)
      modifies this
      ensures state == Merge(old(state), p)
    {
      state := Merge(state, p);
    }

    /** `updateState(state => partial)`: the patch is computed from the state it is merged into. */
    method UpdateWith(f: State -> Patch)
      modifies this
      ensures state == Merge(old(state), f(old(state)))
    {
      state := Merge(state, f(state));
    }
  }
}

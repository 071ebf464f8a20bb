/**
 * Annotation materialisation, the value part: a pending descriptor becomes the
 * config of a new shape (structural fields stripped, pointer coordinates made
 * canvas-local), and the new shape is published in the id-to-shape map.
 */
module Annotation {
  import opened Wrappers
  import opened Scene

  /**
   * A pending annotation: the library class to construct, the handlers to bind
   * (in key order), the id, the optional pointer-space position and the other
   * shape properties (style, size, ...). As in the JavaScript object it
   * stands for, `rest` holds none of the keys that have their own field
   * (`libClassName`, `eventsToApply`, `id`, `x`, `y`).
   */
  datatype Descriptor = Descriptor(
    libClassName: string,
    eventsToApply: seq<Binding>,
    id: string,
    x: Option<real>,
    y: Option<real>,
    rest: map<string, Value>)

  /** A point in pointer space: the top-left corner of the canvas's bounding rectangle. */
  datatype Point = Point(x: real, y: real)

  /** JavaScript truthiness of an optional number: absent and zero are both falsy. */
  predicate Truthy(c: Option<real>) {
    c.Some? && c.value != 0.0
  }

  /** `c ? c - origin : 0`. */
  function ToLocal(c: Option<real>, origin: real): real {
    if Truthy(c) then c.value - origin else 0.0
  }

  /**
   * The config the new shape is built from: everything but `libClassName` and
   * `eventsToApply` (which the config has no room for), with a truthy x or y
   * moved from pointer space to canvas space and an absent or zero one at 0.
   */
  function ShapeConfigOf(d: Descriptor, origin: Point): (c: ShapeConfig)
    ensures c.id == d.id && c.rest == d.rest
    ensures Truthy(d.x) ==> c.x + origin.x == d.x.value
    ensures !Truthy(d.x) ==> c.x == 0.0
    ensures Truthy(d.y) ==> c.y + origin.y == d.y.value
    ensures !Truthy(d.y) ==> c.y == 0.0
  {
    ShapeConfig(d.id, ToLocal(d.x, origin.x), ToLocal(d.y, origin.y), d.rest)
  }

  /** `{ ...annotations, [id]: shape }`: the new entry, and every other entry as it was. */
  function WithAnnotation(annotations: map<string, Shape>, id: string, shape: Shape): (r: map<string, Shape>)
    ensures r.Keys == annotations.Keys + {id}
    ensures r[id] == shape
    ensures forall k :: k in annotations && k != id ==> r[k] == annotations[k]
  {
    annotations[id := shape]
  }

  /** A Rect at pointer (150, 80) on a canvas whose corner is at (50, 20) lands at (100, 60). */
  lemma RectExample(click: Handler)
    ensures var d := Descriptor("Rect", [Binding("click", click)], "a1", Some(150.0), Some(80.0), map[]);
      var c := ShapeConfigOf(d, Point(50.0, 20.0));
      c.x == 100.0 && c.y == 60.0 && c.id == "a1"
  {
  }
}

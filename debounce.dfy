/**
 * The commit-up debounce as a state machine over one pending slot.
 *
 * A transform event cancels whatever commit is pending and arms a new one for
 * its target (last write wins, nothing is queued); the timer firing commits the
 * pending target, if any, and leaves the slot idle. The delay itself is not
 * modelled: the firing is an explicit event.
 */
module Debounce {
  import opened Wrappers

  datatype Slot<T> = Idle | Armed(pending: T)

  datatype Event<T> = Transform(target: T) | TimerFires

  /** One event: the next slot, and the commit it emits (if any). */
  function Step<T>(s: Slot<T>, e: Event<T>): (Slot<T>, Option<T>) {
    match e
    case Transform(t) => (Armed(t), None)
    case TimerFires =>
      match s
      case Idle => (Idle, None)
      case Armed(t) => (Idle, Some(t))
  }

  /** The commits a step emits, as a sequence. */
  function Emitted<T>(c: Option<T>): seq<T> {
    if c.Some? then [c.value] else []
  }

  /** A run of events: the final slot, and the commits emitted, in order. */
  function Run<T>(s: Slot<T>, es: seq<Event<T>>): (Slot<T>, seq<T>)
    decreases |es|
  {
    if es == [] then (s, [])
    else
      var step := Step(s, es[0]);
      var rest := Run(step.0, es[1..]);
      (rest.0, Emitted(step.1) + rest.1)
  }

  /** The transform events of a gesture, one per target, in order. */
  function Transforms<T>(targets: seq<T>): seq<Event<T>> {
    seq(|targets|, i requires 0 <= i < |targets| => Transform(targets[i]))
  }

  function CountFires<T>(es: seq<Event<T>>): nat {
    if es == [] then 0 else (if es[0].TimerFires? then 1 else 0) + CountFires(es[1..])
  }

  /** Running two runs back to back is running their concatenation. */
  lemma {:induction false} RunAppend<T>(s: Slot<T>, a: seq<Event<T>>, b: seq<Event<T>>)
    ensures Run(s, a + b).0 == Run(Run(s, a).0, b).0
    ensures Run(s, a + b).1 == Run(s, a).1 + Run(Run(s, a).0, b).1
    decreases |a|
  {
    if a == [] {
      assert a + b == b;
    } else {
      var step := Step(s, a[0]);
      assert (a + b)[0] == a[0];
      assert (a + b)[1..] == a[1..] + b;
      RunAppend(step.0, a[1..], b);
    }
  }

  /** A burst of transform events commits nothing and leaves the last target pending. */
  lemma {:induction false} BurstArmsLast<T>(s: Slot<T>, targets: seq<T>)
    requires |targets| > 0
    ensures Run(s, Transforms(targets)).0 == Armed(targets[|targets| - 1])
    ensures Run(s, Transforms(targets)).1 == []
    decreases |targets|
  {
    var es := Transforms(targets);
    assert Step(s, es[0]) == (Armed(targets[0]), None);
    if |targets| > 1 {
      assert es[1..] == Transforms(targets[1..]);
      BurstArmsLast(Armed(targets[0]), targets[1..]);
    } else {
      assert es[1..] == [];
      assert Run(Armed(targets[0]), es[1..]) == (Armed(targets[0]), []);
    }
    assert Emitted<T>(None) == [];
  }

  /**
   * Any burst of transform events followed by one firing of the timer makes
   * exactly one commit, of the last event's target, and leaves the slot idle.
   */
  lemma BurstThenFire<T>(s: Slot<T>, targets: seq<T>)
    requires |targets| > 0
    ensures Run(s, Transforms(targets) + [TimerFires]).0 == Idle
    ensures Run(s, Transforms(targets) + [TimerFires]).1 == [targets[|targets| - 1]]
  {
    var last := targets[|targets| - 1];
    BurstArmsLast(s, targets);
    RunAppend(s, Transforms(targets), [TimerFires]);
    var fire: seq<Event<T>> := [TimerFires];
    assert Step(Armed(last), fire[0]) == (Idle, Some(last));
    assert fire[1..] == [];
    assert Run(Idle, fire[1..]) == (Idle, []);
    assert Run(Armed(last), fire).1 == [last];
  }

  /** Every commit needs a firing of the timer: there are never more commits than firings. */
  lemma {:induction false} CommitsAtMostFires<T>(s: Slot<T>, es: seq<Event<T>>)
    ensures |Run(s, es).1| <= CountFires(es)
    decreases |es|
  {
    if es != [] {
      CommitsAtMostFires(Step(s, es[0]).0, es[1..]);
    }
  }
}

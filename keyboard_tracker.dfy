/**
 * The pressed-key list: a press appends its key (a key pressed twice is listed
 * twice), a release removes every occurrence of its key, and an event without
 * a virtual key code does nothing. A key counts as pressed while it is listed.
 */
module KeyboardTracker {
  import opened Wrappers

  datatype ElementState = Pressed | Released

  /** A keyboard event: its state and the virtual key code, when the platform supplied one. */
  datatype KeyboardInput<K> = KeyboardInput(state: ElementState, virtualKeycode: Option<K>)

  /** `retain(|key| *key != k)`: `s` without any `k`, the other keys kept in order. */
  function Without<K(==,!new)>(s: seq<K>, k: K): (r: seq<K>)
    ensures k !in r
    ensures forall x :: x != k ==> (x in r <==> x in s)
    ensures |r| <= |s|
  {
    if |s| == 0 then []
    else
      var rest := Without(s[..|s| - 1], k);
      assert forall x :: x in s <==> x in s[..|s| - 1] || x == s[|s| - 1];
      if s[|s| - 1] == k then rest else rest + [s[|s| - 1]]
  }

  /** Removal distributes over concatenation: the keys that stay keep their relative order. */
  lemma {:induction false} WithoutConcat<K(!new)>(a: seq<K>, b: seq<K>, k: K)
    ensures Without(a + b, k) == Without(a, k) + Without(b, k)
    decreases |b|
  {
    if |b| == 0 {
      assert a + b == a;
    } else {
      assert (a + b)[..|a + b| - 1] == a + b[..|b| - 1];
      WithoutConcat(a, b[..|b| - 1], k);
    }
  }

  /** Every other key keeps its number of occurrences. */
  lemma {:induction false} WithoutKeepsOthers<K(!new)>(s: seq<K>, k: K, x: K)
    requires x != k
    ensures multiset(Without(s, k))[x] == multiset(s)[x]
  {
    if |s| > 0 {
      WithoutKeepsOthers(s[..|s| - 1], k, x);
      assert s == s[..|s| - 1] + [s[|s| - 1]];
    }
  }

  /** Removing a key that is not listed changes nothing. */
  lemma {:induction false} WithoutAbsent<K(!new)>(s: seq<K>, k: K)
    requires k !in s
    ensures Without(s, k) == s
  {
    if |s| > 0 {
      WithoutAbsent(s[..|s| - 1], k);
      assert s == s[..|s| - 1] + [s[|s| - 1]];
    }
  }

  /** A release after a press of the same key leaves what a release alone leaves. */
  lemma PressThenRelease<K(!new)>(s: seq<K>, k: K)
    ensures Without(s + [k], k) == Without(s, k)
  {
    WithoutConcat(s, [k], k);
    assert Without([k], k) == [];
  }

  /** The list after one event. */
  function Step<K(==,!new)>(s: seq<K>, event: KeyboardInput<K>): seq<K> {
    match event.virtualKeycode
    case None => s
    case Some(k) => if event.state == Pressed then s + [k] else Without(s, k)
  }

  /** An event only ever changes whether its own key is pressed. */
  lemma StepTouchesOnlyItsKey<K(!new)>(s: seq<K>, event: KeyboardInput<K>, j: K)
    requires event.virtualKeycode != Some(j)
    ensures j in Step(s, event) <==> j in s
  {
  }

  class KeyboardTracker<K(==,!new)> {
    var state: seq<K>

    /** A tracker with no key pressed. */
    constructor ()
      ensures state == []
      ensures forall k :: !IsPressed(k)
    {
      state := [];
    }

    /** Whether `keycode` is listed at some position. */
    function IsPressed(keycode: K): (r: bool)
      reads this
      ensures r <==> exists i :: 0 <= i < |state| && state[i] == keycode
    {
      keycode in state
    }

    /**
     * Applies one event: a press appends its key, a release removes every
     * occurrence of it, an event without a key code leaves the list alone.
     */
    method InputEvent(event: KeyboardInput<K>)
      modifies this
      ensures state == Step(old(state), event)
      ensures event.virtualKeycode.None? ==> state == old(state)
      ensures event.state == Pressed && event.virtualKeycode.Some? ==> IsPressed(event.virtualKeycode.value)
      ensures event.state == Released && event.virtualKeycode.Some? ==> !IsPressed(event.virtualKeycode.value)
      ensures forall j :: event.virtualKeycode != Some(j) ==> (IsPressed(j) <==> old(IsPressed(j)))
    {
      match event.state {
        case Pressed =>
          if event.virtualKeycode.Some? {
            state := state + [event.virtualKeycode.value];
          }
        case Released =>
          if event.virtualKeycode.Some? {
            state := Without(state, event.virtualKeycode.value);
          }
      }
    }
  }

  /** Pressing a key twice and releasing it once leaves it released. */
  method DoublePressSingleRelease<K(==,!new)>(tracker: KeyboardTracker<K>, k: K)
    modifies tracker
    ensures !tracker.IsPressed(k)
    ensures tracker.state == Without(old(tracker.state), k)
  {
    tracker.InputEvent(KeyboardInput(Pressed, Some(k)));
    tracker.InputEvent(KeyboardInput(Pressed, Some(k)));
    tracker.InputEvent(KeyboardInput(Released, Some(k)));
    PressThenRelease(old(tracker.state) + [k], k);
    PressThenRelease(old(tracker.state), k);
  }
}

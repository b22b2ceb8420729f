/** The shared touch state the sensor loop publishes and the audio callback
    reads: two arrays of `NUM_TOUCH` entries and the count of active touches. */
module Touches {

  /** The number of touch slots on the slider. */
  const NUM_TOUCH: nat := 4

  /** `prev` with its first `n` entries replaced by those of `src`. */
  function Overlay(prev: seq<real>, src: seq<real>, n: nat): (r: seq<real>)
    requires n <= |prev| && n <= |src|
    ensures |r| == |prev|
    ensures forall i :: 0 <= i < n ==> r[i] == src[i]
    ensures forall i :: n <= i < |prev| ==> r[i] == prev[i]
  {
    src[..n] + prev[n..]
  }

  /** Publishing `m >= n` touches after publishing `n` leaves no trace of the
      earlier publication; publishing the same touches again changes nothing. */
  lemma OverlayAbsorbs(prev: seq<real>, first: seq<real>, second: seq<real>, n: nat, m: nat)
    requires n <= m <= |prev| && n <= |first| && m <= |second|
    ensures Overlay(Overlay(prev, first, n), second, m) == Overlay(prev, second, m)
    ensures Overlay(Overlay(prev, second, m), second, m) == Overlay(prev, second, m)
  {
    var once := Overlay(prev, second, m);
    assert Overlay(Overlay(prev, first, n), second, m) == once;
    assert Overlay(once, second, m) == once;
  }

  class TouchState {
    /** Location of each touch slot. */
    const location: array<real>
    /** Size of each touch slot. */
    const size: array<real>
    /** Number of active touches. */
    var numActive: int

    ghost predicate Valid()
      reads this
    {
      location.Length == NUM_TOUCH && size.Length == NUM_TOUCH && location != size
    }

    /** The zero-initialised globals. */
    constructor ()
      ensures Valid() && fresh(location) && fresh(size)
      ensures location[..] == [0.0, 0.0, 0.0, 0.0] && size[..] == [0.0, 0.0, 0.0, 0.0]
      ensures numActive == 0
    {
      location := new real[NUM_TOUCH](_ => 0.0);
      size := new real[NUM_TOUCH](_ => 0.0);
      numActive := 0;
    }

    /** Copy the detector's first `n` touches into the slots and set the active
        count. The detector is set up with `NUM_TOUCH` slots, so it never
        reports more. Slots from `n` on keep what an earlier cycle left. */
    method Publish(n: nat, touchLocation: seq<real>, touchSize: seq<real>)
      requires Valid()
      requires n <= NUM_TOUCH && n <= |touchLocation| && n <= |touchSize|
      modifies this, location, size
      ensures Valid()
      ensures location[..] == Overlay(old(location[..]), touchLocation, n)
      ensures size[..] == Overlay(old(size[..]), touchSize, n)
      ensures numActive == n
    {
      var i := 0;
      while i < n
        invariant 0 <= i <= n
        invariant location[..] == Overlay(old(location[..]), touchLocation, i)
        invariant size[..] == Overlay(old(size[..]), touchSize, i)
      {
        location[i] := touchLocation[i];
        size[i] := touchSize[i];
        i := i + 1;
      }
      numActive := n;
    }
  }
}

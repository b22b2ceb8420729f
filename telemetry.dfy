/** The audio callback's telemetry timer: a frame counter that persists across
    callbacks and, each time it reaches the period threshold, sends the five
    GUI buffers. Only the ids of the buffers sent, in order, are modelled. */
module Telemetry {

  /** The buffers of one emission, in send order: channel count, raw sensor
      data, active touch count, touch locations, touch sizes. */
  const EMISSION: seq<nat> := [0, 1, 2, 3, 4]

  /** The largest value of the source's `unsigned int` counter. */
  const UINT_MAX: nat := 0xFFFF_FFFF

  /** The counter after some frames and the buffer ids sent during them. */
  datatype Tick = Tick(count: nat, sent: seq<nat>)

  function Max(a: nat, b: nat): nat
  {
    if a < b then b else a
  }

  /** One audio frame. The source compares the counter with the product of the
      period in seconds and the sample rate; for an integer counter that is the
      comparison with `threshold`, the product rounded up. */
  function Frame(count: nat, threshold: nat): (t: Tick)
    ensures count <= Max(threshold, 1) ==> t.count <= Max(threshold, 1)
    ensures 1 <= t.count
  {
    if count >= threshold then Tick(1, EMISSION) else Tick(count + 1, [])
  }

  /** `frames` audio frames in a row, starting from counter value `count`. */
  function Run(count: nat, threshold: nat, frames: nat): Tick
  {
    if frames == 0 then Tick(count, [])
    else
      var before := Run(count, threshold, frames - 1);
      var step := Frame(before.count, threshold);
      Tick(step.count, before.sent + step.sent)
  }

  /** `n` emissions back to back. */
  function Repeat(n: nat): (s: seq<nat>)
    ensures |s| == n * |EMISSION|
  {
    if n == 0 then [] else Repeat(n - 1) + EMISSION
  }

  lemma MulBounds(d: int, t: int)
    requires 1 <= t
    ensures d >= 1 ==> d * t >= t
    ensures d <= -1 ==> d * t <= -t
  {
  }

  /** Euclidean division by `t` is determined by quotient and remainder. */
  lemma DivModUnique(x: nat, t: nat, q: nat, r: nat)
    requires 1 <= t && r < t && x == q * t + r
    ensures x / t == q && x % t == r
  {
    var q', r' := x / t, x % t;
    assert x == q' * t + r' && 0 <= r' < t;
    var d := q - q';
    assert d * t == q * t - q' * t;
    assert d * t == r' - r;
    MulBounds(d, t);
  }

  /** How quotient and remainder change when the dividend grows by one. */
  lemma DivModStep(x: nat, t: nat)
    requires 1 <= t
    ensures x % t == t - 1 ==> (x + 1) % t == 0 && (x + 1) / t == x / t + 1
    ensures x % t != t - 1 ==> (x + 1) % t == x % t + 1 && (x + 1) / t == x / t
  {
    var q, r := x / t, x % t;
    assert x == q * t + r && 0 <= r < t;
    if r == t - 1 {
      DivModUnique(x + 1, t, q + 1, 0);
    } else {
      DivModUnique(x + 1, t, q, r + 1);
    }
  }

  /** From a counter value in range, the counter and the emissions after any
      number of frames are given in closed form: counting from frame 1, an
      emission happens at every multiple of the threshold. */
  lemma {:induction false} RunClosedForm(count: nat, threshold: nat, frames: nat)
    requires 1 <= threshold && count <= threshold
    ensures count + frames == 0 ==> Run(count, threshold, frames) == Tick(0, [])
    ensures count + frames > 0 ==>
      Run(count, threshold, frames) ==
        Tick((count + frames - 1) % threshold + 1, Repeat((count + frames - 1) / threshold))
  {
    if frames > 0 {
      RunClosedForm(count, threshold, frames - 1);
      var before := Run(count, threshold, frames - 1);
      if count + frames - 1 == 0 {
        assert before == Tick(0, []);
      } else {
        var x := count + frames - 2;
        DivModStep(x, threshold);
        assert before.count == x % threshold + 1;
      }
    } else if count > 0 {
      assert (count - 1) / threshold == 0;
    }
  }

  /** Splitting frames between audio callbacks changes nothing: the counter
      carries the schedule from one callback to the next. */
  lemma {:induction false} RunSplit(count: nat, threshold: nat, a: nat, b: nat)
    ensures var first := Run(count, threshold, a);
            var second := Run(first.count, threshold, b);
            Run(count, threshold, a + b) == Tick(second.count, first.sent + second.sent)
  {
    if b > 0 {
      RunSplit(count, threshold, a, b - 1);
      var first := Run(count, threshold, a);
      var mid := Run(first.count, threshold, b - 1);
      var step := Frame(mid.count, threshold);
      assert Run(count, threshold, a + b) == Tick(step.count, (first.sent + mid.sent) + step.sent);
      assert Run(first.count, threshold, b) == Tick(step.count, mid.sent + step.sent);
      assert (first.sent + mid.sent) + step.sent == first.sent + (mid.sent + step.sent);
    }
  }

  /** From start-up (counter 0), frame `j` (counting from 0) sends the five
      buffers exactly when `j` is a positive multiple of the threshold, and
      sends nothing otherwise. */
  lemma EmitsEveryPeriod(threshold: nat, j: nat)
    requires 1 <= threshold
    ensures var before := Run(0, threshold, j);
            var after := Run(0, threshold, j + 1);
            after.sent == before.sent + (if j > 0 && j % threshold == 0 then EMISSION else [])
  {
    var before := Run(0, threshold, j);
    RunClosedForm(0, threshold, j);
    if j > 0 {
      DivModStep(j - 1, threshold);
    }
  }

  class FrameCounter {
    /** The `static` counter of the audio callback. */
    var count: nat
    /** Frames per telemetry period, rounded up. */
    const threshold: nat

    ghost predicate Valid()
      reads this
    {
      threshold <= UINT_MAX && count <= Max(threshold, 1)
    }

    constructor (framesPerPeriod: nat)
      requires framesPerPeriod <= UINT_MAX
      ensures Valid() && count == 0 && threshold == framesPerPeriod
    {
      count := 0;
      threshold := framesPerPeriod;
    }

    /** One audio callback of `audioFrames` frames; returns the buffer ids sent,
        in order. The counter never exceeds the threshold (or 1), so the
        source's unsigned counter never wraps. */
    method Render(audioFrames: nat) returns (sent: seq<nat>)
      requires Valid()
      modifies this
      ensures Valid()
      ensures Tick(count, sent) == Run(old(count), threshold, audioFrames)
    {
      sent := [];
      var n := 0;
      while n < audioFrames
        invariant 0 <= n <= audioFrames
        invariant Valid()
        invariant Tick(count, sent) == Run(old(count), threshold, n)
      {
        if count >= threshold {
          sent := sent + EMISSION;
          count := 0;
        }
        count := count + 1;
        n := n + 1;
      }
    }
  }
}

/**
 * The wave both backgrounds animate: each grid point's height (and, in the
 * particle background, its sprite scale) is recomputed every frame in closed
 * form from the point's grid coordinates and the wave phase `count`.
 */
module Wave {
  import opened JsMath

  /** Amplitude of each of the two sine terms. */
  const AMPLITUDE: real := 50.0
  /** Angular step of the wave along the x axis and along the z axis. */
  const X_FREQUENCY: real := 0.3
  const Z_FREQUENCY: real := 0.5
  /** Wave-phase advance per rendered frame. */
  const COUNT_STEP: real := 0.1

  /** Height of point (ix, iy) at phase `count`: the sum of two sines, never more than 100 away from 0. */
  function Height(sin: real -> real, ix: int, iy: int, count: real): (y: real)
    requires IsSine(sin)
    ensures -2.0 * AMPLITUDE <= y <= 2.0 * AMPLITUDE
  {
    sin((ix as real + count) * X_FREQUENCY) * AMPLITUDE + sin((iy as real + count) * Z_FREQUENCY) * AMPLITUDE
  }

  /** Sprite scale of point (ix, iy) at phase `count`: each sine lifted to [0, 2] and weighted by 8, so within [0, 32]. */
  function Scale(sin: real -> real, ix: int, iy: int, count: real): (s: real)
    requires IsSine(sin)
    ensures 0.0 <= s <= 32.0
  {
    (sin((ix as real + count) * X_FREQUENCY) + 1.0) * 8.0 + (sin((iy as real + count) * Z_FREQUENCY) + 1.0) * 8.0
  }

  /** Scale is an affine image of height: flat points (height 0) get scale 16, crests 32, troughs 0. */
  lemma ScaleTracksHeight(sin: real -> real, ix: int, iy: int, count: real)
    requires IsSine(sin)
    ensures Scale(sin, ix, iy, count) == 16.0 + Height(sin, ix, iy, count) * 0.16
    ensures Height(sin, ix, iy, count) == 0.0 ==> Scale(sin, ix, iy, count) == 16.0
  {
  }

  /** The simulation clock after `frames` frames, each adding `step`. */
  function ClockAfter(start: real, step: real, frames: nat): real
  {
    if frames == 0 then start else ClockAfter(start, step, frames - 1) + step
  }

  /** Advancing the clock `n` times by `step` is advancing it once by `n * step`. */
  lemma {:induction false} ClockAfterIsLinear(start: real, step: real, frames: nat)
    ensures ClockAfter(start, step, frames) == start + frames as real * step
  {
    if frames > 0 {
      ClockAfterIsLinear(start, step, frames - 1);
    }
  }

  /** Splitting a run of frames in two: the clock has no memory beyond its current value. */
  lemma {:induction false} ClockAfterCompose(start: real, step: real, m: nat, n: nat)
    ensures ClockAfter(ClockAfter(start, step, m), step, n) == ClockAfter(start, step, m + n)
  {
    if n > 0 {
      ClockAfterCompose(start, step, m, n - 1);
    }
  }
}

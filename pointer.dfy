/**
 * Pointer input and the camera that follows it: both backgrounds move the
 * camera a fixed fraction of the way toward the pointer target every frame,
 * and both accept a touch only while exactly one finger is down.
 */
module Pointer {

  /** Fraction of the remaining distance the camera covers per frame. */
  const DAMPING: real := 0.05

  /** One active touch point, in page coordinates. */
  datatype Touch = Touch(pageX: real, pageY: real)

  /** A touch list the handlers act on (and call `preventDefault` for): exactly one finger. */
  predicate SingleTouch(touches: seq<Touch>)
  {
    |touches| == 1
  }

  /**
   * One frame of camera follow along one axis. The remaining distance to the
   * target shrinks to 95%, so the camera never overshoots: the new value lies
   * between the old value and the target.
   */
  function Follow(current: real, target: real): (r: real)
    ensures target - r == (1.0 - DAMPING) * (target - current)
    ensures current <= target ==> current <= r <= target
    ensures target <= current ==> target <= r <= current
    ensures r == target <==> current == target
  {
    current + (target - current) * DAMPING
  }

  /** The camera coordinate after `frames` frames of following a fixed target. */
  function FollowFrames(current: real, target: real, frames: nat): real
  {
    if frames == 0 then current else Follow(FollowFrames(current, target, frames - 1), target)
  }

  /** The share of the initial distance still to go after `frames` frames: 0.95 to the power `frames`. */
  function Remaining(frames: nat): (r: real)
    ensures 0.0 < r <= 1.0
  {
    if frames == 0 then 1.0 else (1.0 - DAMPING) * Remaining(frames - 1)
  }

  /** Following a fixed target is exponential smoothing: the distance left after n frames is 0.95^n of the start. */
  lemma {:induction false} FollowFramesDistance(current: real, target: real, frames: nat)
    ensures target - FollowFrames(current, target, frames) == Remaining(frames) * (target - current)
  {
    if frames > 0 {
      var prev := FollowFrames(current, target, frames - 1);
      FollowFramesDistance(current, target, frames - 1);
      MulAssociates(1.0 - DAMPING, Remaining(frames - 1), target - current);
      assert target - FollowFrames(current, target, frames) == (1.0 - DAMPING) * (target - prev);
    }
  }

  lemma MulAssociates(a: real, b: real, c: real)
    ensures a * (b * c) == (a * b) * c
  {
  }

  /** Any number of frames keeps the camera between its start and the target. */
  lemma FollowFramesBetween(current: real, target: real, frames: nat)
    ensures current <= target ==> current <= FollowFrames(current, target, frames) <= target
    ensures target <= current ==> target <= FollowFrames(current, target, frames) <= current
  {
    FollowFramesDistance(current, target, frames);
    var r := Remaining(frames);
    if current <= target {
      assert 0.0 <= r * (target - current) <= target - current by {
        assert (1.0 - r) * (target - current) >= 0.0;
      }
    } else {
      assert 0.0 <= r * (current - target) <= current - target by {
        assert (1.0 - r) * (current - target) >= 0.0;
      }
    }
  }
}

/**
 * The particle-field background: a 50 by 50 lattice of sprites that ripples
 * with the wave, drifts toward the camera and wraps around in depth so that
 * the field seems endless, while the camera eases toward the pointer.
 *
 * `ParticleScene` holds the component's closure state: the position and scale
 * buffers built once at start-up, the two clocks, the pointer offset, the
 * half-window extents and the camera position.
 */
module ParticleBackground {
  import opened JsMath
  import opened Grid
  import opened Wave
  import opened Pointer

  const SEPARATION: int := 100
  const AMOUNTX: int := 50
  const AMOUNTY: int := 50
  const NUM_PARTICLES: int := AMOUNTX * AMOUNTY

  /** Forward drift per frame of `time`, and the share of the page scroll that adds to it. */
  const SPEED: real := 2.0
  const SCROLL_FACTOR: real := 0.5

  /** Depth of the lattice along z, the range every depth coordinate is wrapped into. */
  const DEPTH: real := (AMOUNTY * SEPARATION) as real
  const HALF_DEPTH: real := DEPTH / 2.0

  /** Height the camera aims above the pointer target. */
  const CAMERA_LIFT: real := 200.0

  /** How far the field has travelled: the drift so far plus half the page scroll. */
  function TotalMovement(time: real, scrollY: real): real
  {
    time * SPEED + scrollY * SCROLL_FACTOR
  }

  /**
   * The depth wrap as the component writes it: shift into [0, depth), take
   * JavaScript's `%` (which keeps the dividend's sign), shift back, and add one
   * more depth when the remainder came out negative. The result always lies
   * in [-depth/2, depth/2).
   */
  function Wrap(z: real, depth: real): (w: real)
    requires depth > 0.0
    ensures -depth / 2.0 <= w < depth / 2.0
  {
    var half := depth / 2.0;
    var shifted := JsRem(z + half, depth) - half;
    if shifted < -half then shifted + depth else shifted
  }

  /** Depth coordinate of every point of row `iy` once the field has moved by `totalMovement`. */
  function DepthZ(iy: int, totalMovement: real): (z: real)
    ensures -HALF_DEPTH <= z < HALF_DEPTH
  {
    Wrap(Coord(iy, AMOUNTY, SEPARATION) + totalMovement, DEPTH)
  }

  /** The sign correction makes the wrap the floored (Euclidean) remainder, shifted to be centred on 0. */
  lemma WrapIsFloorMod(z: real, depth: real)
    requires depth > 0.0
    ensures Wrap(z, depth) == FloorMod(z + depth / 2.0, depth) - depth / 2.0
  {
    JsRemVersusFloorMod(z + depth / 2.0, depth);
  }

  /** A value already in [-depth/2, depth/2) is left where it is. */
  lemma WrapKeepsInRange(z: real, depth: real)
    requires depth > 0.0 && -depth / 2.0 <= z < depth / 2.0
    ensures Wrap(z, depth) == z
  {
    var a := z + depth / 2.0;
    QuotientBelowOne(a, depth);
    assert Trunc(a / depth) == 0;
  }

  lemma QuotientBelowOne(a: real, d: real)
    requires 0.0 <= a < d
    ensures 0.0 <= a / d < 1.0
  {
  }

  /** Moving a whole depth further brings back the same wrapped value: the motion loops seamlessly. */
  lemma WrapPeriodic(z: real, depth: real)
    requires depth > 0.0
    ensures Wrap(z + depth, depth) == Wrap(z, depth)
  {
    WrapIsFloorMod(z, depth);
    WrapIsFloorMod(z + depth, depth);
    assert z + depth + depth / 2.0 == (z + depth / 2.0) + depth;
    FloorModPeriodic(z + depth / 2.0, depth);
  }

  /** Adding one depth to the total movement leaves every row's depth unchanged. */
  lemma DepthZPeriodic(iy: int, totalMovement: real)
    ensures DepthZ(iy, totalMovement + DEPTH) == DepthZ(iy, totalMovement)
  {
    var raw := Coord(iy, AMOUNTY, SEPARATION) + totalMovement;
    assert Coord(iy, AMOUNTY, SEPARATION) + (totalMovement + DEPTH) == raw + DEPTH;
    WrapPeriodic(raw, DEPTH);
  }

  /** With no scrolling the field repeats every 2500 frames (2500 frames of drift at speed 2 is one depth). */
  lemma DepthCycle(iy: int, time: real, scrollY: real)
    ensures DepthZ(iy, TotalMovement(time + 2500.0, scrollY)) == DepthZ(iy, TotalMovement(time, scrollY))
  {
    assert TotalMovement(time + 2500.0, scrollY) == TotalMovement(time, scrollY) + DEPTH;
    DepthZPeriodic(iy, TotalMovement(time, scrollY));
  }

  /** Before anything has moved, the wrap puts every row at its lattice depth. */
  lemma DepthAtRest(iy: int)
    requires 0 <= iy < AMOUNTY
    ensures DepthZ(iy, 0.0) == Coord(iy, AMOUNTY, SEPARATION)
  {
    WrapKeepsInRange(Coord(iy, AMOUNTY, SEPARATION), DEPTH);
  }

  /** Every x slot of a position buffer holds its column's lattice coordinate. */
  ghost predicate ColumnsLaidOut(ps: seq<real>)
  {
    && |ps| == 3 * NUM_PARTICLES
    && forall p {:trigger ps[XSlot(p)]} :: 0 <= p < NUM_PARTICLES ==> ps[XSlot(p)] == Coord(Column(AMOUNTY, p), AMOUNTX, SEPARATION)
  }

  /**
   * Points 0 .. done-1 hold their start-up values: x and z on the lattice,
   * height 0 and sprite scale 1.
   */
  ghost predicate AtRest(ps: seq<real>, ss: seq<real>, done: int)
  {
    && |ps| == 3 * NUM_PARTICLES && |ss| == NUM_PARTICLES && 0 <= done <= NUM_PARTICLES
    && forall p {:trigger ss[p]} :: 0 <= p < done ==>
         && ps[XSlot(p)] == Coord(Column(AMOUNTY, p), AMOUNTX, SEPARATION)
         && ps[YSlot(p)] == 0.0
         && ps[ZSlot(p)] == Coord(Row(AMOUNTY, p), AMOUNTY, SEPARATION)
         && ss[p] == 1.0
  }

  /**
   * Points 0 .. done-1 hold the values of one frame drawn at wave phase
   * `phase` after the field has moved by `totalMovement`: the wave height in
   * the y slot, the wrapped depth in the z slot and the wave scale.
   */
  ghost predicate Animated(sin: real -> real, phase: real, totalMovement: real, ps: seq<real>, ss: seq<real>, done: int)
    requires IsSine(sin)
  {
    && |ps| == 3 * NUM_PARTICLES && |ss| == NUM_PARTICLES && 0 <= done <= NUM_PARTICLES
    && forall p {:trigger ss[p]} :: 0 <= p < done ==>
         && ps[YSlot(p)] == Height(sin, Column(AMOUNTY, p), Row(AMOUNTY, p), phase)
         && ps[ZSlot(p)] == DepthZ(Row(AMOUNTY, p), totalMovement)
         && ss[p] == Scale(sin, Column(AMOUNTY, p), Row(AMOUNTY, p), phase)
  }

  /** Laying out point `done` (which is (ix, iy)) extends the laid-out prefix by one point. */
  lemma AtRestStep(ps: seq<real>, ss: seq<real>, done: int, ix: int, iy: int)
    requires AtRest(ps, ss, done) && done < NUM_PARTICLES
    requires Column(AMOUNTY, done) == ix && Row(AMOUNTY, done) == iy
    ensures AtRest(ps[XSlot(done) := Coord(ix, AMOUNTX, SEPARATION)][YSlot(done) := 0.0][ZSlot(done) := Coord(iy, AMOUNTY, SEPARATION)],
                   ss[done := 1.0], done + 1)
  {
    var ps' := ps[XSlot(done) := Coord(ix, AMOUNTX, SEPARATION)][YSlot(done) := 0.0][ZSlot(done) := Coord(iy, AMOUNTY, SEPARATION)];
    var ss' := ss[done := 1.0];
    forall p | 0 <= p < done
      ensures ps'[XSlot(p)] == ps[XSlot(p)] && ps'[YSlot(p)] == ps[YSlot(p)] && ps'[ZSlot(p)] == ps[ZSlot(p)]
      ensures ss'[p] == ss[p] == 1.0
    {
    }
  }

  /** Once every point is laid out, every x slot holds its column's coordinate. */
  lemma AtRestColumns(ps: seq<real>, ss: seq<real>)
    requires AtRest(ps, ss, NUM_PARTICLES)
    ensures ColumnsLaidOut(ps)
  {
    forall p | 0 <= p < NUM_PARTICLES
      ensures ps[XSlot(p)] == Coord(Column(AMOUNTY, p), AMOUNTX, SEPARATION)
    {
      assert ss[p] == 1.0;
    }
  }

  /**
   * Animating point `done` (which is (ix, iy)) extends the animated prefix by
   * one point and, writing no x slot, keeps the columns laid out.
   */
  lemma AnimatedStep(sin: real -> real, phase: real, totalMovement: real, ps: seq<real>, ss: seq<real>,
                     done: int, ix: int, iy: int)
    requires IsSine(sin) && Animated(sin, phase, totalMovement, ps, ss, done) && done < NUM_PARTICLES
    requires ColumnsLaidOut(ps)
    requires Column(AMOUNTY, done) == ix && Row(AMOUNTY, done) == iy
    ensures var ps' := ps[YSlot(done) := Height(sin, ix, iy, phase)][ZSlot(done) := DepthZ(iy, totalMovement)];
            && Animated(sin, phase, totalMovement, ps', ss[done := Scale(sin, ix, iy, phase)], done + 1)
            && ColumnsLaidOut(ps')
  {
    var ps' := ps[YSlot(done) := Height(sin, ix, iy, phase)][ZSlot(done) := DepthZ(iy, totalMovement)];
    var ss' := ss[done := Scale(sin, ix, iy, phase)];
    forall p | 0 <= p < NUM_PARTICLES
      ensures ps'[XSlot(p)] == ps[XSlot(p)]
    {
    }
    forall p | 0 <= p < done
      ensures ps'[YSlot(p)] == ps[YSlot(p)] && ps'[ZSlot(p)] == ps[ZSlot(p)] && ss'[p] == ss[p]
    {
    }
  }

  /** Two laid-out position buffers agree on every x slot: a frame that keeps the layout moves no particle sideways. */
  lemma ColumnsFixed(a: seq<real>, b: seq<real>)
    requires ColumnsLaidOut(a) && ColumnsLaidOut(b)
    ensures forall p :: 0 <= p < NUM_PARTICLES ==> a[XSlot(p)] == b[XSlot(p)]
  {
    forall p | 0 <= p < NUM_PARTICLES
      ensures a[XSlot(p)] == b[XSlot(p)]
    {
      assert a[XSlot(p)] == Coord(Column(AMOUNTY, p), AMOUNTX, SEPARATION);
    }
  }

  /** Point (ix, iy) of a laid-out buffer sits at slot 3*(ix*50 + iy) with x = 100*ix - 2500, y = 0, z = 100*iy - 2500 and scale 1. */
  lemma AtRestAt(ps: seq<real>, ss: seq<real>, ix: int, iy: int)
    requires AtRest(ps, ss, NUM_PARTICLES) && InGrid(AMOUNTX, AMOUNTY, ix, iy)
    ensures 0 <= Index(AMOUNTY, ix, iy) < |ss| && ZSlot(Index(AMOUNTY, ix, iy)) < |ps|
    ensures ps[XSlot(Index(AMOUNTY, ix, iy))] == (100 * ix) as real - 2500.0
    ensures ps[YSlot(Index(AMOUNTY, ix, iy))] == 0.0
    ensures ps[ZSlot(Index(AMOUNTY, ix, iy))] == (100 * iy) as real - 2500.0
    ensures ss[Index(AMOUNTY, ix, iy)] == 1.0
  {
    IndexInRange(AMOUNTX, AMOUNTY, ix, iy);
    IndexDecodes(AMOUNTX, AMOUNTY, ix, iy);
    var p := Index(AMOUNTY, ix, iy);
    assert ss[p] == 1.0;
  }

  /**
   * After a frame, point (ix, iy) has the wave height of (ix, iy) within
   * [-100, 100], its row's wrapped depth within [-2500, 2500), and the wave
   * scale of (ix, iy) within [0, 32].
   */
  lemma AnimatedAt(sin: real -> real, phase: real, totalMovement: real, ps: seq<real>, ss: seq<real>, ix: int, iy: int)
    requires IsSine(sin) && Animated(sin, phase, totalMovement, ps, ss, NUM_PARTICLES)
    requires InGrid(AMOUNTX, AMOUNTY, ix, iy)
    ensures 0 <= Index(AMOUNTY, ix, iy) < |ss| && ZSlot(Index(AMOUNTY, ix, iy)) < |ps|
    ensures ps[YSlot(Index(AMOUNTY, ix, iy))] == Height(sin, ix, iy, phase)
    ensures -100.0 <= ps[YSlot(Index(AMOUNTY, ix, iy))] <= 100.0
    ensures ps[ZSlot(Index(AMOUNTY, ix, iy))] == DepthZ(iy, totalMovement)
    ensures -2500.0 <= ps[ZSlot(Index(AMOUNTY, ix, iy))] < 2500.0
    ensures ss[Index(AMOUNTY, ix, iy)] == Scale(sin, ix, iy, phase)
    ensures 0.0 <= ss[Index(AMOUNTY, ix, iy)] <= 32.0
  {
    IndexInRange(AMOUNTX, AMOUNTY, ix, iy);
    IndexDecodes(AMOUNTX, AMOUNTY, ix, iy);
    var p := Index(AMOUNTY, ix, iy);
    assert ss[p] == Scale(sin, ix, iy, phase);
  }

  class ParticleScene {
    /** Three slots (x, y, z) per particle, in the row-major order of the walk over (ix, iy). */
    const positions: array<real>
    /** One sprite scale per particle, in the same order. */
    const scales: array<real>

    /** Wave phase, +0.1 per frame. */
    var count: real
    /** Drift clock, +1 per frame. */
    var time: real

    /** Pointer offset from the window centre. */
    var mouseX: real
    var mouseY: real

    var windowHalfX: real
    var windowHalfY: real

    var cameraX: real
    var cameraY: real

    /** The buffers are distinct, have their fixed sizes, and every x slot holds its column's lattice coordinate. */
    ghost predicate Valid()
      reads this, positions
    {
      && positions.Length == 3 * NUM_PARTICLES
      && scales.Length == NUM_PARTICLES
      && positions != scales
      && ColumnsLaidOut(positions[..])
    }

    /**
     * Start-up (`initWebGL` and the closure's initial state): lay the lattice
     * out flat at y = 0, give every sprite scale 1, put the camera at height 400.
     */
    constructor (innerWidth: real, innerHeight: real)
      ensures Valid() && fresh(positions) && fresh(scales)
      ensures AtRest(positions[..], scales[..], NUM_PARTICLES)
      ensures count == 0.0 && time == 0.0
      ensures mouseX == 0.0 && mouseY == 0.0
      ensures windowHalfX == innerWidth / 2.0 && windowHalfY == innerHeight / 2.0
      ensures cameraX == 0.0 && cameraY == 400.0
    {
      var pos := new real[3 * NUM_PARTICLES];
      var sc := new real[NUM_PARTICLES];
      var i, j := 0, 0;
      for ix := 0 to AMOUNTX
        invariant j == ix * AMOUNTY && i == 3 * j
        invariant AtRest(pos[..], sc[..], j)
      {
        for iy := 0 to AMOUNTY
          invariant j == ix * AMOUNTY + iy && i == 3 * j
          invariant AtRest(pos[..], sc[..], j)
        {
          IndexInRange(AMOUNTX, AMOUNTY, ix, iy);
          IndexDecodes(AMOUNTX, AMOUNTY, ix, iy);
          AtRestStep(pos[..], sc[..], j, ix, iy);
          ghost var ps, ss := pos[..], sc[..];
          pos[i] := Coord(ix, AMOUNTX, SEPARATION);
          pos[i + 1] := 0.0;
          pos[i + 2] := Coord(iy, AMOUNTY, SEPARATION);
          sc[j] := 1.0;
          assert pos[..] == ps[i := Coord(ix, AMOUNTX, SEPARATION)][i + 1 := 0.0][i + 2 := Coord(iy, AMOUNTY, SEPARATION)];
          assert sc[..] == ss[j := 1.0];
          i := i + 3;
          j := j + 1;
        }
      }
      AtRestColumns(pos[..], sc[..]);
      positions := pos;
      scales := sc;
      count, time := 0.0, 0.0;
      mouseX, mouseY := 0.0, 0.0;
      windowHalfX, windowHalfY := innerWidth / 2.0, innerHeight / 2.0;
      cameraX, cameraY := 0.0, 400.0;
    }

    /**
     * One animation frame (`renderWebGL`): ease the camera toward the pointer,
     * then rewrite the y slot, the z slot and the scale of every particle from
     * the clocks as they stood at the start of the frame, and advance the clocks.
     * No x slot changes: the layout in Valid() holds before and after, and
     * ColumnsFixed turns that into slot-by-slot equality.
     */
    method RenderFrame(sin: real -> real, scrollY: real)
      requires IsSine(sin) && Valid()
      modifies this`cameraX, this`cameraY, this`count, this`time, positions, scales
      ensures Valid()
      ensures cameraX == Follow(old(cameraX), mouseX)
      ensures cameraY == Follow(old(cameraY), -mouseY + CAMERA_LIFT)
      ensures count == old(count) + COUNT_STEP && time == old(time) + 1.0
      ensures Animated(sin, old(count), TotalMovement(old(time), scrollY), positions[..], scales[..], NUM_PARTICLES)
      ensures forall p :: 0 <= p < NUM_PARTICLES ==> positions[..][XSlot(p)] == old(positions[..])[XSlot(p)]
    {
      ghost var before := positions[..];
      cameraX := Follow(cameraX, mouseX);
      cameraY := Follow(cameraY, -mouseY + CAMERA_LIFT);

      var phase := count;
      var totalMovement := TotalMovement(time, scrollY);

      var i, j := 0, 0;
      for ix := 0 to AMOUNTX
        modifies positions, scales
        invariant j == ix * AMOUNTY && i == 3 * j
        invariant ColumnsLaidOut(positions[..])
        invariant Animated(sin, phase, totalMovement, positions[..], scales[..], j)
      {
        for iy := 0 to AMOUNTY
          modifies positions, scales
          invariant j == ix * AMOUNTY + iy && i == 3 * j
          invariant ColumnsLaidOut(positions[..])
          invariant Animated(sin, phase, totalMovement, positions[..], scales[..], j)
        {
          IndexInRange(AMOUNTX, AMOUNTY, ix, iy);
          IndexDecodes(AMOUNTX, AMOUNTY, ix, iy);
          AnimatedStep(sin, phase, totalMovement, positions[..], scales[..], j, ix, iy);
          UpdateParticle(sin, phase, totalMovement, ix, iy, i, j);

          i := i + 3;
          j := j + 1;
        }
      }

      ColumnsFixed(positions[..], before);
      count := count + COUNT_STEP;
      time := time + 1.0;
    }

    /**
     * The body of the frame loop for particle j, which is (ix, iy) and whose
     * x slot is the running index i: its height into slot i + 1, its scale
     * into slot j, then its depth, wrapped with JavaScript's `%` and the sign
     * correction, into slot i + 2.
     */
    method UpdateParticle(sin: real -> real, phase: real, totalMovement: real, ix: int, iy: int, i: int, j: int)
      requires IsSine(sin)
      requires positions.Length == 3 * NUM_PARTICLES && scales.Length == NUM_PARTICLES && positions != scales
      requires 0 <= j < NUM_PARTICLES && j == Index(AMOUNTY, ix, iy) && i == XSlot(j)
      modifies positions, scales
      ensures positions[..] == old(positions[..])[YSlot(j) := Height(sin, ix, iy, phase)][ZSlot(j) := DepthZ(iy, totalMovement)]
      ensures scales[..] == old(scales[..])[j := Scale(sin, ix, iy, phase)]
    {
      var depth := DEPTH;
      var halfDepth := depth / 2.0;

      positions[i + 1] := Height(sin, ix, iy, phase);
      scales[j] := Scale(sin, ix, iy, phase);

      var z := Coord(iy, AMOUNTY, SEPARATION) + totalMovement;
      z := JsRem(z + halfDepth, depth) - halfDepth;
      if z < -halfDepth {
        z := z + depth;
      }
      positions[i + 2] := z;
    }

    /** Mouse move: remember the pointer's offset from the window centre. */
    method OnMouseMove(clientX: real, clientY: real)
      modifies this`mouseX, this`mouseY
      ensures mouseX == clientX - windowHalfX && mouseY == clientY - windowHalfY
    {
      mouseX := clientX - windowHalfX;
      mouseY := clientY - windowHalfY;
    }

    /**
     * Touch start and touch move: with exactly one finger down, call
     * `preventDefault` (whether the browser honours it depends on how the
     * listener was registered) and track that finger like the mouse; with any
     * other number of touches, change nothing.
     */
    method OnTouch(touches: seq<Touch>) returns (preventDefault: bool)
      modifies this`mouseX, this`mouseY
      ensures preventDefault <==> SingleTouch(touches)
      ensures preventDefault ==>
                mouseX == touches[0].pageX - windowHalfX && mouseY == touches[0].pageY - windowHalfY
      ensures !preventDefault ==> mouseX == old(mouseX) && mouseY == old(mouseY)
    {
      preventDefault := SingleTouch(touches);
      if preventDefault {
        mouseX := touches[0].pageX - windowHalfX;
        mouseY := touches[0].pageY - windowHalfY;
      }
    }

    method OnTouchStart(touches: seq<Touch>) returns (preventDefault: bool)
      modifies this`mouseX, this`mouseY
      ensures preventDefault <==> SingleTouch(touches)
      ensures preventDefault ==>
                mouseX == touches[0].pageX - windowHalfX && mouseY == touches[0].pageY - windowHalfY
      ensures !preventDefault ==> mouseX == old(mouseX) && mouseY == old(mouseY)
    {
      preventDefault := OnTouch(touches);
    }

    method OnTouchMove(touches: seq<Touch>) returns (preventDefault: bool)
      modifies this`mouseX, this`mouseY
      ensures preventDefault <==> SingleTouch(touches)
      ensures preventDefault ==>
                mouseX == touches[0].pageX - windowHalfX && mouseY == touches[0].pageY - windowHalfY
      ensures !preventDefault ==> mouseX == old(mouseX) && mouseY == old(mouseY)
    {
      preventDefault := OnTouch(touches);
    }

    /** Window resize: the half extents follow the new window size (pointer offsets taken afterwards use them). */
    method OnWindowResize(innerWidth: real, innerHeight: real)
      modifies this`windowHalfX, this`windowHalfY
      ensures windowHalfX == innerWidth / 2.0 && windowHalfY == innerHeight / 2.0
    {
      windowHalfX := innerWidth / 2.0;
      windowHalfY := innerHeight / 2.0;
    }
  }

  /**
   * Mounting: start-up followed at once by the first frame, drawn at phase 0
   * with `time` 0 and the page scrolled by `scrollY`. The camera eases from
   * (0, 400) toward (0, 200), reaching (0, 390); with the page unscrolled,
   * nothing has moved in depth yet, so every z slot keeps its laid-out depth.
   */
  method Mount(sin: real -> real, innerWidth: real, innerHeight: real, scrollY: real) returns (scene: ParticleScene)
    requires IsSine(sin)
    ensures fresh(scene) && fresh(scene.positions) && fresh(scene.scales) && scene.Valid()
    ensures scene.cameraX == 0.0 && scene.cameraY == 390.0
    ensures scene.count == 0.1 && scene.time == 1.0
    ensures Animated(sin, 0.0, TotalMovement(0.0, scrollY), scene.positions[..], scene.scales[..], NUM_PARTICLES)
    ensures scrollY == 0.0 ==>
              forall p :: 0 <= p < NUM_PARTICLES ==>
                scene.positions[..][ZSlot(p)] == Coord(Row(AMOUNTY, p), AMOUNTY, SEPARATION)
  {
    scene := new ParticleScene(innerWidth, innerHeight);
    scene.RenderFrame(sin, scrollY);
    if scrollY == 0.0 {
      forall p | 0 <= p < NUM_PARTICLES
        ensures scene.positions[..][ZSlot(p)] == Coord(Row(AMOUNTY, p), AMOUNTY, SEPARATION)
      {
        assert scene.scales[..][p] == Scale(sin, Column(AMOUNTY, p), Row(AMOUNTY, p), 0.0);
        assert TotalMovement(0.0, scrollY) == 0.0;
        DepthAtRest(Row(AMOUNTY, p));
      }
    }
  }
}

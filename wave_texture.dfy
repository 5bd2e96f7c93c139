/**
 * The wave-texture background: a 100 by 70 lattice of points laid out flat
 * once, whose heights ripple with the wave every frame while the camera eases
 * toward the pointer. Unlike the particle background there is no depth drift
 * and no per-point scale; a second buffer keeps the lattice as first laid out.
 *
 * `WaveScene` holds the effect's closure state: the live and the base
 * position buffers, the wave phase, the pointer, the half-container extents
 * and the camera position.
 */
module WaveTexture {
  import opened JsMath
  import opened Grid
  import opened Wave
  import opened Pointer

  const SEPARATION: int := 100
  const AMOUNTX: int := 100
  const AMOUNTY: int := 70
  const NUM_POINTS: int := AMOUNTX * AMOUNTY

  /** Where the pointer is taken to be before the first pointer event. */
  const START_MOUSE_X: real := 85.0
  const START_MOUSE_Y: real := -342.0

  /** The host element the resize handler reads, which may already be gone. */
  datatype Container = Unmounted | Mounted(clientWidth: real, clientHeight: real)

  /** Points 0 .. done-1 of a position buffer hold their lattice x and z and height 0. */
  ghost predicate Flat(ps: seq<real>, done: int)
  {
    && |ps| == 3 * NUM_POINTS && 0 <= done <= NUM_POINTS
    && forall p {:trigger ps[XSlot(p)]} :: 0 <= p < done ==>
         && ps[XSlot(p)] == Coord(Column(AMOUNTY, p), AMOUNTX, SEPARATION)
         && ps[YSlot(p)] == 0.0
         && ps[ZSlot(p)] == Coord(Row(AMOUNTY, p), AMOUNTY, SEPARATION)
  }

  /** Every point of a position buffer has its lattice x and z; the heights are free. */
  ghost predicate Ground(ps: seq<real>)
  {
    && |ps| == 3 * NUM_POINTS
    && forall p {:trigger ps[XSlot(p)]} :: 0 <= p < NUM_POINTS ==>
         && ps[XSlot(p)] == Coord(Column(AMOUNTY, p), AMOUNTX, SEPARATION)
         && ps[ZSlot(p)] == Coord(Row(AMOUNTY, p), AMOUNTY, SEPARATION)
  }

  /** Points 0 .. done-1 have the wave height of phase `phase` in their y slot. */
  ghost predicate Waved(sin: real -> real, phase: real, ps: seq<real>, done: int)
    requires IsSine(sin)
  {
    && |ps| == 3 * NUM_POINTS && 0 <= done <= NUM_POINTS
    && forall p {:trigger ps[YSlot(p)]} :: 0 <= p < done ==>
         ps[YSlot(p)] == Height(sin, Column(AMOUNTY, p), Row(AMOUNTY, p), phase)
  }

  /** Laying out point `done` (which is (ix, iy)) extends the flat prefix by one point. */
  lemma FlatStep(ps: seq<real>, done: int, ix: int, iy: int)
    requires Flat(ps, done) && done < NUM_POINTS
    requires Column(AMOUNTY, done) == ix && Row(AMOUNTY, done) == iy
    ensures Flat(ps[XSlot(done) := Coord(ix, AMOUNTX, SEPARATION)][YSlot(done) := 0.0][ZSlot(done) := Coord(iy, AMOUNTY, SEPARATION)],
                 done + 1)
  {
    var ps' := ps[XSlot(done) := Coord(ix, AMOUNTX, SEPARATION)][YSlot(done) := 0.0][ZSlot(done) := Coord(iy, AMOUNTY, SEPARATION)];
    forall p | 0 <= p < done
      ensures ps'[XSlot(p)] == ps[XSlot(p)] && ps'[YSlot(p)] == ps[YSlot(p)] && ps'[ZSlot(p)] == ps[ZSlot(p)]
    {
    }
  }

  /** A fully laid-out buffer has every point's lattice x and z. */
  lemma FlatGround(ps: seq<real>)
    requires Flat(ps, NUM_POINTS)
    ensures Ground(ps)
  {
  }

  /**
   * Writing the height of point `done` (which is (ix, iy)) extends the waved
   * prefix by one point and, touching only a y slot, keeps every x and z.
   */
  lemma WavedStep(sin: real -> real, phase: real, ps: seq<real>, done: int, ix: int, iy: int)
    requires IsSine(sin) && Waved(sin, phase, ps, done) && Ground(ps) && done < NUM_POINTS
    requires Column(AMOUNTY, done) == ix && Row(AMOUNTY, done) == iy
    ensures Waved(sin, phase, ps[YSlot(done) := Height(sin, ix, iy, phase)], done + 1)
    ensures Ground(ps[YSlot(done) := Height(sin, ix, iy, phase)])
  {
    var ps' := ps[YSlot(done) := Height(sin, ix, iy, phase)];
    forall p | 0 <= p < NUM_POINTS
      ensures ps'[XSlot(p)] == ps[XSlot(p)] && ps'[ZSlot(p)] == ps[ZSlot(p)]
    {
    }
    forall p | 0 <= p < done
      ensures ps'[YSlot(p)] == ps[YSlot(p)]
    {
    }
  }

  /** Point (ix, iy) of a laid-out buffer sits at slot 3*(ix*70 + iy) with x = 100*ix - 5000, y = 0, z = 100*iy - 3500. */
  lemma FlatAt(ps: seq<real>, ix: int, iy: int)
    requires Flat(ps, NUM_POINTS) && InGrid(AMOUNTX, AMOUNTY, ix, iy)
    ensures 0 <= XSlot(Index(AMOUNTY, ix, iy)) && ZSlot(Index(AMOUNTY, ix, iy)) < |ps|
    ensures ps[XSlot(Index(AMOUNTY, ix, iy))] == (100 * ix) as real - 5000.0
    ensures ps[YSlot(Index(AMOUNTY, ix, iy))] == 0.0
    ensures ps[ZSlot(Index(AMOUNTY, ix, iy))] == (100 * iy) as real - 3500.0
  {
    IndexInRange(AMOUNTX, AMOUNTY, ix, iy);
    IndexDecodes(AMOUNTX, AMOUNTY, ix, iy);
    var p := Index(AMOUNTY, ix, iy);
    assert ps[XSlot(p)] == Coord(ix, AMOUNTX, SEPARATION);
  }

  /** After a frame, point (ix, iy) has the wave height of (ix, iy), within [-100, 100]. */
  lemma WavedAt(sin: real -> real, phase: real, ps: seq<real>, ix: int, iy: int)
    requires IsSine(sin) && Waved(sin, phase, ps, NUM_POINTS) && InGrid(AMOUNTX, AMOUNTY, ix, iy)
    ensures 0 <= YSlot(Index(AMOUNTY, ix, iy)) < |ps|
    ensures ps[YSlot(Index(AMOUNTY, ix, iy))] == Height(sin, ix, iy, phase)
    ensures -100.0 <= ps[YSlot(Index(AMOUNTY, ix, iy))] <= 100.0
  {
    IndexInRange(AMOUNTX, AMOUNTY, ix, iy);
    IndexDecodes(AMOUNTX, AMOUNTY, ix, iy);
  }

  /** A buffer that keeps its ground agrees with the laid-out base buffer on every x and z slot. */
  lemma GroundMatchesBase(ps: seq<real>, bs: seq<real>)
    requires Ground(ps) && Flat(bs, NUM_POINTS)
    ensures forall p :: 0 <= p < NUM_POINTS ==> ps[XSlot(p)] == bs[XSlot(p)] && ps[ZSlot(p)] == bs[ZSlot(p)]
  {
    forall p | 0 <= p < NUM_POINTS
      ensures ps[XSlot(p)] == bs[XSlot(p)] && ps[ZSlot(p)] == bs[ZSlot(p)]
    {
      assert ps[XSlot(p)] == Coord(Column(AMOUNTY, p), AMOUNTX, SEPARATION);
      assert bs[XSlot(p)] == Coord(Column(AMOUNTY, p), AMOUNTX, SEPARATION);
    }
  }

  /** The six stores that lay out one point: x, height 0 and z in the live buffer, then the same in the base buffer. */
  method LayOutPoint(positions: array<real>, basePositions: array<real>, p: int, x: real, z: real)
    requires positions.Length == 3 * NUM_POINTS && basePositions.Length == 3 * NUM_POINTS
    requires positions != basePositions && 0 <= p < NUM_POINTS
    modifies positions, basePositions
    ensures positions[..] == old(positions[..])[XSlot(p) := x][YSlot(p) := 0.0][ZSlot(p) := z]
    ensures basePositions[..] == old(basePositions[..])[XSlot(p) := x][YSlot(p) := 0.0][ZSlot(p) := z]
  {
    positions[XSlot(p)] := x;
    positions[YSlot(p)] := 0.0;
    positions[ZSlot(p)] := z;
    basePositions[XSlot(p)] := x;
    basePositions[YSlot(p)] := 0.0;
    basePositions[ZSlot(p)] := z;
  }

  /** The one store a frame makes per point: its height into its y slot. */
  method WriteHeight(positions: array<real>, p: int, y: real)
    requires positions.Length == 3 * NUM_POINTS && 0 <= p < NUM_POINTS
    modifies positions
    ensures positions[..] == old(positions[..])[YSlot(p) := y]
  {
    positions[YSlot(p)] := y;
  }

  class WaveScene {
    /** Three slots (x, y, z) per point, in the row-major order of the walk over (ix, iy); the y slots move. */
    const positions: array<real>
    /** The same layout, written once and never changed afterwards. */
    const basePositions: array<real>

    /** Wave phase, +0.1 per frame. */
    var count: real

    /** Pointer offset from the container centre. */
    var mouseX: real
    var mouseY: real

    var windowHalfX: real
    var windowHalfY: real

    var cameraX: real
    var cameraY: real

    /**
     * The buffers are distinct and have their fixed sizes, the base buffer
     * holds the flat lattice, and the live buffer has every lattice x and z.
     */
    ghost predicate Valid()
      reads this, positions, basePositions
    {
      && positions.Length == 3 * NUM_POINTS
      && basePositions.Length == 3 * NUM_POINTS
      && positions != basePositions
      && Ground(positions[..])
      && Flat(basePositions[..], NUM_POINTS)
    }

    /**
     * Set-up, up to the first frame: both buffers filled with the flat lattice,
     * the pointer at its starting place, the camera at the origin of the x-y
     * plane, and the half extents taken from the container's size.
     */
    constructor (width: real, height: real)
      ensures Valid() && fresh(positions) && fresh(basePositions)
      ensures Flat(positions[..], NUM_POINTS) && positions[..] == basePositions[..]
      ensures count == 0.0
      ensures mouseX == START_MOUSE_X && mouseY == START_MOUSE_Y
      ensures windowHalfX == width / 2.0 && windowHalfY == height / 2.0
      ensures cameraX == 0.0 && cameraY == 0.0
    {
      var pos := new real[3 * NUM_POINTS];
      var base := new real[3 * NUM_POINTS];
      var i := 0;
      for ix := 0 to AMOUNTX
        invariant i == ix * AMOUNTY
        invariant Flat(pos[..], i) && Flat(base[..], i)
      {
        for iy := 0 to AMOUNTY
          invariant i == ix * AMOUNTY + iy
          invariant Flat(pos[..], i) && Flat(base[..], i)
        {
          var x := Coord(ix, AMOUNTX, SEPARATION);
          var z := Coord(iy, AMOUNTY, SEPARATION);
          IndexInRange(AMOUNTX, AMOUNTY, ix, iy);
          IndexDecodes(AMOUNTX, AMOUNTY, ix, iy);
          FlatStep(pos[..], i, ix, iy);
          FlatStep(base[..], i, ix, iy);
          LayOutPoint(pos, base, i, x, z);
          i := i + 1;
        }
      }
      FlatGround(pos[..]);
      FlatEqual(pos[..], base[..]);
      positions := pos;
      basePositions := base;
      count := 0.0;
      mouseX, mouseY := START_MOUSE_X, START_MOUSE_Y;
      windowHalfX, windowHalfY := width / 2.0, height / 2.0;
      cameraX, cameraY := 0.0, 0.0;
    }

    /**
     * One animation frame: ease the camera toward (mouseX, -mouseY), write the
     * wave height of phase `count` into every y slot, and advance the phase.
     * Only y slots are written, so the lattice x and z stay, and the base
     * buffer is not touched at all.
     */
    method Animate(sin: real -> real)
      requires IsSine(sin) && Valid()
      modifies this`cameraX, this`cameraY, this`count, positions
      ensures Valid()
      ensures cameraX == Follow(old(cameraX), mouseX)
      ensures cameraY == Follow(old(cameraY), -mouseY)
      ensures count == old(count) + COUNT_STEP
      ensures Waved(sin, old(count), positions[..], NUM_POINTS)
      ensures basePositions[..] == old(basePositions[..])
    {
      cameraX := cameraX + (mouseX - cameraX) * DAMPING;
      cameraY := cameraY + (-mouseY - cameraY) * DAMPING;

      var idx := 0;
      for ix := 0 to AMOUNTX
        modifies positions
        invariant idx == ix * AMOUNTY
        invariant Ground(positions[..]) && Waved(sin, count, positions[..], idx)
      {
        for iy := 0 to AMOUNTY
          modifies positions
          invariant idx == ix * AMOUNTY + iy
          invariant Ground(positions[..]) && Waved(sin, count, positions[..], idx)
        {
          var y := Height(sin, ix, iy, count);
          IndexInRange(AMOUNTX, AMOUNTY, ix, iy);
          IndexDecodes(AMOUNTX, AMOUNTY, ix, iy);
          WavedStep(sin, count, positions[..], idx, ix, iy);
          WriteHeight(positions, idx, y);
          idx := idx + 1;
        }
      }

      count := count + COUNT_STEP;
    }

    /** Mouse move: the pointer's offset from the container centre, in container coordinates. */
    method HandleMouseMove(clientX: real, clientY: real, rectLeft: real, rectTop: real)
      modifies this`mouseX, this`mouseY
      ensures mouseX == clientX - rectLeft - windowHalfX && mouseY == clientY - rectTop - windowHalfY
    {
      mouseX := clientX - rectLeft - windowHalfX;
      mouseY := clientY - rectTop - windowHalfY;
    }

    /**
     * Touch move: with exactly one finger down, suppress scrolling and track
     * that finger like the mouse; otherwise change nothing.
     */
    method HandleTouchMove(touches: seq<Touch>, rectLeft: real, rectTop: real) returns (preventDefault: bool)
      modifies this`mouseX, this`mouseY
      ensures preventDefault <==> SingleTouch(touches)
      ensures preventDefault ==>
                && mouseX == touches[0].pageX - rectLeft - windowHalfX
                && mouseY == touches[0].pageY - rectTop - windowHalfY
      ensures !preventDefault ==> mouseX == old(mouseX) && mouseY == old(mouseY)
    {
      preventDefault := false;
      if |touches| == 1 {
        preventDefault := true;
        mouseX := touches[0].pageX - rectLeft - windowHalfX;
        mouseY := touches[0].pageY - rectTop - windowHalfY;
      }
    }

    /** Resize: the half extents follow the container's new size; nothing happens once it is gone. */
    method HandleResize(container: Container)
      modifies this`windowHalfX, this`windowHalfY
      ensures container.Unmounted? ==> windowHalfX == old(windowHalfX) && windowHalfY == old(windowHalfY)
      ensures container.Mounted? ==>
                windowHalfX == container.clientWidth / 2.0 && windowHalfY == container.clientHeight / 2.0
    {
      if container.Unmounted? {
        return;
      }
      windowHalfX := container.clientWidth / 2.0;
      windowHalfY := container.clientHeight / 2.0;
    }
  }

  /** Two fully laid-out buffers are equal: the layout leaves nothing open. */
  lemma FlatEqual(a: seq<real>, b: seq<real>)
    requires Flat(a, NUM_POINTS) && Flat(b, NUM_POINTS)
    ensures a == b
  {
    forall k | 0 <= k < |a|
      ensures a[k] == b[k]
    {
      var p := k / 3;
      assert a[XSlot(p)] == b[XSlot(p)];
    }
  }

  /**
   * Mounting: set up, then draw the first frame at once. The first frame eases
   * the camera from (0, 0) toward the starting pointer, reaching (4.25, 17.1),
   * and draws the wave at phase 0.
   */
  method Mount(sin: real -> real, width: real, height: real) returns (scene: WaveScene)
    requires IsSine(sin)
    ensures fresh(scene) && fresh(scene.positions) && fresh(scene.basePositions) && scene.Valid()
    ensures scene.cameraX == 4.25 && scene.cameraY == 17.1
    ensures scene.count == 0.1
    ensures Waved(sin, 0.0, scene.positions[..], NUM_POINTS)
  {
    scene := new WaveScene(width, height);
    scene.Animate(sin);
  }
}

/**
 * The flat buffer layout both backgrounds share: an `amountX` by `amountY`
 * lattice of points, visited row-major with `ix` outer and `iy` inner. The
 * walk numbers the points 0, 1, 2, ...; point number `p` owns slot `p` of a
 * per-point buffer and the three consecutive slots `3p`, `3p+1`, `3p+2`
 * (x, y, z) of a position buffer.
 */
module Grid {

  predicate InGrid(amountX: int, amountY: int, ix: int, iy: int)
  {
    0 <= ix < amountX && 0 <= iy < amountY
  }

  /** Number of point (ix, iy) in the row-major walk. */
  function Index(amountY: int, ix: int, iy: int): int
  {
    ix * amountY + iy
  }

  /** Column `ix` of point number `p`. */
  function Column(amountY: int, p: int): int
    requires amountY > 0
  {
    p / amountY
  }

  /** Row `iy` of point number `p`. */
  function Row(amountY: int, p: int): int
    requires amountY > 0
  {
    p % amountY
  }

  /** Slots of point `p`'s x, y and z values in a position buffer. */
  function XSlot(p: int): int { 3 * p }
  function YSlot(p: int): int { 3 * p + 1 }
  function ZSlot(p: int): int { 3 * p + 2 }

  /**
   * Lattice coordinate along one axis: `i * separation` shifted so that the
   * lattice is centred on the origin (by half of `amount * separation`).
   */
  function Coord(i: int, amount: int, separation: int): real
  {
    (i * separation) as real - (amount * separation) as real / 2.0
  }

  /** The walk numbers the lattice points 0 .. amountX*amountY - 1. */
  lemma IndexInRange(amountX: int, amountY: int, ix: int, iy: int)
    requires InGrid(amountX, amountY, ix, iy)
    ensures 0 <= Index(amountY, ix, iy) < amountX * amountY
  {
    assert ix * amountY + iy < (ix + 1) * amountY;
    assert (ix + 1) * amountY <= amountX * amountY by {
      MulMonotone(ix + 1, amountX, amountY);
    }
  }

  /** Decoding a point's number gives back the point: Column and Row invert Index on the lattice. */
  lemma {:induction false} IndexDecodes(amountX: int, amountY: int, ix: int, iy: int)
    requires InGrid(amountX, amountY, ix, iy)
    ensures Column(amountY, Index(amountY, ix, iy)) == ix
    ensures Row(amountY, Index(amountY, ix, iy)) == iy
  {
    var p := Index(amountY, ix, iy);
    var q, r := p / amountY, p % amountY;
    assert q * amountY + r == ix * amountY + iy;
    if q < ix {
      MulMonotone(q + 1, ix, amountY);
      assert false;
    } else if ix < q {
      MulMonotone(ix + 1, q, amountY);
      assert false;
    }
  }

  /** Every number below amountX*amountY is the number of exactly the point (Column, Row). */
  lemma {:induction false} PointEncodes(amountX: int, amountY: int, p: int)
    requires amountY > 0 && 0 <= p < amountX * amountY
    ensures InGrid(amountX, amountY, Column(amountY, p), Row(amountY, p))
    ensures Index(amountY, Column(amountY, p), Row(amountY, p)) == p
  {
    var ix := p / amountY;
    if ix >= amountX {
      MulMonotone(amountX, ix, amountY);
      assert false;
    }
  }

  /** The points numbered Index(ix, 0) up to Index(ix, 0) + amountY - 1 form column ix, in order of iy. */
  lemma ColumnDecodes(amountX: int, amountY: int, ix: int)
    requires 0 <= ix < amountX && amountY > 0
    ensures Index(amountY, ix + 1, 0) == Index(amountY, ix, 0) + amountY
    ensures forall p :: Index(amountY, ix, 0) <= p < Index(amountY, ix, 0) + amountY ==>
              Column(amountY, p) == ix && Row(amountY, p) == p - Index(amountY, ix, 0)
  {
    forall p | Index(amountY, ix, 0) <= p < Index(amountY, ix, 0) + amountY
      ensures Column(amountY, p) == ix && Row(amountY, p) == p - Index(amountY, ix, 0)
    {
      IndexDecodes(amountX, amountY, ix, p - Index(amountY, ix, 0));
    }
  }

  /** Two lattice points with the same number are the same point. */
  lemma IndexInjective(amountX: int, amountY: int, ix: int, iy: int, jx: int, jy: int)
    requires InGrid(amountX, amountY, ix, iy) && InGrid(amountX, amountY, jx, jy)
    requires Index(amountY, ix, iy) == Index(amountY, jx, jy)
    ensures ix == jx && iy == jy
  {
    IndexDecodes(amountX, amountY, ix, iy);
    IndexDecodes(amountX, amountY, jx, jy);
  }

  lemma MulMonotone(a: int, b: int, c: int)
    requires a <= b && c >= 0
    ensures a * c <= b * c
  {
  }
}

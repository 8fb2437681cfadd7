/**
 * Tile-size arithmetic of the detail-level control.
 *
 * The control sets a layer's tile size to `Math.round(Math.pow(2, -n) * t)`
 * for an offset `n` and an original tile size `t`. This module states that
 * expression exactly over the integers: for `n > 0` it rounds `t / 2^n` to the
 * nearest integer with halves rounded upward (as JavaScript's `Math.round`
 * does), and for `n <= 0` it is the exact product `t * 2^-n`.
 */
module TileGeometry {

  /** 2 to the power k. */
  function Pow2(k: nat): (p: nat)
    ensures p >= 1
  {
    if k == 0 then 1 else 2 * Pow2(k - 1)
  }

  /** The tile size shown at detail offset `offset` for a layer whose original
      tile size is `t`. For a positive offset the result is the integer nearest
      to t / 2^offset, ties going up; otherwise it is t scaled up exactly. */
  function ScaledTileSize(t: int, offset: int): (r: int)
    ensures offset > 0 ==>
      r * Pow2(offset) - Pow2(offset - 1) <= t < r * Pow2(offset) + Pow2(offset - 1)
    ensures offset <= 0 ==> r == t * Pow2(-offset)
  {
    if offset > 0 then
      var half, whole := Pow2(offset - 1), Pow2(offset);
      assert whole == 2 * half;
      (t + half) / whole
    else
      t * Pow2(-offset)
  }

  /** A multiple x * p of a positive p that stays below p has x <= 0. */
  lemma MultipleBelowOne(x: int, p: int)
    requires p >= 1 && x * p < p
    ensures x <= 0
  {
  }

  /** The nearest-integer characterisation determines the result: any r that
      satisfies it for a positive offset is the scaled tile size. */
  lemma NearestIsUnique(t: int, offset: int, r: int)
    requires offset > 0
    requires r * Pow2(offset) - Pow2(offset - 1) <= t < r * Pow2(offset) + Pow2(offset - 1)
    ensures r == ScaledTileSize(t, offset)
  {
    var s, p, h := ScaledTileSize(t, offset), Pow2(offset), Pow2(offset - 1);
    assert p == 2 * h;
    assert (r - s) * p == r * p - s * p;
    MultipleBelowOne(r - s, p);
    MultipleBelowOne(s - r, p);
  }

  /** A property of the rounding alone: scaling up by 2^n and then rounding
      down by 2^n is exact. The control itself never composes the scaling,
      since every rewrite starts from the snapshot's tile size. */
  lemma {:induction false} ScaleUpThenDown(t: int, n: nat)
    ensures ScaledTileSize(ScaledTileSize(t, -(n as int)), n) == t
  {
    if n > 0 {
      var up, p, h := ScaledTileSize(t, -(n as int)), Pow2(n), Pow2(n - 1);
      assert up == t * p;
      assert p == 2 * h;
      NearestIsUnique(up, n, t);
    }
  }

  /** Above offset 0, one step more detail halves the tile size up to
      rounding: the two rounded sizes differ from an exact halving by at most 1. */
  lemma HalvingAbove(t: int, n: int)
    requires n > 0
    ensures -1 <= ScaledTileSize(t, n) - 2 * ScaledTileSize(t, n + 1) <= 1
  {
    var a, b := ScaledTileSize(t, n), ScaledTileSize(t, n + 1);
    var p, h := Pow2(n), Pow2(n - 1);
    assert p == 2 * h;
    assert Pow2(n + 1) == 2 * p;
    // a * p - h <= t < a * p + h  and  2b * p - p <= t < 2b * p + p
    assert (2 * b - a - 1) * p < h;
    assert (a - 2 * b - 1) * p < h;
    MultipleBelowOne(2 * b - a - 1, p);
    MultipleBelowOne(a - 2 * b - 1, p);
  }

  /** Below offset 0 the tile size is an exact multiple, so one step more
      detail halves it exactly (and one step less doubles it). */
  lemma HalvingBelow(t: int, n: int)
    requires n < 0
    ensures ScaledTileSize(t, n) == 2 * ScaledTileSize(t, n + 1)
  {
    assert Pow2(-n) == 2 * Pow2(-n - 1);
    assert t * Pow2(-n) == 2 * (t * Pow2(-n - 1));
  }

  /** Adjacent offsets: one step more detail halves the tile size up to
      rounding, and below offset 0 it halves it exactly. */
  lemma AdjacentOffsets(t: int, n: int)
    ensures -1 <= ScaledTileSize(t, n) - 2 * ScaledTileSize(t, n + 1) <= 1
    ensures n < 0 ==> ScaledTileSize(t, n) == 2 * ScaledTileSize(t, n + 1)
  {
    if n < 0 {
      HalvingBelow(t, n);
    } else if n == 0 {
      assert Pow2(1) == 2 && Pow2(0) == 1;
    } else {
      HalvingAbove(t, n);
    }
  }
}

/** The tile index calculator: the column x is (lon/180 + 1) * 2^zl / 2 truncated
    toward zero, over real numbers instead of floating point. The y index takes a logarithm
    and a tangent; it is a parameter of the tiling run, not defined here. */
module TileIndex {

  function Pow2(n: nat): (p: nat)
    ensures p >= 1
  {
    if n == 0 then 1 else 2 * Pow2(n - 1)
  }

  /** 2**zl as Python evaluates it: an integer for zl >= 0, a fraction below. */
  function PyPow2(zl: int): (p: real)
    ensures p > 0.0
  {
    if zl >= 0 then Pow2(zl) as real else 1.0 / Pow2(-zl) as real
  }

  /** Conversion of a float to an integer: truncation toward zero. */
  function Trunc(r: real): (t: int)
    ensures r >= 0.0 ==> t as real <= r < t as real + 1.0
    ensures r < 0.0 ==> t as real - 1.0 < r <= t as real
  {
    if r >= 0.0 then r.Floor else -((-r).Floor)
  }

  /** The real value the x formula truncates. */
  function XValue(lon: real, zl: int): real
  {
    (lon / 180.0 + 1.0) * PyPow2(zl) / 2.0
  }

  /** The column index of the tile holding a longitude at zoom level zl. */
  function TileX(lon: real, zl: int): int
  {
    Trunc(XValue(lon, zl))
  }

  lemma TruncMonotone(a: real, b: real)
    requires a <= b
    ensures Trunc(a) <= Trunc(b)
  {
  }

  lemma XValueOfNat(lon: real, zl: nat)
    ensures XValue(lon, zl) == (lon + 180.0) / 360.0 * Pow2(zl) as real
  {
  }

  /** West of the antimeridian and east of it, x stays in 0 .. 2^zl - 1. */
  lemma TileXRange(lon: real, zl: nat)
    requires -180.0 <= lon < 180.0
    ensures 0 <= TileX(lon, zl) < Pow2(zl)
  {
    var n := Pow2(zl) as real;
    var f := (lon + 180.0) / 360.0;
    XValueOfNat(lon, zl);
    assert 0.0 <= f < 1.0;
    assert 0.0 <= f * n < n;
  }

  /** lon = -180 is the west edge of tile 0 at every zoom. */
  lemma TileXWestEdge(zl: int)
    ensures TileX(-180.0, zl) == 0
  {
    assert XValue(-180.0, zl) == 0.0;
  }

  /** At zoom 0 the whole longitude range is tile 0. */
  lemma TileXZoomZero(lon: real)
    requires -180.0 <= lon < 180.0
    ensures TileX(lon, 0) == 0
  {
    TileXRange(lon, 0);
  }

  /** lon = 180 lands one past the last tile, at column 2^zl. */
  lemma TileXEastEdge(zl: nat)
    ensures TileX(180.0, zl) == Pow2(zl)
  {
    XValueOfNat(180.0, zl);
    assert XValue(180.0, zl) == Pow2(zl) as real;
  }

  /** Moving east never moves to a tile further west. */
  lemma TileXMonotone(lon1: real, lon2: real, zl: int)
    requires lon1 <= lon2
    ensures TileX(lon1, zl) <= TileX(lon2, zl)
  {
    var p := PyPow2(zl);
    assert (lon1 / 180.0 + 1.0) * p <= (lon2 / 180.0 + 1.0) * p;
    TruncMonotone(XValue(lon1, zl), XValue(lon2, zl));
  }

  /** The west edge, in degrees, of tile column x at zoom zl. */
  function WestEdge(x: int, zl: nat): real
  {
    x as real * 360.0 / Pow2(zl) as real - 180.0
  }

  lemma DivLe(a: real, b: real, n: real)
    requires n > 0.0
    ensures a / n <= b <==> a <= b * n
  {
    assert a / n * n == a;
  }

  lemma DivLt(a: real, b: real, n: real)
    requires n > 0.0
    ensures b < a / n <==> b * n < a
  {
    assert a / n * n == a;
  }

  /** x is the column whose west edge is at or west of lon and whose east edge is east of it. */
  lemma TileXCell(lon: real, zl: nat, x: int)
    requires lon >= -180.0
    ensures TileX(lon, zl) == x <==> WestEdge(x, zl) <= lon < WestEdge(x + 1, zl)
  {
    var n := Pow2(zl) as real;
    var v := XValue(lon, zl);
    var w := lon + 180.0;
    XValueOfNat(lon, zl);
    assert v >= 0.0;
    assert v == w * n / 360.0;
    DivLe(x as real * 360.0, w, n);
    DivLt((x + 1) as real * 360.0, w, n);
    assert x as real <= v <==> x as real * 360.0 <= w * n;
    assert v < (x + 1) as real <==> w * n < (x + 1) as real * 360.0;
  }
}

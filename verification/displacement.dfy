/**
 The per-feature displacement draw: a random sign and a random magnitude in
 [minDist, maxDist] for each axis, drawn independently.  The random source is
 replaced by an oracle record holding the raw values it would have returned.
 */
module Displacement {
  import opened Shapes

  /** A result of `randint(0, 1)`. */
  type Bit = b: int | 0 <= b <= 1

  /** A result of the generator's base draw `random()`, in [0, 1). */
  type UnitDraw = u: real | 0.0 <= u < 1.0

  /** The raw random values consumed for one feature, in the order the tool draws them. */
  datatype FeatureDraw = FeatureDraw(bitX: Bit, bitY: Bit, unitX: UnitDraw, unitY: UnitDraw)

  /** The sign multiplier: 1 when the coin shows 1, otherwise -1. */
  function Multiplier(bit: Bit): (m: real)
    ensures m == 1.0 || m == -1.0
    ensures m == 1.0 <==> bit == 1
  {
    if bit == 1 then 1.0 else -1.0
  }

  /** The stretch `k * u` that `uniform` adds to its lower bound. */
  function Scale(k: real, u: UnitDraw): real
  {
    k * u
  }

  /** A stretch never exceeds its length, in either direction. */
  lemma ScaleWithin(k: real, u: UnitDraw)
    ensures 0.0 <= k ==> 0.0 <= Scale(k, u) <= k
    ensures 0.0 < k ==> Scale(k, u) < k
    ensures k <= 0.0 ==> k <= Scale(k, u) <= 0.0
    ensures k < 0.0 ==> k < Scale(k, u)
  {
    assert k - k * u == k * (1.0 - u);
    if k < 0.0 {
      assert (-k) * (1.0 - u) > 0.0;
    }
  }

  /**
   `uniform(a, b)` computed from the base draw `u` as `a + (b - a) * u`.  The
   bounds are not validated: with `a > b` the value falls between `b` and `a`.
   */
  function Uniform(a: real, b: real, u: UnitDraw): (r: real)
    ensures a <= b ==> a <= r <= b
    ensures a < b ==> r < b
    ensures b <= a ==> b <= r <= a
    ensures b < a ==> b < r
  {
    ScaleWithin(b - a, u);
    a + Scale(b - a, u)
  }

  /** A length shorter than `k`, divided by `k`, is a valid base draw. */
  lemma QuotientBelowOne(n: real, k: real)
    requires 0.0 <= n < k
    ensures 0.0 <= n / k < 1.0
  {
    assert n / k * k == n;
  }

  /**
   The displacement of one feature: each axis gets its own magnitude and its own
   sign.  With 0 <= minDist <= maxDist every axis moves by at least minDist and
   at most maxDist, and the sign bits pick the quadrant.
   */
  function Displace(minDist: real, maxDist: real, o: FeatureDraw): (d: Offset)
    ensures 0.0 <= minDist <= maxDist ==>
              minDist <= Abs(d.dx) <= maxDist && minDist <= Abs(d.dy) <= maxDist
    ensures 0.0 <= minDist < maxDist ==> Abs(d.dx) < maxDist && Abs(d.dy) < maxDist
    ensures 0.0 < minDist <= maxDist ==> (d.dx > 0.0 <==> o.bitX == 1) && (d.dy > 0.0 <==> o.bitY == 1)
  {
    Offset(Uniform(minDist, maxDist, o.unitX) * Multiplier(o.bitX),
           Uniform(minDist, maxDist, o.unitY) * Multiplier(o.bitY))
  }

  /** `v` is a displacement value an axis can take: |v| in [minDist, maxDist). */
  predicate InBand(minDist: real, maxDist: real, v: real)
  {
    minDist <= Abs(v) < maxDist
  }

  /** The base draw that makes `Uniform(a, b, _)` return `m`. */
  function UnitFor(a: real, b: real, m: real): (u: UnitDraw)
    requires a < b && a <= m < b
    ensures Uniform(a, b, u) == m
  {
    QuotientBelowOne(m - a, b - a);
    var u: UnitDraw := (m - a) / (b - a);
    assert Scale(b - a, u) == m - a;
    u
  }

  /**
   The raw draws that produce `target`: every displacement in the band, in any of
   the four quadrants, is reachable.
   */
  function DrawFor(minDist: real, maxDist: real, target: Offset): (o: FeatureDraw)
    requires 0.0 <= minDist < maxDist
    requires InBand(minDist, maxDist, target.dx) && InBand(minDist, maxDist, target.dy)
    ensures Displace(minDist, maxDist, o) == target
  {
    var signX: Bit := if target.dx >= 0.0 then 1 else 0;
    var signY: Bit := if target.dy >= 0.0 then 1 else 0;
    FeatureDraw(signX, signY,
                UnitFor(minDist, maxDist, Abs(target.dx)),
                UnitFor(minDist, maxDist, Abs(target.dy)))
  }
}

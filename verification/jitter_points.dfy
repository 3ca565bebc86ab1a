/**
 The first point-only tool: the magnitudes are drawn unsigned and multiplied by
 the sign when the new point is built.  Only single-point features are modelled.
 */
module ArcPoints {
  import opened Shapes
  import opened Displacement
  import Jitter
  import OgrPoints

  /**
   The point geometry that replaces a single-point feature at `c`.  It is the
   point branch of the general tool with dx = randX * posnegX, dy = randY * posnegY.
   */
  function JitterPoint(c: Coord, minDist: real, maxDist: real, o: FeatureDraw): (r: Geometry)
    ensures var randX := Uniform(minDist, maxDist, o.unitX);
            var randY := Uniform(minDist, maxDist, o.unitY);
            r == Jitter.JitterGeometry(PointGeometry(c),
                                       Offset(randX * Multiplier(o.bitX), randY * Multiplier(o.bitY)))
    ensures r == Jitter.JitterGeometry(PointGeometry(c), Displace(minDist, maxDist, o))
    ensures 0.0 <= minDist <= maxDist ==>
              minDist <= Abs(r.point.x - c.x) <= maxDist && minDist <= Abs(r.point.y - c.y) <= maxDist
  {
    var posnegX := Multiplier(o.bitX);
    var posnegY := Multiplier(o.bitY);
    var randX := Uniform(minDist, maxDist, o.unitX);
    var randY := Uniform(minDist, maxDist, o.unitY);
    PointGeometry(Coord(c.x + randX * posnegX, c.y + randY * posnegY))
  }

  /** With the same draws, this tool and the layer tool write the same point. */
  lemma AgreesWithOgrPoints(c: Coord, minDist: real, maxDist: real, o: FeatureDraw)
    ensures JitterPoint(c, minDist, maxDist, o) == OgrPoints.JitterPointFeature(c, minDist, maxDist, o)
  {
  }
}

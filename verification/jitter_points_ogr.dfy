/**
 The point-only tool over a vector layer: one displacement per feature, the new
 point built fresh from the old point's coordinates.
 */
module OgrPoints {
  import opened Shapes
  import opened Displacement
  import Jitter

  /**
   The fresh point geometry written back for one feature at `orig`: its
   coordinates are the old ones plus the signed random distances.  It agrees with
   the point branch of the general tool.
   */
  function JitterPointFeature(orig: Coord, minDist: real, maxDist: real, o: FeatureDraw): (r: Geometry)
    ensures r.PointGeometry?
    ensures Diff(r.point, orig) == Displace(minDist, maxDist, o)
    ensures r == Jitter.JitterGeometry(PointGeometry(orig), Displace(minDist, maxDist, o))
  {
    var randX := Displace(minDist, maxDist, o).dx;
    var randY := Displace(minDist, maxDist, o).dy;
    PointGeometry(Coord(orig.x + randX, orig.y + randY))
  }

  /** The whole layer, one draw consumed per feature, in layer order. */
  function JitterLayer(points: seq<Coord>, draws: seq<FeatureDraw>, minDist: real, maxDist: real): (r: seq<Geometry>)
    requires |draws| == |points|
    ensures |r| == |points|
    ensures forall i :: 0 <= i < |points| ==>
              r[i].PointGeometry? && Diff(r[i].point, points[i]) == Displace(minDist, maxDist, draws[i])
  {
    if |points| == 0 then []
    else [JitterPointFeature(points[0], minDist, maxDist, draws[0])]
         + JitterLayer(points[1..], draws[1..], minDist, maxDist)
  }

  /** The rows of a point feature class holding `points`. */
  function PointRows(points: seq<Coord>): seq<Geometry>
  {
    seq(|points|, i requires 0 <= i < |points| => PointGeometry(points[i]))
  }

  /**
   Given the same draws, the layer tool and the general tool on a point class
   produce the same output rows.
   */
  lemma LayerAgreesWithJitterFeatures(points: seq<Coord>, draws: seq<FeatureDraw>, minDist: real, maxDist: real)
    requires |draws| == |points|
    ensures Jitter.JitterFeatures("Point", PointRows(points), draws, minDist, maxDist).raised.None?
    ensures JitterLayer(points, draws, minDist, maxDist)
         == Jitter.JitterFeatures("Point", PointRows(points), draws, minDist, maxDist).output
  {
    var rows := PointRows(points);
    var layer := JitterLayer(points, draws, minDist, maxDist);
    var run := Jitter.JitterFeatures("Point", rows, draws, minDist, maxDist);
    forall i | 0 <= i < |points|
      ensures layer[i] == run.output[i]
    {
      Jitter.JitterFeaturesRows("Point", rows, draws, minDist, maxDist, i);
    }
  }
}

/**
 The general jitter transform: every vertex of a feature is moved by the one
 displacement drawn for that feature, parts and points keeping their order.
 */
module Jitter {
  import opened Wrappers
  import opened Shapes
  import opened Displacement

  /** The error raised when the feature class has a shape type outside the lookup table. */
  datatype JitterError = UnsupportedShapeType(shapeType: string)

  /**
   The state after a run: the rows of the output feature class and the error
   raised, if any.  The input is copied to the output before the shape type is
   checked, so a failed run still leaves a copy behind.
   */
  datatype Run = Run(output: seq<Geometry>, raised: Option<JitterError>)

  /** `q` is `p` with every vertex moved by `d`, one for one and in order. */
  predicate PartTranslated(p: Part, q: Part, d: Offset)
  {
    |q| == |p| && forall i :: 0 <= i < |p| ==> q[i] == Shift(p[i], d)
  }

  /**
   `h` is `g` moved rigidly by `d`: the same kind of geometry, the same number of
   parts, and each part translated vertex by vertex.
   */
  predicate IsTranslationOf(g: Geometry, h: Geometry, d: Offset)
  {
    match g
    case PointGeometry(c) => h == PointGeometry(Shift(c, d))
    case MultiPart(kind, parts) =>
      && h.MultiPart?
      && h.kind == kind
      && |h.parts| == |parts|
      && forall k :: 0 <= k < |parts| ==> PartTranslated(parts[k], h.parts[k], d)
  }

  /** Every row conforms to the shape type the lookup finds for the class, if it finds one. */
  predicate RowsConform(shapeType: string, rows: seq<Geometry>)
  {
    match LookupShapeType(shapeType)
    case None => true
    case Some(t) => forall i :: 0 <= i < |rows| ==> Conforms(rows[i], t)
  }

  /** A fresh part holding the vertices of `part`, each moved by `d`. */
  function JitterPart(part: Part, d: Offset): (r: Part)
    ensures PartTranslated(part, r, d)
  {
    if |part| == 0 then []
    else [Shift(part[0], d)] + JitterPart(part[1..], d)
  }

  /** Each part jittered in turn, with the same displacement for all of them. */
  function JitterParts(parts: seq<Part>, d: Offset): (r: seq<Part>)
    ensures |r| == |parts|
    ensures forall k :: 0 <= k < |parts| ==> PartTranslated(parts[k], r[k], d)
  {
    if |parts| == 0 then []
    else [JitterPart(parts[0], d)] + JitterParts(parts[1..], d)
  }

  /**
   One feature's geometry moved by `d`.  A point geometry is passed to
   `JitterPart` as a one-vertex part and the single result is taken out.
   */
  function JitterGeometry(g: Geometry, d: Offset): (r: Geometry)
    ensures IsTranslationOf(g, r, d)
  {
    match g
    case PointGeometry(c) => PointGeometry(JitterPart([c], d)[0])
    case MultiPart(kind, parts) => MultiPart(kind, JitterParts(parts, d))
  }

  /** The rows of the output class, each moved by the displacement drawn for it. */
  function JitterRows(rows: seq<Geometry>, draws: seq<FeatureDraw>, minDist: real, maxDist: real): (r: seq<Geometry>)
    requires |draws| == |rows|
    ensures |r| == |rows|
    ensures forall i :: 0 <= i < |rows| ==>
              IsTranslationOf(rows[i], r[i], Displace(minDist, maxDist, draws[i]))
  {
    if |rows| == 0 then []
    else [JitterGeometry(rows[0], Displace(minDist, maxDist, draws[0]))]
         + JitterRows(rows[1..], draws[1..], minDist, maxDist)
  }

  /**
   The whole tool on one feature class.  An unknown shape type is rejected
   before any row is touched; otherwise one draw is spent per row and every row
   is translated rigidly by it, keeping the class's shape type.
   */
  function JitterFeatures(shapeType: string, rows: seq<Geometry>, draws: seq<FeatureDraw>,
                          minDist: real, maxDist: real): (run: Run)
    requires |draws| == |rows|
    requires RowsConform(shapeType, rows)
    ensures run.raised.Some? <==> shapeType !in SupportedNames()
    ensures run.raised.Some? ==>
              run.raised.value == UnsupportedShapeType(shapeType) && run.output == rows
    ensures run.raised.None? ==>
              && |run.output| == |rows|
              && forall i :: 0 <= i < |rows| ==>
                   && IsTranslationOf(rows[i], run.output[i], Displace(minDist, maxDist, draws[i]))
                   && Conforms(run.output[i], LookupShapeType(shapeType).value)
  {
    match LookupShapeType(shapeType)
    case None => Run(rows, Some(UnsupportedShapeType(shapeType)))
    case Some(t) =>
      var out := JitterRows(rows, draws, minDist, maxDist);
      assert forall i :: 0 <= i < |rows| ==> Conforms(out[i], t) by {
        forall i | 0 <= i < |rows|
          ensures Conforms(out[i], t)
        {
          TranslationConforms(rows[i], out[i], Displace(minDist, maxDist, draws[i]), t);
        }
      }
      Run(out, None)
  }

  /** A translated geometry fits the same shape type as its source. */
  lemma TranslationConforms(g: Geometry, h: Geometry, d: Offset, t: ShapeType)
    requires IsTranslationOf(g, h, d)
    ensures Conforms(h, t) <==> Conforms(g, t)
  {
  }

  /** Two parts translated from the same part by the same offset are equal. */
  lemma PartTranslationUnique(p: Part, q: Part, d: Offset)
    requires PartTranslated(p, q, d)
    ensures q == JitterPart(p, d)
  {
  }

  /** The translation of a geometry by `d` is unique: it is exactly `JitterGeometry`. */
  lemma TranslationUnique(g: Geometry, h: Geometry, d: Offset)
    requires IsTranslationOf(g, h, d)
    ensures h == JitterGeometry(g, d)
  {
    if g.MultiPart? {
      var r := JitterGeometry(g, d);
      forall k | 0 <= k < |g.parts|
        ensures h.parts[k] == r.parts[k]
      {
        PartTranslationUnique(g.parts[k], h.parts[k], d);
        PartTranslationUnique(g.parts[k], r.parts[k], d);
      }
    }
  }

  /** Jittering by the zero offset gives back the same geometry. */
  lemma ZeroOffsetIdentity(g: Geometry)
    ensures JitterGeometry(g, Zero()) == g
  {
    assert IsTranslationOf(g, g, Zero());
    TranslationUnique(g, g, Zero());
  }

  /** Two jitters in a row are one jitter by the sum of the offsets. */
  lemma ComposeOffsets(g: Geometry, d1: Offset, d2: Offset)
    ensures JitterGeometry(JitterGeometry(g, d1), d2) == JitterGeometry(g, Add(d1, d2))
  {
    var h := JitterGeometry(JitterGeometry(g, d1), d2);
    assert IsTranslationOf(g, h, Add(d1, d2));
    TranslationUnique(g, h, Add(d1, d2));
  }

  /** Jittering by the negated offset undoes a jitter. */
  lemma NegatedOffsetUndoes(g: Geometry, d: Offset)
    ensures JitterGeometry(JitterGeometry(g, d), Negate(d)) == g
  {
    ComposeOffsets(g, d, Negate(d));
    assert Add(d, Negate(d)) == Zero();
    ZeroOffsetIdentity(g);
  }

  /**
   Two vertices of a part coincide after jittering exactly when they coincided
   before; in particular a ring stays closed and an open line stays open.
   */
  lemma JitterPartKeepsCoincidence(p: Part, d: Offset, i: int, j: int)
    requires 0 <= i < |p| && 0 <= j < |p|
    ensures JitterPart(p, d)[i] == JitterPart(p, d)[j] <==> p[i] == p[j]
  {
  }

  /** A part whose first vertex repeats as its last is still closed after jittering, and conversely. */
  lemma JitterPartKeepsClosure(p: Part, d: Offset)
    requires |p| > 0
    ensures var q := JitterPart(p, d); q[0] == q[|q| - 1] <==> p[0] == p[|p| - 1]
  {
    JitterPartKeepsCoincidence(p, d, 0, |p| - 1);
  }

  /**
   The translation is rigid across the whole feature: the vector between any
   two vertices, in the same part or in different parts, is unchanged, and each
   vertex has moved by the feature's one offset.
   */
  lemma RigidAcrossParts(g: Geometry, d: Offset, k1: int, i1: int, k2: int, i2: int)
    requires g.MultiPart?
    requires 0 <= k1 < |g.parts| && 0 <= i1 < |g.parts[k1]|
    requires 0 <= k2 < |g.parts| && 0 <= i2 < |g.parts[k2]|
    ensures var h := JitterGeometry(g, d);
      && Diff(h.parts[k1][i1], h.parts[k2][i2]) == Diff(g.parts[k1][i1], g.parts[k2][i2])
      && Diff(h.parts[k1][i1], g.parts[k1][i1]) == d
      && Diff(h.parts[k2][i2], g.parts[k2][i2]) == d
  {
    var h := JitterGeometry(g, d);
    assert PartTranslated(g.parts[k1], h.parts[k1], d);
    assert PartTranslated(g.parts[k2], h.parts[k2], d);
  }

  /** A point geometry at (x, y) becomes the point geometry at (x + dx, y + dy). */
  lemma PointBranch(c: Coord, d: Offset)
    ensures JitterGeometry(PointGeometry(c), d) == PointGeometry(Coord(c.x + d.dx, c.y + d.dy))
  {
  }

  /** The square ring (0,0) (10,0) (10,10) (0,10) (0,0) moved by (5, -3). */
  lemma SquareExample()
    ensures JitterGeometry(
              MultiPart(Polygon, [[Coord(0.0, 0.0), Coord(10.0, 0.0), Coord(10.0, 10.0), Coord(0.0, 10.0), Coord(0.0, 0.0)]]),
              Offset(5.0, -3.0))
         == MultiPart(Polygon, [[Coord(5.0, -3.0), Coord(15.0, -3.0), Coord(15.0, 7.0), Coord(5.0, 7.0), Coord(5.0, -3.0)]])
  {
    var g := MultiPart(Polygon, [[Coord(0.0, 0.0), Coord(10.0, 0.0), Coord(10.0, 10.0), Coord(0.0, 10.0), Coord(0.0, 0.0)]]);
    var h := MultiPart(Polygon, [[Coord(5.0, -3.0), Coord(15.0, -3.0), Coord(15.0, 7.0), Coord(5.0, 7.0), Coord(5.0, -3.0)]]);
    assert PartTranslated(g.parts[0], h.parts[0], Offset(5.0, -3.0));
    TranslationUnique(g, h, Offset(5.0, -3.0));
  }

  /** An annotation class is rejected, and its output is the untouched copy. */
  lemma AnnotationRejected(rows: seq<Geometry>, draws: seq<FeatureDraw>, minDist: real, maxDist: real)
    requires |draws| == |rows|
    ensures var run := JitterFeatures("Annotation", rows, draws, minDist, maxDist);
      run.raised == Some(UnsupportedShapeType("Annotation")) && run.output == rows
  {
  }

  /** On a supported class each output row is exactly the jitter of its source row. */
  lemma JitterFeaturesRows(shapeType: string, rows: seq<Geometry>, draws: seq<FeatureDraw>,
                           minDist: real, maxDist: real, i: int)
    requires |draws| == |rows|
    requires RowsConform(shapeType, rows)
    requires shapeType in SupportedNames()
    requires 0 <= i < |rows|
    ensures JitterFeatures(shapeType, rows, draws, minDist, maxDist).output[i]
         == JitterGeometry(rows[i], Displace(minDist, maxDist, draws[i]))
  {
    var run := JitterFeatures(shapeType, rows, draws, minDist, maxDist);
    TranslationUnique(rows[i], run.output[i], Displace(minDist, maxDist, draws[i]));
  }
}

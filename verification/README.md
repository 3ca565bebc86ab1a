# Jitter transform

A model of the jitter tool: it anonymises the locations of geometric features
(points, multipoints, polylines, polygons) by moving every feature rigidly by a
random offset. For each feature it draws one sign in {+1, -1} and one magnitude
from `uniform(min_dist, max_dist)` for each axis, independently, and then moves
every vertex of every part of that feature by the same (dx, dy). A feature class
whose shape type is not one of Polygon, Polyline, Point, Multipoint is rejected.
Two point-only variants of the tool do the point branch of the same transform.

Modules:

- `Shapes` — coordinates, offsets, the four shape types, the geometry variant
  (`PointGeometry` holds one vertex, `MultiPart` holds ordered parts) and the
  shape-type lookup table.
- `Displacement` — the per-feature displacement draw. The random source is
  replaced by a `FeatureDraw` record: two `randint(0, 1)` results and two
  base draws `u` in [0, 1). Each magnitude is `uniform`'s formula
  `a + (b - a) * u`.
- `Jitter` — `jitterPart` and `jitterFeatures` from `JitterFeatures.py`.
- `OgrPoints` — `jitterPointFeaturesOGR` from `JitterPoints_ogr.py`.
- `ArcPoints` — `jitterPoints` from `JitterPoints.py`, for single-point features.
- `Wrappers` — the `Option` type.

Coordinates are `real`. `jitterFeatures` is modelled as a function from the
class's shape type name, its rows and one `FeatureDraw` per row to a `Run`: the
output rows and the error raised, if any. What a jitter must produce is stated
on its own by the relation `IsTranslationOf` (same kind, same part and vertex
counts, every vertex moved by the offset). `JitterGeometry` satisfies it, and
`TranslationUnique` shows no other geometry does.

Notes on what the code does:

- The code never checks `min_dist <= max_dist` and raises no range error.
  `Uniform` accepts reversed bounds and then returns a value between them.
- The input is copied to the output (`JitterFeatures.py:54`) before the shape
  type is checked (`JitterFeatures.py:65-67`). So on the error the output class
  exists and holds the untouched copy. `JitterFeatures` returns `output == rows`
  in that case.
- Over the reals, `uniform` yields a magnitude in [min_dist, max_dist), not the
  closed interval. `Displace` proves both `<= max_dist` and, when
  `min_dist < max_dist`, `< max_dist`.

## Model

| member | source | states |
|---|---|---|
| `Shapes.LookupShapeType` | JitterFeatures.py:57-67 | the lookup finds a shape type exactly for the four names Polygon, Polyline, Point, Multipoint, and the type found carries that name |
| `Shapes.LookupTypeName` | JitterFeatures.py:57-62 | every shape type is found again under its own name |
| `Displacement.Multiplier` | JitterFeatures.py:76-77 | the sign multiplier is +1 or -1, and +1 exactly when the coin shows 1 |
| `Displacement.Uniform` | JitterFeatures.py:80-81 | the drawn magnitude lies in [a, b] when a <= b, strictly below b when a < b, and between b and a when the bounds are reversed |
| `Displacement.Displace` | JitterFeatures.py:76-81 | with 0 <= min_dist <= max_dist, min_dist <= \|dx\|, \|dy\| <= max_dist (below max_dist when min_dist < max_dist); with min_dist > 0 the sign bits choose the quadrant |
| `Displacement.UnitFor` | JitterFeatures.py:80-81 | every magnitude in [a, b) is produced by some base draw |
| `Displacement.DrawFor` | JitterFeatures.py:76-81 | every offset whose axes lie in the band, in any of the four quadrants, is produced by some draw |
| `Jitter.JitterPart` | JitterFeatures.py:8-32 | the new part has as many vertices as the old one, in the same order, vertex i being the old vertex i plus (dx, dy) |
| `Jitter.JitterParts` | JitterFeatures.py:89-100 | the rebuilt geometry has as many parts as the source, in order, and part k is part k of the source translated by the one offset |
| `Jitter.JitterGeometry` | JitterFeatures.py:83-100 | a point becomes the point plus the offset; a multi-part geometry keeps its kind, part count and part sizes, every vertex moved by the offset |
| `Jitter.JitterRows` | JitterFeatures.py:70-106 | every row is replaced by its translation by the displacement drawn for that row, one draw per row |
| `Jitter.JitterFeatures` | JitterFeatures.py:54-106 | an unsupported shape type raises the error and leaves the copied rows untouched; otherwise each output row is its source row moved by its own draw and fits the class's shape type |
| `Jitter.TranslationConforms` | JitterFeatures.py:102-104 | a translated geometry fits a shape type exactly when its source does |
| `Jitter.PartTranslationUnique` | JitterFeatures.py:21-32 | any part that translates a part vertex by vertex is the part `JitterPart` builds |
| `Jitter.TranslationUnique` | JitterFeatures.py:83-100 | any geometry that translates a geometry by an offset is the one `JitterGeometry` builds |
| `Jitter.ZeroOffsetIdentity` | JitterFeatures.py:29-30 | jittering by (0, 0) returns the geometry unchanged |
| `Jitter.ComposeOffsets` | JitterFeatures.py:29-30 | jittering by d1 and then d2 equals jittering once by d1 + d2 |
| `Jitter.NegatedOffsetUndoes` | JitterFeatures.py:29-30 | jittering by -d undoes jittering by d |
| `Jitter.JitterPartKeepsCoincidence` | JitterFeatures.py:24-30 | two vertices of a part coincide after jittering exactly when they coincided before |
| `Jitter.JitterPartKeepsClosure` | JitterFeatures.py:24-30 | a ring closed before (first vertex equals last) is closed after, and an open one stays open |
| `Jitter.RigidAcrossParts` | JitterFeatures.py:94-97 | the vector between any two vertices of a feature, in the same or different parts, is unchanged, and each vertex moved by the feature's one offset |
| `Jitter.PointBranch` | JitterFeatures.py:85-87 | a point geometry at (x, y) becomes the point geometry at (x + dx, y + dy) |
| `Jitter.SquareExample` | JitterFeatures.py:89-100 | the square ring (0,0) (10,0) (10,10) (0,10) (0,0) moved by (5, -3) becomes (5,-3) (15,-3) (15,7) (5,7) (5,-3) |
| `Jitter.AnnotationRejected` | JitterFeatures.py:64-67 | an Annotation class raises the unsupported-shape-type error and its output is the untouched copy |
| `Jitter.JitterFeaturesRows` | JitterFeatures.py:70-106 | on a supported class output row i is exactly row i jittered by draw i |
| `OgrPoints.JitterPointFeature` | JitterPoints_ogr.py:36-54 | the fresh point is the old point plus (rand_x, rand_y), the same as the point branch of the general tool |
| `OgrPoints.JitterLayer` | JitterPoints_ogr.py:33-59 | every feature of the layer gets a point geometry moved by the displacement of its own draw |
| `OgrPoints.LayerAgreesWithJitterFeatures` | JitterPoints_ogr.py:33-59 | with the same draws, the layer tool and the general tool on a Point class produce the same rows |
| `ArcPoints.JitterPoint` | JitterPoints.py:31-40 | the new point is the point branch of the general tool with dx = rand_x * posneg_x and dy = rand_y * posneg_y, which is the signed draw, and each axis moves between min_dist and max_dist |
| `ArcPoints.AgreesWithOgrPoints` | JitterPoints.py:33-40 | with the same draws this tool writes the same point as the layer tool |

## Left out

- Dataset plumbing: copying the feature class or layer, `Describe`, update
  cursors, `updateRow`, drivers, `CopyLayer`, `SetGeometryDirectly`,
  `SetFeature`. These are calls into the geospatial library. The shape type name
  arrives as an input string and the rows as a sequence of geometries.
- The random number generator. Its results are the fields of `FeatureDraw`.
  The order of the draws (two signs, then two magnitudes) is kept only as field
  order.
- Printing, timing, file paths and the command-line entry points.
- Floating-point rounding: coordinates and magnitudes are reals.
- Spatial reference, topology validity and the library's geometry classes.
  A Multipoint is modelled like the other multi-part kinds, as parts of points.
- Null geometries and multi-ring polygon parts: `Geometry` has no null case
  and `Part` has no ring separator. The code raises partway through the run on
  a feature with no geometry (`JitterFeatures.py:94`, `JitterPoints.py:31`,
  `JitterPoints_ogr.py:49`) and on the null separator the library yields
  between the rings of a polygon part (`point.X` at `JitterFeatures.py:29`).
  Rows before the failing one have already been written by then.
- Coordinates are two-dimensional. The code rebuilds each vertex from X and Y
  only (`JitterFeatures.py:29-30`, `JitterPoints.py:39-40`, `SetPoint_2D` at
  `JitterPoints_ogr.py:54`), so Z and M values are discarded; the model cannot
  show that loss.
- Rows whose geometry does not fit the class shape type: a feature class cannot
  hold them, so `JitterFeatures` requires every row to fit (`RowsConform`).
- `OgrPoints.JitterLayer` models point layers only: it takes one coordinate per
  feature. `JitterPoints_ogr.py` never checks the layer's geometry type and calls
  `GetX()`/`GetY()` on whatever geometry each feature holds; what the library
  returns for other geometry types is not part of this model.
- `ArcPoints.JitterPoint` models single-point features only. In `JitterPoints.py`
  a new draw is made for every part, and each part overwrites the feature's
  geometry, so for several parts only the last one survives.
- Mutation: the model is functional, so "the original geometry object is not
  modified" holds by construction and is not stated as a contract.

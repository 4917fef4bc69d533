# Stub detection models: feature encoding and synthetic detections

This project models the parts of the OSML stub model containers that compute
something:

- The GeoJSON feature record that every stub model returns for one detection.
  Both encoders are modelled: `detect_to_geojson_dict` and
  `detect_to_geojson_segmentation_dict`.
- The centerpoint model. It returns one box centred on the raster, with a
  half-extent of `bbox_percentage` times each dimension.
- The centerpoint segmentation model. It returns the same box plus a polygon:
  the vertices of a matplotlib `CirclePolygon`, scaled componentwise.
- The flood model. It returns `flood_volume` integer boxes of fixed size, each
  placed at random so that it stays inside the raster.

Modules: `ServerUtils` (server_utils.dfy), `Centerpoint` (centerpoint.dfy),
`CenterpointSegmentation` (centerpoint_segmentation.dfy) and `Flood` (flood.dfy).
There is one module per source file.

Modelling choices:

- Random values and tokens are inputs. The feature `id` and `image_id` come
  from `secrets.token_hex(16)`; here they are `Token` parameters (32 lower-case
  hex digits).
- The flood model's `random.randrange` calls read an injected function
  `entropy: nat -> nat`. Call `k` returns `lo + entropy(k) % (hi - lo)`. Every
  value of the range is reachable (`Flood.RandRangeReachesEveryValue`). An
  empty range gives `ValueError`, modelled as `Err(EmptyRange(lo, hi))`.
- The flood model's tokens come from `tokens: nat -> Token`.
- The matplotlib vertex list of the segmentation model is an input
  (`circlePath`).
- Python floats are modelled as exact `real` numbers. No claim is made about
  IEEE rounding. `math.ceil` is `Flood.Ceil`.
- Python's default arguments `detection_score=1.0` and
  `detection_type="sample_object"` are Dafny default parameter values.
- Raster dimensions are `nat` in every module. They come from GDAL's
  `RasterXSize` and `RasterYSize`, which are never negative.
- A dictionary key that is absent (`polygon_imcoords` in the plain encoder) is
  `None` in the `polygonImcoords` field.

Facts about the code that the model keeps:

- Flood features carry the encoder's default score 1.0: `gen_flood_detects`
  calls `detect_to_geojson_dict` with the box alone (src/aws/osml/models/flood/app.py:43).
- `FLOOD_VOLUME` defaults to 100 (src/aws/osml/models/flood/app.py:18).
- The scaling comprehension of the segmentation model appends no closing
  vertex. Whether the polygon is closed depends on the matplotlib path it is
  given; the model treats that path as opaque.
- The segmentation polygon is not translated to the box centre. This is
  recorded under Findings.

## Model

| member | source | states |
|---|---|---|
| ServerUtils.DetectToGeojsonDict | src/aws/osml/models/server_utils.py:83-106 | The result is a "Feature" at the placeholder `Point [0.0, 0.0]`. `bounds_imcoords` is the input box unchanged. `feature_types` is the single entry `{detection_type: score}`, and the score equals `detection_score`. There is no `polygon_imcoords`. `id` and `image_id` are the two tokens. |
| ServerUtils.DetectToGeojsonSegmentationDict | src/aws/osml/models/server_utils.py:109-135 | Same shape as the plain record, with `polygon_imcoords` equal to the input polygon, unchanged. |
| ServerUtils.DefaultsApplied | src/aws/osml/models/server_utils.py:84 | Called without score and class, the record has score 1.0 and `feature_types == {"sample_object": 1.0}`. |
| ServerUtils.DetectToGeojsonDictInjective | src/aws/osml/models/server_utils.py:96-106 | With the same tokens, two records are equal if and only if box, score and class are equal. The encoding loses nothing. |
| ServerUtils.TokensChangeOnlyTokens | src/aws/osml/models/server_utils.py:96-106 | `id` and `image_id` depend on no input. Other tokens change those two members and nothing else. |
| ServerUtils.SegmentationExtendsPlain | src/aws/osml/models/server_utils.py:124-135 | With the same tokens, the segmentation record is the plain record with `polygon_imcoords` set to the input polygon. |
| ServerUtils.PolygonOnlyFromSegmentation | src/aws/osml/models/server_utils.py:99-104 | The plain encoder's record always differs from the segmentation encoder's: only the latter carries a polygon. |
| Centerpoint.CenterBox | src/aws/osml/models/centerpoint/app.py:26-33 | The box has four coordinates. Its midpoint is `(w/2, h/2)`. Its width is `2*w*p` and its height `2*h*p`, so the percentage is a half-extent. |
| Centerpoint.CenterBoxUnique | src/aws/osml/models/centerpoint/app.py:26-33 | Any four coordinates with that midpoint and those extents equal `CenterBox`, so it is `[w/2 - w*p, h/2 - h*p, w/2 + w*p, h/2 + h*p]`. |
| Centerpoint.CenterBoxOrdered | src/aws/osml/models/centerpoint/app.py:28-33 | On a raster with positive width and height, `x_min <= x_max` and `y_min <= y_max` hold if and only if `p >= 0`. |
| Centerpoint.CenterBoxWithinRaster | src/aws/osml/models/centerpoint/app.py:26-33 | For `0 <= p <= 1/2`, the box lies within `[0, w] x [0, h]`. |
| Centerpoint.CenterBoxExample | src/aws/osml/models/centerpoint/app.py:26-33 | `w=1000, h=800, p=0.1` gives `[400, 320, 600, 480]`. |
| Centerpoint.GenCenterPointDetect | src/aws/osml/models/centerpoint/app.py:17-35 | The result is a plain feature: box `CenterBox(w, h, p)`, score 1.0, class "sample_object", no polygon. |
| Centerpoint.GenCenterPointDetectDeterministic | src/aws/osml/models/centerpoint/app.py:26-35 | Identical `(w, h, p)` give features that differ only in `id` and `image_id`. |
| CenterpointSegmentation.ScalePolygon | src/aws/osml/models/centerpoint-segmentation/app.py:52-53 | Same length and order as the input path. Vertex `i` is `(x_i * sx, y_i * sy)`. No vertex is added or dropped, so no closing vertex is appended. |
| CenterpointSegmentation.ScalePolygonInverse | src/aws/osml/models/centerpoint-segmentation/app.py:52-53 | Scaling by non-zero factors and then by their reciprocals gives back the input path. |
| CenterpointSegmentation.GenCenterPointAndPolygonDetect | src/aws/osml/models/centerpoint-segmentation/app.py:20-55 | The box is the centerpoint box. `polygon_imcoords` has one vertex per path vertex, equal to `(x*p*w, y*p*h)`, with no translation. The feature is a segmentation feature with score 1.0 and class "sample_object". |
| CenterpointSegmentation.SegmentationMatchesCenterpoint | src/aws/osml/models/centerpoint-segmentation/app.py:29-55 | With the same tokens, the result is the centerpoint model's feature with the polygon added. |
| CenterpointSegmentation.PolygonMissesBox | src/aws/osml/models/centerpoint-segmentation/app.py:44-55 | As written: for a unit path, `w > 0` and `0 < p < 1/4`, every polygon vertex lies strictly left of `x_min`. |
| CenterpointSegmentation.PolygonMissesBoxExample | src/aws/osml/models/centerpoint-segmentation/app.py:44-55 | On 1000 x 800 at 10%, the unit vertex (0, 1) becomes (0, 80), while the box is `[400, 320, 600, 480]`. |
| CenterpointSegmentation.CenteredPolygonWithinBox | src/aws/osml/models/centerpoint-segmentation/app.py:38-53 | Corrected: after the scaling, the path is moved to the box centre. For `p >= 0` and a unit path, every vertex lies inside the box. |
| CenterpointSegmentation.CenteredPolygon | src/aws/osml/models/centerpoint-segmentation/app.py:44-53 | Corrected polygon: vertex `i` is `(x_i*p*w + w/2, y_i*p*h + h/2)`, one per path vertex, in order. |
| CenterpointSegmentation.GenCenterPointAndPolygonDetectCentered | src/aws/osml/models/centerpoint-segmentation/app.py:20-55 | Corrected generator: the same box as the model, score 1.0 and class "sample_object". `polygon_imcoords` is `CenteredPolygon`, and each of its vertices lies inside the box. |
| Flood.Ceil | src/aws/osml/models/flood/app.py:34 | `math.ceil`: `c - 1 < x <= c`. |
| Flood.CeilUnique | src/aws/osml/models/flood/app.py:34 | `Ceil` is the only integer with that property. |
| Flood.RandRange | src/aws/osml/models/flood/app.py:35-36 | Returns a value in `[lo, hi)` exactly when `lo < hi`. Otherwise returns `ValueError` for that range. |
| Flood.RandRangeReachesEveryValue | src/aws/osml/models/flood/app.py:35-36 | Every value of a non-empty range is drawn for some raw value. |
| Flood.FloodBox | src/aws/osml/models/flood/app.py:34-42 | Box `i` has `x_min, y_min >= 0`, `x_max <= width-1` and `y_max <= height-1`. It has width exactly `2*sx` and height exactly `2*sy`, with `sx = ceil(width*p)` and `sy = ceil(height*p)`, the same for every box. For `p >= 0` the box is ordered and lies within `[0, width-1] x [0, height-1]`. |
| Flood.FloodDetects | src/aws/osml/models/flood/app.py:21-45 | Reference function of `gen_flood_detects`. An error is the `ValueError` of the first empty range, in draw order: the x range `[sx, width-sx)` if it is empty, otherwise the y range `[sy, height-sy)`. |
| Flood.FloodDetectsOutcome | src/aws/osml/models/flood/app.py:33-45 | A volume `<= 0` gives `[]`. Otherwise the result is `ValueError` if and only if `width <= 2*sx` or `height <= 2*sy`. Any other result has exactly `flood_volume` features. |
| Flood.FloodDetectsInRaster | src/aws/osml/models/flood/app.py:22-43 | Every box has its corners in the raster, with width exactly `2*sx` and height exactly `2*sy`. For `p >= 0` every box lies inside the raster, as the docstring promises. Each is a plain feature with score 1.0, class "sample_object" and no polygon. |
| Flood.FloodDetectsDrawOrder | src/aws/osml/models/flood/app.py:33-43 | Feature `k` is centred on draw pair `k`: its x midpoint is draw `2k` and its y midpoint is draw `2k+1`. |
| Flood.FloodDetectsUsesFirstDraws | src/aws/osml/models/flood/app.py:33-36 | Only the first `2*flood_volume` draws matter. Random sources that agree on them give the same result. |
| Flood.GenFloodDetects | src/aws/osml/models/flood/app.py:21-45 | The loop's result equals `FloodDetects`. It raises `ValueError` if and only if the volume is positive and a range is empty. Otherwise it has exactly `max(flood_volume, 0)` features. Every box has its corners in the raster, and for `p >= 0` it lies inside the raster. |
| Flood.FloodPredictAsWritten | src/aws/osml/models/flood/app.py:80-87 | The call as written, with the dimensions swapped. Every box has its corners in the transposed raster, with x within `[0, rasterHeight-1]` and y within `[0, rasterWidth-1]`. For `p >= 0` the box lies inside the transposed raster. |
| Flood.FloodPredictAsWrittenLeavesRaster | src/aws/osml/models/flood/app.py:80-87 | As written, the call swaps the dimensions. A 1000 x 500 raster at the defaults can get the box `[399, 799, 499, 999]`, which is outside the raster. |
| Flood.FloodPredict | src/aws/osml/models/flood/app.py:21-87 | Corrected call with the dimensions in declared order. Every box has its corners in the real raster, and for `p >= 0` it lies inside it. |
| Flood.FloodDetectsNegativePercentage | src/aws/osml/models/flood/app.py:33-42 | A negative percentage inverts the box. On a 100 x 100 raster at `p = -0.1` with draw 109, the box is `[119, 119, 99, 99]`: its corners are in the raster, but it is not ordered and `x_min = 119` lies outside. |

## Findings

| source | as written | input that shows it | evidently intended | confidence | as-written member | corrected member |
|---|---|---|---|---|---|---|
| src/aws/osml/models/flood/app.py:87 | `gen_flood_detects(FLOOD_VOLUME, width, height, BBOX_PERCENTAGE)` against the signature `(flood_volume, height, width, bbox_percentage)` at line 21. The raster width bounds the y coordinates and the raster height bounds the x coordinates. | Raster 1000 wide and 500 high, `p = 0.1`, volume 100, all raw draws 799. Feature 0 gets box `[399, 799, 499, 999]`, and `y_max = 999` is beyond the last row 499. | Pass the dimensions in the declared order, so that for `p >= 0` every box stays inside the raster as the docstring promises. | high (square rasters hide it); not executed | Flood.FloodPredictAsWrittenLeavesRaster | Flood.FloodPredict |
| src/aws/osml/models/centerpoint-segmentation/app.py:47-53 | The `CirclePolygon` path is in unit coordinates, as the comment at line 51 says. It is scaled by `(p*w, p*h)` and never translated, so the polygon is centred at (0, 0) and not on the box. | `w = 1000, h = 800, p = 0.1`. The unit hexagon's vertex (0, 1) becomes (0, 80), while the box is `[400, 320, 600, 480]`. | Move the scaled polygon to the raster centre `(w/2, h/2)`, so that it lies inside its box. | medium (relies on matplotlib's `get_path` returning the unit polygon); not executed | CenterpointSegmentation.PolygonMissesBox | CenterpointSegmentation.CenteredPolygonWithinBox |

## Left out

- HTTP and process plumbing are not modelled: the Flask routes `healthcheck` and `predict` (except the one flood call at src/aws/osml/models/flood/app.py:87, modelled as written by `Flood.FloodPredictAsWritten` and in corrected form by `Flood.FloodPredict`), `setup_server`, `configure_logging`, Waitress and `json.dumps`.
- `load_image` is not modelled. It wraps GDAL's in-memory file system, a foreign library, and its only contract is "dataset or None".
- The aircraft model (src/aws/osml/models/aircraft/app.py) is not modelled. It runs detectron2, torch, cv2 and GDAL, and its helpers `detect_to_geojson` and `mask_to_polygon` are not part of this model.
- Vertex generation inside matplotlib's `CirclePolygon` is floating-point trigonometry and is not modelled. The vertex list is an input.
- Exact float results are not claimed. All arithmetic is over `real`. In the flood model the float product is rounded before `math.ceil`, so the integer half-size itself can differ by one from `Flood.HalfSize`. For example, with `BBOX_PERCENTAGE=0.07` and width 100, Python computes `100*0.07 == 7.000000000000001` and `ceil` gives 8, while the model gives 7. The default 0.1 with integer dimensions is not affected.
- The randomness of `token_hex` and `randrange` is not modelled. Both are injected.
- Reading the environment (`BBOX_PERCENTAGE`, `FLOOD_VOLUME`, `NUM_VERTICES`) is not modelled. The defaults are constants, and the values are parameters. `NUM_VERTICES` is never used by the code: the resolution passed to `CirclePolygon` is fixed at 6, and the path that results is an input of the model.
- Flood.FloodDetectsInRaster: like `Flood.FloodBox`, `Flood.GenFloodDetects`, `Flood.FloodPredict` and `Flood.FloodPredictAsWritten`, it promises containment in the raster only for `BBOX_PERCENTAGE >= 0`. The code does not reject a negative percentage, which gives inverted boxes that can leave the raster (`Flood.FloodDetectsNegativePercentage`). For every percentage it promises only that the corners are in the raster and the extents are exact.
- Passing `None` explicitly as the score or class is not modelled. No caller does it.
- The order of keys in the dictionaries is not modelled. Only their contents are.

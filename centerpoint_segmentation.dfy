/**
 * The centerpoint segmentation stub model
 * (src/aws/osml/models/centerpoint-segmentation/app.py): the centerpoint box
 * plus a polygon obtained by scaling the vertex list of a matplotlib
 * `CirclePolygon` componentwise by `bbox_percentage` times the raster size.
 *
 * The vertex list itself (trigonometry on floats inside matplotlib) is an input
 * here: `circlePath` stands for `CirclePolygon(center, radius,
 * resolution=6).get_path().vertices`, a path in unit coordinates. The resolution
 * is fixed in the code; the NUM_VERTICES setting is read but never used.
 */
module CenterpointSegmentation {
  import opened ServerUtils
  import Centerpoint

  type Vertex = (real, real)

  /** Every vertex lies in [-1, 1] x [-1, 1], as the vertices of a unit circle polygon do. */
  predicate InUnitSquare(path: seq<Vertex>) {
    forall i :: 0 <= i < |path| ==> -1.0 <= path[i].0 <= 1.0 && -1.0 <= path[i].1 <= 1.0
  }

  /**
   * The list comprehension of the model: each vertex `(x, y)` becomes
   * `(x * scaleX, y * scaleY)`, in the same order, with nothing added or dropped.
   */
  function ScalePolygon(path: seq<Vertex>, scaleX: real, scaleY: real): (r: seq<Vertex>)
    ensures |r| == |path|
    ensures forall i :: 0 <= i < |path| ==> r[i].0 == path[i].0 * scaleX && r[i].1 == path[i].1 * scaleY
  {
    seq(|path|, i requires 0 <= i < |path| => (path[i].0 * scaleX, path[i].1 * scaleY))
  }

  /** Scaling by non-zero factors loses nothing: scaling back by the reciprocals gives the path again. */
  lemma ScalePolygonInverse(path: seq<Vertex>, scaleX: real, scaleY: real)
    requires scaleX != 0.0 && scaleY != 0.0
    ensures ScalePolygon(ScalePolygon(path, scaleX, scaleY), 1.0 / scaleX, 1.0 / scaleY) == path
  {
    var r := ScalePolygon(ScalePolygon(path, scaleX, scaleY), 1.0 / scaleX, 1.0 / scaleY);
    forall i | 0 <= i < |path| ensures r[i] == path[i] {
      var (x, y) := path[i];
      assert x * scaleX * (1.0 / scaleX) == x * (scaleX * (1.0 / scaleX)) == x;
      assert y * scaleY * (1.0 / scaleY) == y * (scaleY * (1.0 / scaleY)) == y;
      assert r[i].0 == x && r[i].1 == y;
    }
  }

  /**
   * `gen_center_point_and_polygon_detect`: the same box as the centerpoint
   * model and, as `polygon_imcoords`, the circle path scaled by
   * `(bboxPercentage * width, bboxPercentage * height)`, with no translation,
   * encoded with the default score and class.
   */
  function GenCenterPointAndPolygonDetect(id: Token, imageId: Token, width: nat, height: nat,
                                          bboxPercentage: real, circlePath: seq<Vertex>): (f: Feature<real>)
    ensures IsDetectionFeature(f, "sample_object")
    ensures f.properties.boundsImcoords == Centerpoint.CenterBox(width, height, bboxPercentage)
    ensures f.properties.polygonImcoords.Some?
    ensures var poly := f.properties.polygonImcoords.value;
            && |poly| == |circlePath|
            && forall i :: 0 <= i < |poly| ==>
                 && poly[i].0 == circlePath[i].0 * (bboxPercentage * width as real)
                 && poly[i].1 == circlePath[i].1 * (bboxPercentage * height as real)
    ensures f.properties.detectionScore == 1.0
  {
    var bbox := Centerpoint.CenterBox(width, height, bboxPercentage);
    var polyScale := (bboxPercentage * width as real, bboxPercentage * height as real);
    DetectToGeojsonSegmentationDict(id, imageId, bbox, ScalePolygon(circlePath, polyScale.0, polyScale.1))
  }

  /**
   * With the same tokens, the segmentation model's feature is the centerpoint
   * model's feature with the polygon added.
   */
  lemma SegmentationMatchesCenterpoint(id: Token, imageId: Token, width: nat, height: nat,
                                       bboxPercentage: real, circlePath: seq<Vertex>)
    ensures var plain := Centerpoint.GenCenterPointDetect(id, imageId, width, height, bboxPercentage);
            var f := GenCenterPointAndPolygonDetect(id, imageId, width, height, bboxPercentage, circlePath);
            f == plain.(properties := plain.properties.(polygonImcoords := f.properties.polygonImcoords))
  {
  }

  /**
   * As written, the scaled polygon is not moved to the box: for a unit path, a
   * positive raster width and a percentage below 1/4, every vertex lies strictly
   * to the left of `x_min`, so the polygon and its box do not meet.
   */
  lemma PolygonMissesBox(id: Token, imageId: Token, width: nat, height: nat,
                         bboxPercentage: real, circlePath: seq<Vertex>)
    requires width > 0 && 0.0 < bboxPercentage < 0.25
    requires InUnitSquare(circlePath)
    ensures var f := GenCenterPointAndPolygonDetect(id, imageId, width, height, bboxPercentage, circlePath);
            var poly := f.properties.polygonImcoords.value;
            forall i :: 0 <= i < |poly| ==> poly[i].0 < f.properties.boundsImcoords[0]
  {
    var f := GenCenterPointAndPolygonDetect(id, imageId, width, height, bboxPercentage, circlePath);
    var sx, sy := bboxPercentage * width as real, bboxPercentage * height as real;
    var xMin := width as real / 2.0 - width as real * bboxPercentage;
    assert f.properties.polygonImcoords.value == ScalePolygon(circlePath, sx, sy);
    assert f.properties.boundsImcoords[0] == xMin;
    QuarterScaleBelowHalf(width as real, bboxPercentage);
    ScaledPathLeftOf(circlePath, sx, sy, xMin);
  }

  /** Scaling a unit path by `0 <= scaleX < bound` leaves every x below `bound`. */
  lemma ScaledPathLeftOf(path: seq<Vertex>, scaleX: real, scaleY: real, bound: real)
    requires InUnitSquare(path) && 0.0 <= scaleX < bound
    ensures var poly := ScalePolygon(path, scaleX, scaleY);
            forall i :: 0 <= i < |poly| ==> poly[i].0 < bound
  {
    var poly := ScalePolygon(path, scaleX, scaleY);
    forall i | 0 <= i < |poly| ensures poly[i].0 < bound {
      ScaledAtMost(path[i].0, scaleX);
    }
  }

  /** `x * s <= s` for `x <= 1` and a non-negative `s`. */
  lemma ScaledAtMost(x: real, s: real)
    requires x <= 1.0 && s >= 0.0
    ensures x * s <= s
  {
    assert (1.0 - x) * s >= 0.0;
  }

  /** A scale below a quarter of a positive length leaves its half-extent short of the midpoint. */
  lemma QuarterScaleBelowHalf(len: real, scale: real)
    requires len > 0.0 && 0.0 < scale < 0.25
    ensures 0.0 < scale * len && scale * len < len / 2.0 - len * scale
  {
    assert (0.25 - scale) * len > 0.0;
  }

  /**
   * A concrete case: on a 1000 x 800 raster at 10%, the top vertex (0, 1) of
   * the unit hexagon becomes (0, 80), far from the box [400, 320, 600, 480].
   */
  lemma PolygonMissesBoxExample(id: Token, imageId: Token)
    ensures var f := GenCenterPointAndPolygonDetect(id, imageId, 1000, 800, 0.1, [(0.0, 1.0)]);
            && f.properties.boundsImcoords == [400.0, 320.0, 600.0, 480.0]
            && f.properties.polygonImcoords == Some([(0.0, 80.0)])
  {
    Centerpoint.CenterBoxExample();
    var poly := GenCenterPointAndPolygonDetect(id, imageId, 1000, 800, 0.1, [(0.0, 1.0)]).properties.polygonImcoords.value;
    assert poly[0].0 == 0.0 && poly[0].1 == 80.0;
    assert poly == [(0.0, 80.0)];
  }

  /** Moves every vertex by `(dx, dy)`. */
  function TranslatePolygon(path: seq<Vertex>, dx: real, dy: real): (r: seq<Vertex>)
    ensures |r| == |path|
    ensures forall i :: 0 <= i < |path| ==> r[i].0 == path[i].0 + dx && r[i].1 == path[i].1 + dy
  {
    seq(|path|, i requires 0 <= i < |path| => (path[i].0 + dx, path[i].1 + dy))
  }

  /**
   * The polygon the model evidently intends: the unit path scaled by the box's
   * half-extents and then moved to the raster centre, where the box is centred.
   */
  function CenteredPolygon(width: nat, height: nat, bboxPercentage: real, circlePath: seq<Vertex>): (r: seq<Vertex>)
    ensures |r| == |circlePath|
    ensures forall i :: 0 <= i < |circlePath| ==>
              && r[i].0 == circlePath[i].0 * (bboxPercentage * width as real) + width as real / 2.0
              && r[i].1 == circlePath[i].1 * (bboxPercentage * height as real) + height as real / 2.0
  {
    TranslatePolygon(ScalePolygon(circlePath, bboxPercentage * width as real, bboxPercentage * height as real),
                     width as real / 2.0, height as real / 2.0)
  }

  /**
   * For a non-negative percentage and a unit path, every vertex of the centred
   * polygon lies inside the centerpoint box.
   */
  lemma CenteredPolygonWithinBox(width: nat, height: nat, bboxPercentage: real, circlePath: seq<Vertex>)
    requires bboxPercentage >= 0.0
    requires InUnitSquare(circlePath)
    ensures var b := Centerpoint.CenterBox(width, height, bboxPercentage);
            var poly := CenteredPolygon(width, height, bboxPercentage, circlePath);
            forall i :: 0 <= i < |poly| ==> b[0] <= poly[i].0 <= b[2] && b[1] <= poly[i].1 <= b[3]
  {
    var b := Centerpoint.CenterBox(width, height, bboxPercentage);
    var poly := CenteredPolygon(width, height, bboxPercentage, circlePath);
    var sx, sy := bboxPercentage * width as real, bboxPercentage * height as real;
    var cx, cy := width as real / 2.0, height as real / 2.0;
    assert b == [cx - sx, cy - sy, cx + sx, cy + sy];
    var scaled := ScalePolygon(circlePath, sx, sy);
    assert poly == TranslatePolygon(scaled, cx, cy);
    forall i | 0 <= i < |poly| ensures b[0] <= poly[i].0 <= b[2] && b[1] <= poly[i].1 <= b[3] {
      assert poly[i].0 == circlePath[i].0 * sx + cx && poly[i].1 == circlePath[i].1 * sy + cy;
      WithinHalfExtent(circlePath[i].0, sx, cx);
      WithinHalfExtent(circlePath[i].1, sy, cy);
    }
  }

  /** A unit offset scaled by a non-negative half-extent stays within that half-extent of the centre. */
  lemma WithinHalfExtent(x: real, s: real, c: real)
    requires -1.0 <= x <= 1.0 && s >= 0.0
    ensures c - s <= x * s + c <= c + s
  {
    assert (1.0 - x) * s >= 0.0 && (1.0 + x) * s >= 0.0;
  }

  /** The segmentation model with the polygon moved onto its box. */
  function GenCenterPointAndPolygonDetectCentered(id: Token, imageId: Token, width: nat, height: nat,
                                                  bboxPercentage: real, circlePath: seq<Vertex>): (f: Feature<real>)
    requires bboxPercentage >= 0.0 && InUnitSquare(circlePath)
    ensures IsDetectionFeature(f, "sample_object")
    ensures f.properties.boundsImcoords == Centerpoint.CenterBox(width, height, bboxPercentage)
    ensures f.properties.detectionScore == 1.0
    ensures f.properties.polygonImcoords == Some(CenteredPolygon(width, height, bboxPercentage, circlePath))
    ensures var b := f.properties.boundsImcoords;
            var poly := f.properties.polygonImcoords.value;
            && |poly| == |circlePath|
            && forall i :: 0 <= i < |poly| ==> b[0] <= poly[i].0 <= b[2] && b[1] <= poly[i].1 <= b[3]
  {
    CenteredPolygonWithinBox(width, height, bboxPercentage, circlePath);
    DetectToGeojsonSegmentationDict(id, imageId, Centerpoint.CenterBox(width, height, bboxPercentage),
                                    CenteredPolygon(width, height, bboxPercentage, circlePath))
  }
}

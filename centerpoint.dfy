/**
 * The centerpoint stub model (src/aws/osml/models/centerpoint/app.py): one
 * detection whose box is centred on the raster and whose half-extent along each
 * axis is `bbox_percentage` of that dimension.
 *
 * Python's float arithmetic is modelled by exact `real` arithmetic.
 */
module Centerpoint {
  import opened ServerUtils

  /** Default of the BBOX_PERCENTAGE environment setting. */
  const DefaultBboxPercentage: real := 0.1

  /** Midpoint of the interval [lo, hi]. */
  function Mid(lo: real, hi: real): real { (lo + hi) / 2.0 }

  /**
   * The box `[x_min, y_min, x_max, y_max]` of `gen_center_point_detect`: its
   * midpoint is the raster centre and its extent is twice `bboxPercentage`
   * times the dimension along each axis.
   */
  function CenterBox(width: nat, height: nat, bboxPercentage: real): (b: seq<real>)
    ensures |b| == 4
    ensures Mid(b[0], b[2]) == width as real / 2.0 && Mid(b[1], b[3]) == height as real / 2.0
    ensures b[2] - b[0] == 2.0 * (width as real * bboxPercentage)
    ensures b[3] - b[1] == 2.0 * (height as real * bboxPercentage)
  {
    var center := (width as real / 2.0, height as real / 2.0);
    var size := (width as real * bboxPercentage, height as real * bboxPercentage);
    [center.0 - size.0, center.1 - size.1, center.0 + size.0, center.1 + size.1]
  }

  /**
   * The midpoint and the extents determine the box: any four coordinates with
   * the raster centre as midpoint and the extents above are `CenterBox`.
   */
  lemma CenterBoxUnique(width: nat, height: nat, bboxPercentage: real, b: seq<real>)
    requires |b| == 4
    requires Mid(b[0], b[2]) == width as real / 2.0 && Mid(b[1], b[3]) == height as real / 2.0
    requires b[2] - b[0] == 2.0 * (width as real * bboxPercentage)
    requires b[3] - b[1] == 2.0 * (height as real * bboxPercentage)
    ensures b == CenterBox(width, height, bboxPercentage)
  {
    var c := CenterBox(width, height, bboxPercentage);
    assert b[0] == c[0] && b[1] == c[1] && b[2] == c[2] && b[3] == c[3];
  }

  /**
   * On a raster with positive width and height the box is well ordered
   * (`x_min <= x_max`, `y_min <= y_max`) exactly when the percentage is not negative.
   */
  lemma CenterBoxOrdered(width: nat, height: nat, bboxPercentage: real)
    requires width > 0 && height > 0
    ensures var b := CenterBox(width, height, bboxPercentage);
            b[0] <= b[2] && b[1] <= b[3] <==> bboxPercentage >= 0.0
  {
    var b := CenterBox(width, height, bboxPercentage);
    if bboxPercentage < 0.0 {
      assert width as real * bboxPercentage < 0.0;
    } else {
      assert width as real * bboxPercentage >= 0.0;
      assert height as real * bboxPercentage >= 0.0;
    }
  }

  /** With a percentage in [0, 1/2] the box lies within [0, width] x [0, height]. */
  lemma CenterBoxWithinRaster(width: nat, height: nat, bboxPercentage: real)
    requires 0.0 <= bboxPercentage <= 0.5
    ensures var b := CenterBox(width, height, bboxPercentage);
            0.0 <= b[0] && b[2] <= width as real && 0.0 <= b[1] && b[3] <= height as real
  {
    assert width as real * bboxPercentage <= width as real * 0.5;
    assert height as real * bboxPercentage <= height as real * 0.5;
  }

  /** A 1000 x 800 raster at the default 10% gives the box [400, 320, 600, 480]. */
  lemma CenterBoxExample()
    ensures CenterBox(1000, 800, DefaultBboxPercentage) == [400.0, 320.0, 600.0, 480.0]
  {
  }

  /**
   * `gen_center_point_detect`: the centred box, encoded as a plain feature with
   * the default score and class. `id` and `imageId` stand for the two tokens the
   * encoder draws.
   */
  function GenCenterPointDetect(id: Token, imageId: Token, width: nat, height: nat, bboxPercentage: real): (f: Feature<real>)
    ensures IsDetectionFeature(f, "sample_object")
    ensures f.properties.boundsImcoords == CenterBox(width, height, bboxPercentage)
    ensures f.properties.detectionScore == 1.0
    ensures f.properties.polygonImcoords == None
  {
    DetectToGeojsonDict(id, imageId, CenterBox(width, height, bboxPercentage))
  }

  /**
   * The model is deterministic apart from the two tokens: calls with the same
   * raster size and percentage give features that differ in `id` and `image_id` only.
   */
  lemma GenCenterPointDetectDeterministic(id1: Token, imageId1: Token, id2: Token, imageId2: Token,
                                          width: nat, height: nat, bboxPercentage: real)
    ensures var f1 := GenCenterPointDetect(id1, imageId1, width, height, bboxPercentage);
            f1.(id := id2, properties := f1.properties.(imageId := imageId2))
            == GenCenterPointDetect(id2, imageId2, width, height, bboxPercentage)
  {
    TokensChangeOnlyTokens(id1, imageId1, id2, imageId2, CenterBox(width, height, bboxPercentage),
                           DefaultScore, DefaultDetectionType);
  }
}

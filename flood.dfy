/**
 * The flood stub model (src/aws/osml/models/flood/app.py): `flood_volume`
 * fixed-size integer boxes placed at random inside the raster.
 *
 * The process-wide random source is injected: `entropy(k)` is the raw value
 * behind the k-th `randrange` call, and `tokens(k)` is the k-th `token_hex(16)`
 * result. Any value a `randrange` call can return is reachable through some
 * raw value (`RandRangeReachesEveryValue`).
 */
module Flood {
  import opened ServerUtils

  /** Defaults of the BBOX_PERCENTAGE and FLOOD_VOLUME environment settings. */
  const DefaultBboxPercentage: real := 0.1
  const DefaultFloodVolume: int := 100

  /** The `ValueError` that `random.randrange(lo, hi)` raises when `lo >= hi`. */
  datatype RandError = EmptyRange(lo: int, hi: int)

  datatype Result<+T> = Ok(value: T) | Err(error: RandError)

  /** Python's `math.ceil`: the least integer not below `x`. */
  function Ceil(x: real): (c: int)
    ensures c as real - 1.0 < x <= c as real
  {
    -((-x).Floor)
  }

  /** `Ceil` is the only integer with that property. */
  lemma CeilUnique(x: real, c: int)
    requires c as real - 1.0 < x <= c as real
    ensures c == Ceil(x)
  {
    var d := Ceil(x);
    assert c as real - 1.0 < d as real && d as real - 1.0 < c as real;
  }

  /** `random.randrange(lo, hi)` on the raw value `raw`: a value of [lo, hi), or `ValueError` if that is empty. */
  function RandRange(lo: int, hi: int, raw: nat): (r: Result<int>)
    ensures r.Ok? <==> lo < hi
    ensures r.Ok? ==> lo <= r.value < hi
    ensures r.Err? ==> r.error == EmptyRange(lo, hi)
  {
    if lo < hi then Ok(lo + raw % (hi - lo)) else Err(EmptyRange(lo, hi))
  }

  /** Every value of a non-empty range is drawn by some raw value. */
  lemma RandRangeReachesEveryValue(lo: int, hi: int, v: int)
    requires lo <= v < hi
    ensures RandRange(lo, hi, v - lo) == Ok(v)
  {
  }

  /** The half-size `ceil(dimension * bbox_percentage)` of a flood box along one axis. */
  function HalfSize(dimension: nat, bboxPercentage: real): int {
    Ceil(dimension as real * bboxPercentage)
  }

  /** Both `randrange` calls of an iteration have a non-empty range. */
  predicate CanDraw(height: nat, width: nat, bboxPercentage: real) {
    width - HalfSize(width, bboxPercentage) > HalfSize(width, bboxPercentage) &&
    height - HalfSize(height, bboxPercentage) > HalfSize(height, bboxPercentage)
  }

  /**
   * The box `[x_min, y_min, x_max, y_max]` has its minimum corner at or after
   * (0, 0) and its maximum corner at or before (width-1, height-1). The corners
   * need not be ordered, so an inverted box can satisfy this and still leave
   * the raster.
   */
  predicate CornersInRaster(b: seq<int>, width: nat, height: nat) {
    |b| == 4 && 0 <= b[0] && b[2] <= width - 1 && 0 <= b[1] && b[3] <= height - 1
  }

  /** The box `[x_min, y_min, x_max, y_max]` lies within [0, width-1] x [0, height-1]. */
  predicate BoxInRaster(b: seq<int>, width: nat, height: nat) {
    |b| == 4 && 0 <= b[0] <= b[2] <= width - 1 && 0 <= b[1] <= b[3] <= height - 1
  }

  /**
   * The box of feature `i`: its centre comes from the draws `2i` (x) and
   * `2i + 1` (y). Its corners are in the raster and it measures exactly twice
   * the half-sizes along each axis. With a percentage that is not negative it
   * lies inside the raster. A negative percentage makes the half-sizes negative
   * and the box inverted (`FloodDetectsNegativePercentage`).
   */
  function FloodBox(i: nat, height: nat, width: nat, bboxPercentage: real, entropy: nat -> nat): (b: seq<int>)
    requires CanDraw(height, width, bboxPercentage)
    ensures CornersInRaster(b, width, height)
    ensures b[2] - b[0] == 2 * HalfSize(width, bboxPercentage)
    ensures b[3] - b[1] == 2 * HalfSize(height, bboxPercentage)
    ensures bboxPercentage >= 0.0 ==> BoxInRaster(b, width, height)
  {
    assert bboxPercentage >= 0.0 ==> width as real * bboxPercentage >= 0.0 && height as real * bboxPercentage >= 0.0;
    var sx, sy := HalfSize(width, bboxPercentage), HalfSize(height, bboxPercentage);
    var genX := RandRange(sx, width - sx, entropy(2 * i)).value;
    var genY := RandRange(sy, height - sy, entropy(2 * i + 1)).value;
    [genX - sx, genY - sy, genX + sx, genY + sy]
  }

  /** Feature `i`: its box, with the token draws `2i` (id) and `2i + 1` (image id). */
  function FloodFeature(i: nat, height: nat, width: nat, bboxPercentage: real,
                        entropy: nat -> nat, tokens: nat -> Token): (f: Feature<int>)
    requires CanDraw(height, width, bboxPercentage)
  {
    DetectToGeojsonDict(tokens(2 * i), tokens(2 * i + 1), FloodBox(i, height, width, bboxPercentage, entropy))
  }

  /**
   * What `gen_flood_detects` returns: no features when the volume is not
   * positive; otherwise the `ValueError` of the first draw whose range is empty,
   * or `floodVolume` features in draw order.
   */
  function FloodDetects(floodVolume: int, height: nat, width: nat, bboxPercentage: real,
                        entropy: nat -> nat, tokens: nat -> Token): (r: Result<seq<Feature<int>>>)
    ensures r.Err? ==>
              var sx, sy := HalfSize(width, bboxPercentage), HalfSize(height, bboxPercentage);
              if width <= 2 * sx then r.error == EmptyRange(sx, width - sx)
              else height <= 2 * sy && r.error == EmptyRange(sy, height - sy)
  {
    var sx, sy := HalfSize(width, bboxPercentage), HalfSize(height, bboxPercentage);
    if floodVolume <= 0 then Ok([])
    else if width - sx <= sx then Err(EmptyRange(sx, width - sx))
    else if height - sy <= sy then Err(EmptyRange(sy, height - sy))
    else Ok(seq(floodVolume, i requires 0 <= i < floodVolume =>
                  FloodFeature(i, height, width, bboxPercentage, entropy, tokens)))
  }

  /**
   * The volume decides the count: no features and no draws for a volume that is
   * not positive; otherwise a `ValueError` exactly when a range is empty, and
   * else exactly `floodVolume` features.
   */
  lemma FloodDetectsOutcome(floodVolume: int, height: nat, width: nat, bboxPercentage: real,
                            entropy: nat -> nat, tokens: nat -> Token)
    ensures var r := FloodDetects(floodVolume, height, width, bboxPercentage, entropy, tokens);
            && (floodVolume <= 0 ==> r == Ok([]))
            && (r.Err? <==> floodVolume > 0 && !CanDraw(height, width, bboxPercentage))
            && (r.Ok? ==> |r.value| == if floodVolume <= 0 then 0 else floodVolume)
  {
  }

  /**
   * Every generated box has its corners in the raster and measures twice the
   * half-sizes. With a percentage that is not negative it lies inside the
   * raster, as the docstring of `gen_flood_detects` promises. Every feature
   * carries the default score and class and no polygon.
   */
  lemma FloodDetectsInRaster(floodVolume: int, height: nat, width: nat, bboxPercentage: real,
                             entropy: nat -> nat, tokens: nat -> Token)
    ensures var r := FloodDetects(floodVolume, height, width, bboxPercentage, entropy, tokens);
            r.Ok? ==> forall k :: 0 <= k < |r.value| ==>
                        && CornersInRaster(r.value[k].properties.boundsImcoords, width, height)
                        && (bboxPercentage >= 0.0 ==> BoxInRaster(r.value[k].properties.boundsImcoords, width, height))
                        && r.value[k].properties.boundsImcoords[2] - r.value[k].properties.boundsImcoords[0]
                           == 2 * HalfSize(width, bboxPercentage)
                        && r.value[k].properties.boundsImcoords[3] - r.value[k].properties.boundsImcoords[1]
                           == 2 * HalfSize(height, bboxPercentage)
                        && IsDetectionFeature(r.value[k], "sample_object")
                        && r.value[k].properties.detectionScore == 1.0
                        && r.value[k].properties.polygonImcoords == None
  {
    var r := FloodDetects(floodVolume, height, width, bboxPercentage, entropy, tokens);
    if r.Ok? && floodVolume > 0 {
      forall k | 0 <= k < |r.value|
        ensures CornersInRaster(r.value[k].properties.boundsImcoords, width, height)
        ensures bboxPercentage >= 0.0 ==> BoxInRaster(r.value[k].properties.boundsImcoords, width, height)
        ensures r.value[k].properties.boundsImcoords[2] - r.value[k].properties.boundsImcoords[0]
                == 2 * HalfSize(width, bboxPercentage)
        ensures r.value[k].properties.boundsImcoords[3] - r.value[k].properties.boundsImcoords[1]
                == 2 * HalfSize(height, bboxPercentage)
        ensures IsDetectionFeature(r.value[k], "sample_object")
        ensures r.value[k].properties.detectionScore == 1.0
        ensures r.value[k].properties.polygonImcoords == None
      {
        assert r.value[k] == FloodFeature(k, height, width, bboxPercentage, entropy, tokens);
      }
    }
  }

  /**
   * Feature `k` is centred on the `k`-th pair of draws: its x midpoint is the
   * value of draw `2k` and its y midpoint that of draw `2k + 1`.
   */
  lemma FloodDetectsDrawOrder(floodVolume: int, height: nat, width: nat, bboxPercentage: real,
                              entropy: nat -> nat, tokens: nat -> Token, k: nat)
    requires FloodDetects(floodVolume, height, width, bboxPercentage, entropy, tokens).Ok?
    requires k < |FloodDetects(floodVolume, height, width, bboxPercentage, entropy, tokens).value|
    ensures var b := FloodDetects(floodVolume, height, width, bboxPercentage, entropy, tokens).value[k].properties.boundsImcoords;
            var sx, sy := HalfSize(width, bboxPercentage), HalfSize(height, bboxPercentage);
            && RandRange(sx, width - sx, entropy(2 * k)) == Ok((b[0] + b[2]) / 2)
            && RandRange(sy, height - sy, entropy(2 * k + 1)) == Ok((b[1] + b[3]) / 2)
  {
    var r := FloodDetects(floodVolume, height, width, bboxPercentage, entropy, tokens);
    assert r.value[k] == FloodFeature(k, height, width, bboxPercentage, entropy, tokens);
  }

  /**
   * Only the first `2 * floodVolume` draws are used: random sources that agree
   * on them give the same result.
   */
  lemma FloodDetectsUsesFirstDraws(floodVolume: int, height: nat, width: nat, bboxPercentage: real,
                                   entropy1: nat -> nat, entropy2: nat -> nat, tokens: nat -> Token)
    requires forall k: nat :: k < 2 * floodVolume ==> entropy1(k) == entropy2(k)
    ensures FloodDetects(floodVolume, height, width, bboxPercentage, entropy1, tokens)
            == FloodDetects(floodVolume, height, width, bboxPercentage, entropy2, tokens)
  {
    var r1 := FloodDetects(floodVolume, height, width, bboxPercentage, entropy1, tokens);
    var r2 := FloodDetects(floodVolume, height, width, bboxPercentage, entropy2, tokens);
    if r1.Ok? && floodVolume > 0 {
      forall k | 0 <= k < floodVolume ensures r1.value[k] == r2.value[k] {
        assert entropy1(2 * k) == entropy2(2 * k) && entropy1(2 * k + 1) == entropy2(2 * k + 1);
        assert FloodBox(k, height, width, bboxPercentage, entropy1) == FloodBox(k, height, width, bboxPercentage, entropy2);
      }
      assert r1.value == r2.value;
    }
  }

  /**
   * `gen_flood_detects`: loops `flood_volume` times, drawing a centre and
   * appending the encoded box. A `ValueError` from `randrange` ends the loop
   * and no list is returned.
   */
  method GenFloodDetects(floodVolume: int, height: nat, width: nat, bboxPercentage: real,
                         entropy: nat -> nat, tokens: nat -> Token)
    returns (r: Result<seq<Feature<int>>>)
    ensures r == FloodDetects(floodVolume, height, width, bboxPercentage, entropy, tokens)
    ensures r.Err? <==> floodVolume > 0 && !CanDraw(height, width, bboxPercentage)
    ensures r.Ok? ==> |r.value| == if floodVolume <= 0 then 0 else floodVolume
    ensures r.Ok? ==> forall k :: 0 <= k < |r.value| ==>
                        && CornersInRaster(r.value[k].properties.boundsImcoords, width, height)
                        && (bboxPercentage >= 0.0 ==> BoxInRaster(r.value[k].properties.boundsImcoords, width, height))
  {
    FloodDetectsOutcome(floodVolume, height, width, bboxPercentage, entropy, tokens);
    FloodDetectsInRaster(floodVolume, height, width, bboxPercentage, entropy, tokens);
    var detects: seq<Feature<int>> := [];
    var i := 0;
    while i < floodVolume
      invariant 0 <= i && (i == 0 || i <= floodVolume)
      invariant i > 0 ==> CanDraw(height, width, bboxPercentage)
      invariant |detects| == i
      invariant forall k :: 0 <= k < i ==> detects[k] == FloodFeature(k, height, width, bboxPercentage, entropy, tokens)
    {
      var sx, sy := HalfSize(width, bboxPercentage), HalfSize(height, bboxPercentage);
      var genX := RandRange(sx, width - sx, entropy(2 * i));
      if genX.Err? {
        return Err(genX.error);
      }
      var genY := RandRange(sy, height - sy, entropy(2 * i + 1));
      if genY.Err? {
        return Err(genY.error);
      }
      var bbox := [genX.value - sx, genY.value - sy, genX.value + sx, genY.value + sy];
      assert bbox == FloodBox(i, height, width, bboxPercentage, entropy);
      detects := detects + [DetectToGeojsonDict(tokens(2 * i), tokens(2 * i + 1), bbox)];
      i := i + 1;
    }
    r := Ok(detects);
    if floodVolume > 0 {
      assert detects == FloodDetects(floodVolume, height, width, bboxPercentage, entropy, tokens).value;
    }
  }

  /**
   * The flood endpoint's call as written: it passes `(FLOOD_VOLUME, width,
   * height, BBOX_PERCENTAGE)` into the parameters `(flood_volume, height,
   * width, bbox_percentage)`, so the raster width lands in `height` and the
   * raster height in `width`.
   */
  function FloodPredictAsWritten(rasterWidth: nat, rasterHeight: nat, floodVolume: int, bboxPercentage: real,
                                 entropy: nat -> nat, tokens: nat -> Token): (r: Result<seq<Feature<int>>>)
    ensures r.Ok? ==> forall k :: 0 <= k < |r.value| ==>
                        && CornersInRaster(r.value[k].properties.boundsImcoords, rasterHeight, rasterWidth)
                        && (bboxPercentage >= 0.0 ==> BoxInRaster(r.value[k].properties.boundsImcoords, rasterHeight, rasterWidth))
  {
    FloodDetectsInRaster(floodVolume, rasterWidth, rasterHeight, bboxPercentage, entropy, tokens);
    FloodDetects(floodVolume, rasterWidth, rasterHeight, bboxPercentage, entropy, tokens)
  }

  /**
   * With the swapped call, a 1000 x 500 raster at the default settings can get
   * a box whose `y_max` is 999, far below the raster's last row 499.
   */
  lemma FloodPredictAsWrittenLeavesRaster(tokens: nat -> Token)
    ensures var r := FloodPredictAsWritten(1000, 500, DefaultFloodVolume, DefaultBboxPercentage, _ => 799, tokens);
            && r.Ok? && |r.value| == 100
            && r.value[0].properties.boundsImcoords == [399, 799, 499, 999]
            && !CornersInRaster(r.value[0].properties.boundsImcoords, 1000, 500)
  {
    CeilUnique(50.0, 50);
    CeilUnique(100.0, 100);
  }

  /**
   * A negative percentage inverts the box, and its minimum corner can then
   * leave the raster. On a 100 x 100 raster at -10% the half-sizes are -10, the
   * x range is [-10, 110), and a draw of 109 gives `[119, 119, 99, 99]`.
   */
  lemma FloodDetectsNegativePercentage(tokens: nat -> Token)
    ensures var r := FloodDetects(1, 100, 100, -0.1, _ => 119, tokens);
            && r.Ok? && |r.value| == 1
            && r.value[0].properties.boundsImcoords == [119, 119, 99, 99]
            && CornersInRaster(r.value[0].properties.boundsImcoords, 100, 100)
            && !BoxInRaster(r.value[0].properties.boundsImcoords, 100, 100)
  {
    CeilUnique(-10.0, -10);
  }

  /** The call with the dimensions in the declared order. */
  function FloodPredict(rasterWidth: nat, rasterHeight: nat, floodVolume: int, bboxPercentage: real,
                        entropy: nat -> nat, tokens: nat -> Token): (r: Result<seq<Feature<int>>>)
    ensures r.Ok? ==> forall k :: 0 <= k < |r.value| ==>
                        && CornersInRaster(r.value[k].properties.boundsImcoords, rasterWidth, rasterHeight)
                        && (bboxPercentage >= 0.0 ==> BoxInRaster(r.value[k].properties.boundsImcoords, rasterWidth, rasterHeight))
  {
    FloodDetectsInRaster(floodVolume, rasterHeight, rasterWidth, bboxPercentage, entropy, tokens);
    FloodDetects(floodVolume, rasterHeight, rasterWidth, bboxPercentage, entropy, tokens)
  }
}

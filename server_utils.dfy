/**
 * The GeoJSON feature record that every stub model returns for one detection,
 * and the two encoders that build it (src/aws/osml/models/server_utils.py).
 *
 * The two `token_hex(16)` draws of each encoder (the feature `id` and the
 * `image_id`) are passed in as parameters, so the encoders are functions.
 */
module ServerUtils {

  datatype Option<+T> = None | Some(value: T)

  /** A string `secrets.token_hex(16)` can return: 16 random bytes as 32 lower-case hex digits. */
  predicate IsHexToken(s: string) {
    |s| == 32 && forall i :: 0 <= i < |s| ==> s[i] in "0123456789abcdef"
  }

  type Token = s: string | IsHexToken(s) witness "00000000000000000000000000000000"

  /** The `geometry` member of a feature: a GeoJSON type name and its coordinates. */
  datatype Geometry = Geometry(kind: string, coordinates: seq<real>)

  /**
   * The `properties` member of a feature. `N` is the number type of the image
   * coordinates: float for the centerpoint models, int for the flood model.
   * `polygonImcoords` is `None` when the key is absent from the dictionary.
   */
  datatype Properties<N> = Properties(
    boundsImcoords: seq<N>,
    polygonImcoords: Option<seq<(N, N)>>,
    detectionScore: real,
    featureTypes: map<string, real>,
    imageId: Token)

  /** One GeoJSON feature as the encoders build it; `kind` is its "type" member. */
  datatype Feature<N> = Feature(kind: string, id: Token, geometry: Geometry, properties: Properties<N>)

  /** World coordinates are not known to a model container, so every feature sits at (0, 0). */
  const PlaceholderPoint := Geometry("Point", [0.0, 0.0])

  const DefaultScore: real := 1.0
  const DefaultDetectionType: string := "sample_object"

  /**
   * The shape every encoded feature has: a "Feature" at the placeholder point
   * whose `feature_types` is the single entry `{detectionType: score}` with `score`
   * equal to `detection_score`.
   */
  predicate IsDetectionFeature<N>(f: Feature<N>, detectionType: string) {
    && f.kind == "Feature"
    && f.geometry == PlaceholderPoint
    && f.properties.featureTypes.Keys == {detectionType}
    && f.properties.featureTypes[detectionType] == f.properties.detectionScore
  }

  /** `detect_to_geojson_dict`: a feature without a polygon. */
  function DetectToGeojsonDict<N>(id: Token, imageId: Token, bbox: seq<N>,
                                  score: real := DefaultScore, detectionType: string := DefaultDetectionType): (f: Feature<N>)
    ensures IsDetectionFeature(f, detectionType)
    ensures f.properties.boundsImcoords == bbox
    ensures f.properties.detectionScore == score
    ensures f.properties.polygonImcoords == None
    ensures f.id == id && f.properties.imageId == imageId
  {
    Feature("Feature", id, PlaceholderPoint,
            Properties(bbox, None, score, map[detectionType := score], imageId))
  }

  /** `detect_to_geojson_segmentation_dict`: the same feature with `polygon_imcoords` added. */
  function DetectToGeojsonSegmentationDict<N>(id: Token, imageId: Token, bbox: seq<N>, polygon: seq<(N, N)>,
                                              score: real := DefaultScore, detectionType: string := DefaultDetectionType): (f: Feature<N>)
    ensures IsDetectionFeature(f, detectionType)
    ensures f.properties.boundsImcoords == bbox
    ensures f.properties.polygonImcoords == Some(polygon)
    ensures f.properties.detectionScore == score
    ensures f.id == id && f.properties.imageId == imageId
  {
    Feature("Feature", id, PlaceholderPoint,
            Properties(bbox, Some(polygon), score, map[detectionType := score], imageId))
  }

  /** Called without score and class, the encoder uses the defaults 1.0 and "sample_object". */
  lemma DefaultsApplied<N>(id: Token, imageId: Token, bbox: seq<N>)
    ensures DetectToGeojsonDict(id, imageId, bbox).properties.detectionScore == 1.0
    ensures DetectToGeojsonDict(id, imageId, bbox).properties.featureTypes == map["sample_object" := 1.0]
  {
  }

  /**
   * Nothing the caller passes is lost: with the same tokens, two encoded
   * features are equal exactly when box, score and class are equal.
   */
  lemma DetectToGeojsonDictInjective<N>(id: Token, imageId: Token,
                                        bbox1: seq<N>, score1: real, detectionType1: string,
                                        bbox2: seq<N>, score2: real, detectionType2: string)
    ensures DetectToGeojsonDict(id, imageId, bbox1, score1, detectionType1) == DetectToGeojsonDict(id, imageId, bbox2, score2, detectionType2)
            <==> bbox1 == bbox2 && score1 == score2 && detectionType1 == detectionType2
  {
    var f1 := DetectToGeojsonDict(id, imageId, bbox1, score1, detectionType1);
    var f2 := DetectToGeojsonDict(id, imageId, bbox2, score2, detectionType2);
    if f1 == f2 {
      assert detectionType1 in f2.properties.featureTypes.Keys;
    }
  }

  /**
   * The two tokens are not derived from any input: drawing other tokens
   * changes `id` and `image_id` and nothing else.
   */
  lemma TokensChangeOnlyTokens<N>(id1: Token, imageId1: Token, id2: Token, imageId2: Token,
                                  bbox: seq<N>, score: real, detectionType: string)
    ensures var f1 := DetectToGeojsonDict(id1, imageId1, bbox, score, detectionType);
            f1.(id := id2, properties := f1.properties.(imageId := imageId2))
            == DetectToGeojsonDict(id2, imageId2, bbox, score, detectionType)
  {
  }

  /**
   * The segmentation record is the plain record with `polygon_imcoords` set
   * to the given polygon, unchanged; every other member is the same.
   */
  lemma SegmentationExtendsPlain<N>(id: Token, imageId: Token, bbox: seq<N>, polygon: seq<(N, N)>,
                                    score: real, detectionType: string)
    ensures var plain := DetectToGeojsonDict(id, imageId, bbox, score, detectionType);
            DetectToGeojsonSegmentationDict(id, imageId, bbox, polygon, score, detectionType)
            == plain.(properties := plain.properties.(polygonImcoords := Some(polygon)))
  {
  }

  /** The plain encoder never emits a polygon, the segmentation encoder always does. */
  lemma PolygonOnlyFromSegmentation<N>(id: Token, imageId: Token, bbox: seq<N>, polygon: seq<(N, N)>,
                                       score: real, detectionType: string)
    ensures DetectToGeojsonDict(id, imageId, bbox, score, detectionType)
            != DetectToGeojsonSegmentationDict(id, imageId, bbox, polygon, score, detectionType)
  {
  }
}

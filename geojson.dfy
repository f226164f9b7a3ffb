/**
 * The GeoJSON shapes produced by the forecast transforms (RFC 7946:
 * FeatureCollection, section 3.3; Feature, section 3.2; Point, section 3.1.2)
 * and the raw forecast document they read.
 *
 * The fixed `type` members ("FeatureCollection", "Feature", "Point") are carried
 * by the constructor names rather than stored as strings.
 */
module GeoJson {
  import opened Wrappers

  /**
   * Reading slot `i` of a JavaScript number array: `undefined` (None) past the
   * end. Every transform reads its triples this way (`coord[2]`, or the
   * destructuring `[lon, lat, aurora]`), so a short array yields undefined
   * members rather than an error.
   */
  function At(c: seq<real>, i: nat): (v: Option<real>)
  {
    if i < |c| then Some(c[i]) else None
  }

  /** A Point geometry: position order longitude, then latitude (RFC 7946, section 3.1.1). */
  datatype Point = Point(longitude: Option<real>, latitude: Option<real>)

  /** Feature properties: intensity only (scripts/parse.js) or intensity with the document's two times. */
  datatype Properties =
    | Intensity(aurora: Option<real>)
    | Timed(aurora: Option<real>, observationTime: Option<string>, forecastTime: Option<string>)

  datatype Feature = Feature(geometry: Point, properties: Properties)

  datatype FeatureCollection = FeatureCollection(features: seq<Feature>)

  /**
   * The upstream forecast document: its `coordinates` grid of
   * `[longitude, latitude, intensity]` arrays and its "Observation Time" and
   * "Forecast Time" members (undefined when absent).
   */
  datatype Document = Document(coordinates: seq<seq<real>>, observationTime: Option<string>, forecastTime: Option<string>)

  /** The feature a timestamped transform emits for one coordinate array. */
  function TimedFeature(c: seq<real>, observationTime: Option<string>, forecastTime: Option<string>): Feature
  {
    Feature(Point(At(c, 0), At(c, 1)), Timed(At(c, 2), observationTime, forecastTime))
  }
}

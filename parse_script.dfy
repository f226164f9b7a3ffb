/**
 * scripts/parse.js: the top-level loop that turns every `[lon, lat, aurora]`
 * array of the forecast document into a Point feature whose only property is
 * `aurora`. No filter and no timestamps.
 */
module ParseScript {
  import opened Wrappers
  import opened GeoJson
  import Parse2Script

  /** The feature pushed for one destructured `[lon, lat, aurora]` array. */
  function IntensityFeature(c: seq<real>): Feature
  {
    Feature(Point(At(c, 0), At(c, 1)), Intensity(At(c, 2)))
  }

  /** The features pushed for `coordinates`, in push order. */
  function IntensityFeatures(coordinates: seq<seq<real>>): (features: seq<Feature>)
    ensures |features| == |coordinates|
    ensures forall i :: 0 <= i < |coordinates| ==>
      && features[i].geometry == Point(At(coordinates[i], 0), At(coordinates[i], 1))
      && features[i].properties == Intensity(At(coordinates[i], 2))
  {
    if coordinates == [] then []
    else
      var last := |coordinates| - 1;
      IntensityFeatures(coordinates[..last]) + [IntensityFeature(coordinates[last])]
  }

  /** The script body: a `forEach` that pushes into the module-level `geojson.features`. */
  method ConvertToGeoJson(coordinates: seq<seq<real>>) returns (geojson: FeatureCollection)
    ensures geojson.features == IntensityFeatures(coordinates)
    ensures coordinates == [] ==> geojson.features == []
  {
    geojson := FeatureCollection([]);
    var i := 0;
    while i < |coordinates|
      invariant 0 <= i <= |coordinates|
      invariant geojson.features == IntensityFeatures(coordinates[..i])
    {
      assert coordinates[..i + 1][..i] == coordinates[..i];
      geojson := geojson.(features := geojson.features + [IntensityFeature(coordinates[i])]);
      i := i + 1;
    }
    assert coordinates[..i] == coordinates;
  }

  /** A feature with its `observationTime` and `forecastTime` properties removed. */
  function WithoutTimes(f: Feature): Feature
  {
    match f.properties
    case Timed(aurora, _, _) => Feature(f.geometry, Intensity(aurora))
    case Intensity(_) => f
  }

  /**
   * This script's output is the timestamped script's output with the two time
   * properties dropped from every feature, whatever the document's times are.
   */
  lemma {:induction false} IntensityFeaturesDropTimes(coordinates: seq<seq<real>>, observationTime: Option<string>, forecastTime: Option<string>)
    ensures var timed := Parse2Script.TimedFeatures(coordinates, observationTime, forecastTime);
      IntensityFeatures(coordinates) == seq(|timed|, i requires 0 <= i < |timed| => WithoutTimes(timed[i]))
  {
    var timed := Parse2Script.TimedFeatures(coordinates, observationTime, forecastTime);
    var plain := IntensityFeatures(coordinates);
    forall i | 0 <= i < |timed|
      ensures plain[i] == WithoutTimes(timed[i])
    {
      assert timed[i].properties == Timed(At(coordinates[i], 2), observationTime, forecastTime);
    }
  }
}

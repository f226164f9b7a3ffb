/**
 * scripts/parse2.js: `convertToGeoJSON` without a filter. Every coordinate
 * array of the forecast document becomes one Point feature carrying its
 * intensity and the document's "Observation Time" and "Forecast Time".
 */
module Parse2Script {
  import opened Wrappers
  import opened GeoJson

  /**
   * The features the script pushes for `coordinates`, in push order: one per
   * coordinate array, its position and intensity copied verbatim, the two
   * document times copied into every feature.
   */
  function TimedFeatures(coordinates: seq<seq<real>>, observationTime: Option<string>, forecastTime: Option<string>): (features: seq<Feature>)
    ensures |features| == |coordinates|
    ensures forall i :: 0 <= i < |coordinates| ==>
      && features[i].geometry == Point(At(coordinates[i], 0), At(coordinates[i], 1))
      && features[i].properties == Timed(At(coordinates[i], 2), observationTime, forecastTime)
  {
    if coordinates == [] then []
    else
      var last := |coordinates| - 1;
      TimedFeatures(coordinates[..last], observationTime, forecastTime)
        + [TimedFeature(coordinates[last], observationTime, forecastTime)]
  }

  /** `convertToGeoJSON(data)`: the `forEach` that pushes one feature per coordinate array. */
  method ConvertToGeoJson(data: Document) returns (geojson: FeatureCollection)
    ensures geojson.features == TimedFeatures(data.coordinates, data.observationTime, data.forecastTime)
    ensures |geojson.features| == |data.coordinates|
    ensures data.coordinates == [] ==> geojson.features == []
  {
    var coordinates := data.coordinates;
    var features: seq<Feature> := [];
    var i := 0;
    while i < |coordinates|
      invariant 0 <= i <= |coordinates|
      invariant features == TimedFeatures(coordinates[..i], data.observationTime, data.forecastTime)
    {
      assert coordinates[..i + 1][..i] == coordinates[..i];
      features := features + [TimedFeature(coordinates[i], data.observationTime, data.forecastTime)];
      i := i + 1;
    }
    assert coordinates[..i] == coordinates;
    geojson := FeatureCollection(features);
  }
}

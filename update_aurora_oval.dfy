/**
 * supabase/functions/update-aurora-oval/index.ts: the scheduled function.
 * It fetches the forecast document, converts it to GeoJSON while dropping
 * every grid cell whose intensity is exactly zero, deletes the previous
 * artifact from the `geojsons` bucket and uploads the new one.
 */
module UpdateAuroraOval {
  import opened Wrappers
  import opened GeoJson
  import Parse2Script

  // ---------------------------------------------------------------------
  // The filtering transform
  // ---------------------------------------------------------------------

  /** `coord[2] !== 0`: only an intensity of exactly zero is dropped; an undefined one is kept. */
  predicate Retained(c: seq<real>)
  {
    At(c, 2) != Some(0.0)
  }

  /**
   * The features pushed for `coordinates`, in push order: one timestamped
   * feature per retained coordinate array. No feature has intensity zero and
   * every one carries the document's two times.
   */
  function RetainedFeatures(coordinates: seq<seq<real>>, observationTime: Option<string>, forecastTime: Option<string>): (features: seq<Feature>)
    ensures |features| <= |coordinates|
    ensures forall k :: 0 <= k < |features| ==>
      && features[k].properties.Timed?
      && features[k].properties.aurora != Some(0.0)
      && features[k].properties.observationTime == observationTime
      && features[k].properties.forecastTime == forecastTime
  {
    if coordinates == [] then []
    else
      var last := |coordinates| - 1;
      RetainedFeatures(coordinates[..last], observationTime, forecastTime)
        + (if Retained(coordinates[last]) then [TimedFeature(coordinates[last], observationTime, forecastTime)] else [])
  }

  /** `convertToGeoJSON(data)`: the `forEach` that pushes a feature for every non-zero triple. */
  method ConvertToGeoJson(data: Document) returns (geojson: FeatureCollection)
    ensures geojson.features == RetainedFeatures(data.coordinates, data.observationTime, data.forecastTime)
    ensures data.coordinates == [] ==> geojson.features == []
  {
    var coordinates := data.coordinates;
    geojson := FeatureCollection([]);
    var i := 0;
    while i < |coordinates|
      invariant 0 <= i <= |coordinates|
      invariant geojson.features == RetainedFeatures(coordinates[..i], data.observationTime, data.forecastTime)
    {
      assert coordinates[..i + 1][..i] == coordinates[..i];
      if At(coordinates[i], 2) != Some(0.0) {
        var feature := TimedFeature(coordinates[i], data.observationTime, data.forecastTime);
        geojson := geojson.(features := geojson.features + [feature]);
      }
      i := i + 1;
    }
    assert coordinates[..i] == coordinates;
  }

  /** Filtering distributes over concatenation: the features keep their triples' relative order. */
  lemma {:induction false} RetainedFeaturesAppend(a: seq<seq<real>>, b: seq<seq<real>>, observationTime: Option<string>, forecastTime: Option<string>)
    ensures RetainedFeatures(a + b, observationTime, forecastTime)
         == RetainedFeatures(a, observationTime, forecastTime) + RetainedFeatures(b, observationTime, forecastTime)
    decreases |b|
  {
    if b == [] {
      assert a + b == a;
    } else {
      var init := b[..|b| - 1];
      assert (a + b)[..|a + b| - 1] == a + init;
      assert (a + b)[|a + b| - 1] == b[|b| - 1];
      RetainedFeaturesAppend(a, init, observationTime, forecastTime);
    }
  }

  /** The positions of the coordinate arrays the filter keeps. */
  function RetainedPositions(coordinates: seq<seq<real>>): set<nat>
  {
    set i: nat | i < |coordinates| && Retained(coordinates[i])
  }

  /** There are exactly as many features as coordinate arrays whose intensity is not zero. */
  lemma {:induction false} RetainedCount(coordinates: seq<seq<real>>, observationTime: Option<string>, forecastTime: Option<string>)
    ensures |RetainedFeatures(coordinates, observationTime, forecastTime)| == |RetainedPositions(coordinates)|
  {
    if coordinates != [] {
      var last := |coordinates| - 1;
      var init := coordinates[..last];
      RetainedCount(init, observationTime, forecastTime);
      assert RetainedPositions(coordinates)
          == RetainedPositions(init) + (if Retained(coordinates[last]) then {last} else {});
    }
  }

  /**
   * A retained coordinate array at position i yields the feature at position
   * "number of retained arrays before i", built verbatim from it.
   */
  lemma RetainedFeatureAt(coordinates: seq<seq<real>>, observationTime: Option<string>, forecastTime: Option<string>, i: nat)
    requires i < |coordinates| && Retained(coordinates[i])
    ensures var k := |RetainedFeatures(coordinates[..i], observationTime, forecastTime)|;
      var features := RetainedFeatures(coordinates, observationTime, forecastTime);
      && k < |features|
      && features[k].geometry == Point(At(coordinates[i], 0), At(coordinates[i], 1))
      && features[k].properties.aurora == At(coordinates[i], 2)
  {
    var c := coordinates[i];
    var rest := coordinates[i + 1..];
    assert coordinates == coordinates[..i] + ([c] + rest);
    RetainedFeaturesAppend(coordinates[..i], [c] + rest, observationTime, forecastTime);
    RetainedFeaturesAppend([c], rest, observationTime, forecastTime);
    assert [c][..0] == [];
  }

  /** Two retained triples in order i < j give features in the same order. */
  lemma RetainedOrder(coordinates: seq<seq<real>>, observationTime: Option<string>, forecastTime: Option<string>, i: nat, j: nat)
    requires i < j <= |coordinates| && Retained(coordinates[i])
    ensures |RetainedFeatures(coordinates[..i], observationTime, forecastTime)|
          < |RetainedFeatures(coordinates[..j], observationTime, forecastTime)|
  {
    var c := coordinates[i];
    assert coordinates[..j] == coordinates[..i] + ([c] + coordinates[i + 1..j]);
    RetainedFeaturesAppend(coordinates[..i], [c] + coordinates[i + 1..j], observationTime, forecastTime);
    RetainedFeaturesAppend([c], coordinates[i + 1..j], observationTime, forecastTime);
    assert [c][..0] == [];
  }

  /** A feature is in the output exactly when some retained triple yields it. */
  lemma {:induction false} RetainedMembership(coordinates: seq<seq<real>>, observationTime: Option<string>, forecastTime: Option<string>, f: Feature)
    ensures f in RetainedFeatures(coordinates, observationTime, forecastTime)
      <==> exists i :: 0 <= i < |coordinates| && Retained(coordinates[i]) && f == TimedFeature(coordinates[i], observationTime, forecastTime)
  {
    if coordinates != [] {
      var last := |coordinates| - 1;
      var init := coordinates[..last];
      RetainedMembership(init, observationTime, forecastTime, f);
      if f in RetainedFeatures(init, observationTime, forecastTime) {
        var i :| 0 <= i < |init| && Retained(init[i]) && f == TimedFeature(init[i], observationTime, forecastTime);
        assert coordinates[i] == init[i];
      }
      if exists i :: 0 <= i < |coordinates| && Retained(coordinates[i]) && f == TimedFeature(coordinates[i], observationTime, forecastTime) {
        var i :| 0 <= i < |coordinates| && Retained(coordinates[i]) && f == TimedFeature(coordinates[i], observationTime, forecastTime);
        if i < last {
          assert init[i] == coordinates[i];
        }
      }
    }
  }

  /** The features of `features` whose `aurora` is not exactly zero, in order. */
  function WithoutZeroAurora(features: seq<Feature>): seq<Feature>
  {
    if features == [] then []
    else
      var last := |features| - 1;
      WithoutZeroAurora(features[..last])
        + (if features[last].properties.aurora != Some(0.0) then [features[last]] else [])
  }

  /**
   * The scheduled function's output is the unfiltered script's output
   * (scripts/parse2.js) restricted to features whose `aurora` is not zero.
   */
  lemma {:induction false} RetainedIsUnfilteredWithoutZeros(coordinates: seq<seq<real>>, observationTime: Option<string>, forecastTime: Option<string>)
    ensures RetainedFeatures(coordinates, observationTime, forecastTime)
         == WithoutZeroAurora(Parse2Script.TimedFeatures(coordinates, observationTime, forecastTime))
  {
    if coordinates != [] {
      var last := |coordinates| - 1;
      var all := Parse2Script.TimedFeatures(coordinates, observationTime, forecastTime);
      RetainedIsUnfilteredWithoutZeros(coordinates[..last], observationTime, forecastTime);
      assert all[..last] == Parse2Script.TimedFeatures(coordinates[..last], observationTime, forecastTime);
    }
  }

  // ---------------------------------------------------------------------
  // The request handler: fetch, convert, delete, upload
  // ---------------------------------------------------------------------

  const FileName := "aurora_forecast.geojson"
  const ContentType := "application/geo+json"
  const CacheControl := "3600"
  const InsertedMessage := "Optimized Aurora oval data inserted successfully"
  const UploadFailedPrefix := "Failed to upload the file: "
  const HttpErrorPrefix := "HTTP error! status: "

  /**
   * The parsed response body: a forecast document; the message of the error
   * that reading it threw; or JSON that `convertToGeoJSON` throws on (a
   * `coordinates` that is not an array, or a null entry), with the message of
   * that TypeError.
   */
  datatype JsonBody = Forecast(doc: Document) | Unparsable(message: string) | Unconvertible(message: string)

  /** What the forecast fetch gave: a thrown network error, or a response with its status and body. */
  datatype Fetched = NetworkFailure(message: string) | Received(status: nat, body: JsonBody)

  /** `response.ok`: a status in the range 200-299. */
  predicate StatusOk(status: nat)
  {
    200 <= status <= 299
  }

  datatype ResponseBody = Inserted(message: string, path: string) | Failed(error: string)

  datatype Response = Response(status: nat, body: ResponseBody)

  /** The decimal digits of `n`, as a template literal prints a status code. */
  function DecimalString(n: nat): (s: string)
    ensures |s| >= 1
    ensures forall k :: 0 <= k < |s| ==> '0' <= s[k] <= '9'
  {
    var digit := ['0' + (n % 10) as char];
    if n < 10 then digit else DecimalString(n / 10) + digit
  }

  /** The number that a string of decimal digits denotes. */
  function DecimalValue(s: string): nat
    requires forall k :: 0 <= k < |s| ==> '0' <= s[k] <= '9'
  {
    if s == [] then 0 else 10 * DecimalValue(s[..|s| - 1]) + (s[|s| - 1] - '0') as nat
  }

  /** The status printed into the error message can be read back from it. */
  lemma {:induction false} DecimalRoundTrip(n: nat)
    ensures DecimalValue(DecimalString(n)) == n
  {
    var s := DecimalString(n);
    if n >= 10 {
      DecimalRoundTrip(n / 10);
      assert s[..|s| - 1] == DecimalString(n / 10);
    }
  }

  /**
   * Steps 1 and 2 up to the first store request: the fetch, `response.json()`
   * and the conversion. A non-ok status throws before the body is read; a
   * network, parse or conversion failure throws with its own message.
   */
  function FetchedDocument(fetched: Fetched): (r: Result<Document, string>)
    ensures r.Ok? <==> fetched.Received? && StatusOk(fetched.status) && fetched.body.Forecast?
    ensures r.Ok? ==> r.value == fetched.body.doc
    ensures fetched.Received? && !StatusOk(fetched.status) ==>
      && r.Err?
      && |r.error| > |HttpErrorPrefix|
      && r.error[..|HttpErrorPrefix|] == HttpErrorPrefix
      && (forall k :: 0 <= k < |r.error| - |HttpErrorPrefix| ==> '0' <= r.error[|HttpErrorPrefix|..][k] <= '9')
      && DecimalValue(r.error[|HttpErrorPrefix|..]) == fetched.status
    ensures fetched.NetworkFailure? ==> r == Err(fetched.message)
    ensures fetched.Received? && StatusOk(fetched.status) && !fetched.body.Forecast? ==> r == Err(fetched.body.message)
  {
    match fetched
    case NetworkFailure(message) => Err(message)
    case Received(status, body) =>
      if !StatusOk(status) then
        DecimalRoundTrip(status);
        Err(HttpErrorPrefix + DecimalString(status))
      else
        match body
        case Forecast(doc) => Ok(doc)
        case Unparsable(message) => Err(message)
        case Unconvertible(message) => Err(message)
  }

  /** One request the function makes of the object store. */
  datatype StoreCall =
    | Remove(paths: seq<string>)
    | Upload(path: string, content: FeatureCollection, contentType: string, cacheControl: string)

  /**
   * The `geojsons` storage bucket: the objects it holds and the requests made
   * of it. Whether a request fails is decided by the backend and is passed in.
   */
  class Bucket {
    var objects: map<string, FeatureCollection>
    var calls: seq<StoreCall>

    constructor (objects: map<string, FeatureCollection>)
      ensures this.objects == objects && calls == []
    {
      this.objects := objects;
      calls := [];
    }

    /** `remove(paths)`: on success the paths are gone; on failure nothing changes. */
    method Remove(paths: seq<string>, failure: Option<string>) returns (error: Option<string>)
      modifies this
      ensures calls == old(calls) + [StoreCall.Remove(paths)]
      ensures error == failure
      ensures objects == if failure.None? then old(objects) - (set p | p in paths) else old(objects)
    {
      calls := calls + [StoreCall.Remove(paths)];
      if failure.None? {
        objects := objects - (set p | p in paths);
      }
      error := failure;
    }

    /** `upload(path, content, options)`: on success the object is stored and its path returned. */
    method Upload(path: string, content: FeatureCollection, contentType: string, cacheControl: string, failure: Option<string>)
      returns (result: Result<string, string>)
      modifies this
      ensures calls == old(calls) + [StoreCall.Upload(path, content, contentType, cacheControl)]
      ensures failure.None? ==> result == Ok(path) && objects == old(objects)[path := content]
      ensures failure.Some? ==> result == Err(failure.value) && objects == old(objects)
    {
      calls := calls + [StoreCall.Upload(path, content, contentType, cacheControl)];
      if failure.None? {
        objects := objects[path := content];
        result := Ok(path);
      } else {
        result := Err(failure.value);
      }
    }
  }

  /**
   * The request handler. A failed fetch, or a body the conversion throws on,
   * answers 500 before the bucket is touched. Otherwise the old artifact is removed (a failure there is only
   * logged), the new one is uploaded, and the answer is 201 with its path, or
   * 500 when the upload fails.
   */
  method Serve(bucket: Bucket, fetched: Fetched, removeFailure: Option<string>, uploadFailure: Option<string>)
    returns (response: Response)
    modifies bucket
    ensures FetchedDocument(fetched).Err? ==>
      && response == Response(500, Failed(FetchedDocument(fetched).error))
      && bucket.calls == old(bucket.calls)
      && bucket.objects == old(bucket.objects)
    ensures FetchedDocument(fetched).Ok? ==>
      var doc := FetchedDocument(fetched).value;
      var artifact := FeatureCollection(RetainedFeatures(doc.coordinates, doc.observationTime, doc.forecastTime));
      && bucket.calls == old(bucket.calls) + [StoreCall.Remove([FileName]), StoreCall.Upload(FileName, artifact, ContentType, CacheControl)]
      && (uploadFailure.None? ==>
            && response == Response(201, Inserted(InsertedMessage, FileName))
            && bucket.objects == old(bucket.objects)[FileName := artifact])
      && (uploadFailure.Some? ==>
            && response == Response(500, Failed(UploadFailedPrefix + uploadFailure.value))
            && bucket.objects == if removeFailure.None? then old(bucket.objects) - {FileName} else old(bucket.objects))
  {
    var fetchedDoc := FetchedDocument(fetched);
    if fetchedDoc.Err? {
      return Response(500, Failed(fetchedDoc.error));
    }
    var geojson := ConvertToGeoJson(fetchedDoc.value);
    var deleteError := bucket.Remove([FileName], removeFailure);
    assert (set p | p in [FileName]) == {FileName};
    // A delete error is only logged: the upload goes ahead either way.
    var upload := bucket.Upload(FileName, geojson, ContentType, CacheControl, uploadFailure);
    if upload.Err? {
      return Response(500, Failed(UploadFailedPrefix + upload.error));
    }
    response := Response(201, Inserted(InsertedMessage, upload.value));
  }
}

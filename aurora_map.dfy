/**
 * src/app/_components/map/index.tsx: the map's viewport bounding box, the
 * sightings shown on the map, and the persisted forecast cache of `Layers`.
 */
module AuroraMap {
  import opened Wrappers
  import opened GeoJson
  import opened UserPosition
  import AuroraRouter

  // ---------------------------------------------------------------------
  // Viewport
  // ---------------------------------------------------------------------

  /** The map's view state (zoom taken as a whole number). */
  datatype ViewState = ViewState(longitude: real, latitude: real, zoom: nat)

  datatype BoundingBox = BoundingBox(minLon: real, maxLon: real, minLat: real, maxLat: real)

  function Pow2(n: nat): (p: nat)
    ensures p >= 1
  {
    if n == 0 then 1 else 2 * Pow2(n - 1)
  }

  /** `360 / (Math.pow(2, zoom) * 2)`: half the side of the approximate visible area. */
  function Offset(zoom: nat): real
  {
    360.0 / (Pow2(zoom) as real * 2.0)
  }

  /** The offset is 180 / 2^zoom degrees: zoom 0 spans the whole globe's longitudes. */
  lemma OffsetClosedForm(zoom: nat)
    ensures Offset(zoom) * Pow2(zoom) as real == 180.0
    ensures Offset(zoom) > 0.0
  {
    var p := Pow2(zoom) as real;
    assert Offset(zoom) * (p * 2.0) == 360.0;
  }

  /** One zoom level more halves the visible area's half-side. */
  lemma OffsetHalves(zoom: nat)
    ensures Offset(zoom + 1) * 2.0 == Offset(zoom)
  {
    OffsetClosedForm(zoom);
    OffsetClosedForm(zoom + 1);
    var p := Pow2(zoom) as real;
    assert Pow2(zoom + 1) as real == 2.0 * p;
    assert (Offset(zoom + 1) * 2.0) * p == Offset(zoom) * p;
  }

  /**
   * `getBoundingBox`: the square centred on the view's position, spanning
   * 360 / 2^zoom degrees on both axes.
   */
  function GetBoundingBox(view: ViewState): (box: BoundingBox)
    ensures (box.minLon + box.maxLon) / 2.0 == view.longitude
    ensures (box.minLat + box.maxLat) / 2.0 == view.latitude
    ensures box.maxLon - box.minLon == box.maxLat - box.minLat
    ensures (box.maxLon - box.minLon) * Pow2(view.zoom) as real == 360.0
  {
    var offset := Offset(view.zoom);
    OffsetClosedForm(view.zoom);
    BoundingBox(view.longitude - offset, view.longitude + offset, view.latitude - offset, view.latitude + offset)
  }

  // ---------------------------------------------------------------------
  // Sightings shown on the map
  // ---------------------------------------------------------------------

  /** The viewport filter, bounds included. */
  predicate InBox(s: AuroraRouter.Submission, box: BoundingBox)
  {
    box.minLon <= s.longitude <= box.maxLon && box.minLat <= s.latitude <= box.maxLat
  }

  /** `data.filter(...)`: the sightings inside the box, in order. */
  function WithinBox(data: seq<AuroraRouter.Submission>, box: BoundingBox): (inside: seq<AuroraRouter.Submission>)
    ensures |inside| <= |data|
  {
    if data == [] then []
    else
      var last := |data| - 1;
      WithinBox(data[..last], box) + (if InBox(data[last], box) then [data[last]] else [])
  }

  /** The viewport filter distributes over concatenation, so it keeps relative order. */
  lemma {:induction false} WithinBoxAppend(a: seq<AuroraRouter.Submission>, b: seq<AuroraRouter.Submission>, box: BoundingBox)
    ensures WithinBox(a + b, box) == WithinBox(a, box) + WithinBox(b, box)
    decreases |b|
  {
    if b == [] {
      assert a + b == a;
    } else {
      var init := b[..|b| - 1];
      assert (a + b)[..|a + b| - 1] == a + init;
      WithinBoxAppend(a, init, box);
    }
  }

  /** A sighting passes the viewport filter exactly when it is in the data and inside the box. */
  lemma {:induction false} WithinBoxMembers(data: seq<AuroraRouter.Submission>, box: BoundingBox, s: AuroraRouter.Submission)
    ensures s in WithinBox(data, box) <==> s in data && InBox(s, box)
  {
    if data != [] {
      var last := |data| - 1;
      WithinBoxMembers(data[..last], box, s);
      assert data == data[..last] + [data[last]];
    }
  }

  /** A sighting on the map, with its distance from the user when there is a position. */
  datatype ShownSighting = ShownSighting(sighting: AuroraRouter.Submission, distance: Option<real>)

  /**
   * The `sightings` memo. Without data: nothing. With a position: every
   * sighting, each with its distance (`distanceKm` stands for the rounded
   * geodesic distance). Without a position: the sightings inside the viewport,
   * in order, with no distance.
   */
  function Sightings(data: Option<seq<AuroraRouter.Submission>>, view: ViewState, position: Option<Position>,
                     distanceKm: (Position, AuroraRouter.Submission) -> real): (shown: seq<ShownSighting>)
    ensures data.None? ==> shown == []
    ensures data.Some? && position.Some? ==>
      && |shown| == |data.value|
      && forall i :: 0 <= i < |shown| ==> shown[i].sighting == data.value[i] && shown[i].distance.Some?
  {
    match data
    case None => []
    case Some(rows) =>
      var inside := WithinBox(rows, GetBoundingBox(view));
      match position
      case Some(p) =>
        seq(|rows|, i requires 0 <= i < |rows| => ShownSighting(rows[i], Some(distanceKm(p, rows[i]))))
      case None =>
        seq(|inside|, i requires 0 <= i < |inside| => ShownSighting(inside[i], None))
  }

  /**
   * Without a position, a sighting is shown exactly when it lies within the
   * viewport's bounding box (bounds included), and never with a distance.
   */
  lemma UnpositionedSightings(rows: seq<AuroraRouter.Submission>, view: ViewState,
                              distanceKm: (Position, AuroraRouter.Submission) -> real, s: AuroraRouter.Submission, d: Option<real>)
    ensures ShownSighting(s, d) in Sightings(Some(rows), view, None, distanceKm)
      <==> d.None? && s in rows && InBox(s, GetBoundingBox(view))
  {
    var box := GetBoundingBox(view);
    var inside := WithinBox(rows, box);
    var shown := Sightings(Some(rows), view, None, distanceKm);
    WithinBoxMembers(rows, box, s);
    if ShownSighting(s, d) in shown {
      var i :| 0 <= i < |shown| && shown[i] == ShownSighting(s, d);
      assert inside[i] == s;
    }
    if d.None? && s in inside {
      var i :| 0 <= i < |inside| && inside[i] == s;
      assert shown[i] == ShownSighting(s, d);
    }
  }

  // ---------------------------------------------------------------------
  // The persisted forecast cache of `Layers`
  // ---------------------------------------------------------------------

  const RefreshWindowMs := 300000

  /**
   * A truthy JSON value the forecast URL can answer with. The status is never
   * checked, so an error body (such as the storage service's "not found"
   * object) is as good as a forecast; `text` stands for that body.
   */
  datatype Payload = Forecast(collection: FeatureCollection) | OtherJson(text: string)

  /** What the forecast fetch gave: an error (only logged), or the parsed JSON, `None` for a falsy value. */
  datatype Reply = FetchFailed | Json(value: Option<Payload>)

  datatype CacheState = CacheState(lastFetchedAt: int, value: Option<Payload>)

  /** The effect's guard as written: it returns early once more than five minutes have passed. */
  predicate SkipsFetch(now: int, lastFetchedAt: int)
  {
    now - lastFetchedAt > RefreshWindowMs
  }

  /**
   * One run of the effect as written: skipped when the cache is older than the
   * window; otherwise a truthy reply is stored with the time the reply came back.
   */
  function Visit(state: CacheState, now: int, reply: Reply, repliedAt: int): CacheState
  {
    if SkipsFetch(now, state.lastFetchedAt) then state
    else
      match reply
      case Json(Some(payload)) => CacheState(repliedAt, Some(payload))
      case _ => state
  }

  /** The guard the five-minute window evidently calls for: skip only while a cached value is still fresh. */
  predicate SkipsFetchIntended(now: int, state: CacheState)
  {
    state.value.Some? && now - state.lastFetchedAt <= RefreshWindowMs
  }

  /** One run of the effect with the intended guard. */
  function VisitIntended(state: CacheState, now: int, reply: Reply, repliedAt: int): CacheState
  {
    if SkipsFetchIntended(now, state) then state
    else
      match reply
      case Json(Some(payload)) => CacheState(repliedAt, Some(payload))
      case _ => state
  }

  /** One mount of `Layers`: when it ran, what the fetch gave and when. */
  datatype Mount = Mount(now: int, reply: Reply, repliedAt: int)

  function Replay(state: CacheState, mounts: seq<Mount>): CacheState
    decreases |mounts|
  {
    if mounts == [] then state
    else Replay(Visit(state, mounts[0].now, mounts[0].reply, mounts[0].repliedAt), mounts[1..])
  }

  function ReplayIntended(state: CacheState, mounts: seq<Mount>): CacheState
    decreases |mounts|
  {
    if mounts == [] then state
    else ReplayIntended(VisitIntended(state, mounts[0].now, mounts[0].reply, mounts[0].repliedAt), mounts[1..])
  }

  /** Mount times never go backwards. */
  predicate MountedInOrder(mounts: seq<Mount>)
  {
    forall i, j :: 0 <= i <= j < |mounts| ==> mounts[i].now <= mounts[j].now
  }

  /**
   * As written, a cache that is past the window at one mount is never
   * refreshed again, whatever later mounts fetch: the state stays exactly as
   * it was, because only a fetch moves the stamp.
   */
  lemma {:induction false} StaleCacheNeverRefreshes(state: CacheState, mounts: seq<Mount>)
    requires MountedInOrder(mounts)
    requires |mounts| > 0 ==> SkipsFetch(mounts[0].now, state.lastFetchedAt)
    ensures Replay(state, mounts) == state
    decreases |mounts|
  {
    if mounts != [] {
      assert Visit(state, mounts[0].now, mounts[0].reply, mounts[0].repliedAt) == state;
      var rest := mounts[1..];
      assert MountedInOrder(rest) by {
        forall i, j | 0 <= i <= j < |rest|
          ensures rest[i].now <= rest[j].now
        {
          assert rest[i] == mounts[i + 1] && rest[j] == mounts[j + 1];
        }
      }
      if |rest| > 0 {
        assert rest[0] == mounts[1];
        assert mounts[0].now <= mounts[1].now;
      }
      StaleCacheNeverRefreshes(state, rest);
    }
  }

  /** A concrete run: an empty cache six minutes old stays empty as written, and is filled with the intended guard. */
  lemma StaleCacheCounterexample()
    ensures var state := CacheState(0, None);
      var reply := Json(Some(Forecast(FeatureCollection([]))));
      && Visit(state, 360000, reply, 360100) == state
      && VisitIntended(state, 360000, reply, 360100) == CacheState(360100, Some(Forecast(FeatureCollection([]))))
  {
  }

  /**
   * With the intended guard, a cached value is never refetched while it is
   * fresh: mounts within the window leave the cache unchanged.
   */
  lemma {:induction false} IntendedThrottles(state: CacheState, mounts: seq<Mount>)
    requires state.value.Some?
    requires forall k :: 0 <= k < |mounts| ==> mounts[k].now - state.lastFetchedAt <= RefreshWindowMs
    ensures ReplayIntended(state, mounts) == state
  {
    if mounts != [] {
      assert SkipsFetchIntended(mounts[0].now, state);
      IntendedThrottles(state, mounts[1..]);
    }
  }

  /** With the intended guard, a stale or empty cache is refreshed by the first truthy reply. */
  lemma IntendedRefreshesWhenStale(state: CacheState, now: int, payload: Payload, repliedAt: int)
    requires state.value.None? || now - state.lastFetchedAt > RefreshWindowMs
    ensures VisitIntended(state, now, Json(Some(payload)), repliedAt) == CacheState(repliedAt, Some(payload))
  {
  }

  /**
   * The response status is never looked at: inside the window, a truthy error
   * body replaces a cached forecast and restarts the window, as written and
   * with the intended guard alike.
   */
  lemma ErrorBodyIsCached(state: CacheState, now: int, text: string, repliedAt: int)
    requires !SkipsFetch(now, state.lastFetchedAt)
    ensures Visit(state, now, Json(Some(OtherJson(text))), repliedAt) == CacheState(repliedAt, Some(OtherJson(text)))
    ensures state.value.None? || now - state.lastFetchedAt > RefreshWindowMs ==>
      VisitIntended(state, now, Json(Some(OtherJson(text))), repliedAt) == CacheState(repliedAt, Some(OtherJson(text)))
  {
  }

  /** The `geojson-data` atom, persisted across sessions. */
  class ForecastCache {
    var lastFetchedAt: int
    var value: Option<Payload>

    function State(): CacheState
      reads this
    {
      CacheState(lastFetchedAt, value)
    }

    /** The atom's default: stamped with the time it was created, no value. */
    constructor (createdAt: int)
      ensures State() == CacheState(createdAt, None)
    {
      lastFetchedAt := createdAt;
      value := None;
    }

    /** The `Layers` effect as written; `fetched` tells whether the request was sent. */
    method Refresh(now: int, reply: Reply, repliedAt: int) returns (fetched: bool)
      modifies this
      ensures fetched == !SkipsFetch(now, old(lastFetchedAt))
      ensures State() == Visit(old(State()), now, reply, repliedAt)
    {
      if now - lastFetchedAt > RefreshWindowMs {
        return false;
      }
      fetched := true;
      if reply.Json? && reply.value.Some? {
        lastFetchedAt, value := repliedAt, reply.value;
      }
    }

    /** The `Layers` effect with the intended guard. */
    method RefreshWhenStale(now: int, reply: Reply, repliedAt: int) returns (fetched: bool)
      modifies this
      ensures fetched == !SkipsFetchIntended(now, old(State()))
      ensures State() == VisitIntended(old(State()), now, reply, repliedAt)
    {
      if value.Some? && now - lastFetchedAt <= RefreshWindowMs {
        return false;
      }
      fetched := true;
      if reply.Json? && reply.value.Some? {
        lastFetchedAt, value := repliedAt, reply.value;
      }
    }
  }
}

# Orora aurora forecast: a Dafny model

This project models the logic at the heart of Orora, a web application for
tracking and sharing aurora sightings.

The centre is the **aurora-forecast transform**. A gridded forecast document
holds `[longitude, latitude, intensity]` arrays. The transform turns it into a
GeoJSON FeatureCollection of Point features (RFC 7946: section 3.3 for the
collection, section 3.2 for a feature, section 3.1.2 for a point, with
longitude before latitude as section 3.1.1 requires). The repository has three
independent versions of it:

- the scheduled Supabase function, which drops cells whose intensity is exactly zero
  and stamps every feature with the document's observation and forecast times;
- `scripts/parse2.js`, which keeps every cell and stamps the times;
- `scripts/parse.js`, which keeps every cell and records only the intensity.

Each is a loop that pushes one feature per kept cell. Each is modelled as a
Dafny method with that loop, proved equal to a specification function. Lemmas
about those functions give the count, the order, the verbatim copying and the
zero filter. Further lemmas relate the three versions: the filtered output is
the unfiltered one without zero intensities, and the time-free output is the
timestamped one with the two times removed.

The scheduled function then publishes its output. It fetches the document,
deletes the old artifact and uploads the new one. This is modelled as a method
over a `Bucket` class, which holds the stored objects and the log of store
requests. The fetch, delete and upload outcomes are parameters.

Around the transform, the model covers these smaller rules of the app:

- the space-data panel: linear range mapping, Kp-index wording and cloud-cover wording;
- the map: viewport bounding box, viewport filter of sightings, and the persisted
  five-minute forecast cache;
- the sighting router: input validation, the stored row, and the search and ordering of `getLatest`;
- the avatar initials;
- the photo downscale arithmetic and the coordinate fallback of a submission.

Files: `wrappers.dfy` holds Option and Result. `geojson.dfy` holds the GeoJSON
value types and the JavaScript array-slot read `At`. `user_position.dfy` holds
the geolocation fix. Every other file models one source file:

- `parse_script.dfy` models `scripts/parse.js`;
- `parse2_script.dfy` models `scripts/parse2.js`;
- `update_aurora_oval.dfy` models `supabase/functions/update-aurora-oval/index.ts`;
- `space_data_table.dfy` models `src/app/_components/map/space-data-table.tsx`;
- `aurora_map.dfy` models `src/app/_components/map/index.tsx`;
- `aurora_router.dfy` models `src/server/api/routers/aurora.ts`;
- `avatar.dfy` models `src/app/_components/auth/avatar.tsx`;
- `submit_sighting.dfy` models `src/app/_components/map/submit-sighting.tsx`.

Behaviour of the source that the model keeps as written:

- **A short coordinate array is not an error.** Its missing slots read as
  `undefined`, and `undefined !== 0` keeps it in the filtered output. `At`
  models the slot read.
- **A body the conversion throws on answers 500.** Such a body has a
  `coordinates` that is not an array, or a null entry. The 500 comes before
  any store request, as for a failed fetch.
- **A failed upload can leave no artifact.** The old artifact is deleted before
  the upload. So when the delete succeeds and the upload fails, nothing is
  left at `aurora_forecast.geojson`. `Serve` states this.
- **The transform exists three times.** The scheduled function, `scripts/parse2.js`
  and `scripts/parse.js` each carry their own copy. Each is modelled on its
  own, and lemmas relate them.
- **The cache guard is inverted.** The client cache skips its fetch once the
  five-minute window *has* passed, not while it has not. See Findings.
- **The cache stores any truthy JSON.** The client never checks the response
  status, so an error body is cached like a forecast. `Payload` and
  `ErrorBodyIsCached` model this.

## Model

| member | source | states |
|---|---|---|
| `Parse2Script.TimedFeatures` | scripts/parse2.js:19-33 | One feature per coordinate array, in input order. Feature i has geometry `[coord_i[0], coord_i[1]]` and `aurora` equal to `coord_i[2]`, copied verbatim, zeros included. Every feature carries the document's "Observation Time" and "Forecast Time". |
| `Parse2Script.ConvertToGeoJson` | scripts/parse2.js:6-36 | The push loop builds exactly `TimedFeatures` of the document. The output length equals the input length, and an empty `coordinates` gives an empty `features`. |
| `ParseScript.IntensityFeatures` | scripts/parse.js:10-21 | One feature per `[lon, lat, aurora]`, in input order. Its geometry is `[lon, lat]` and its only property is `aurora`. |
| `ParseScript.ConvertToGeoJson` | scripts/parse.js:5-21 | The module-level push loop builds exactly `IntensityFeatures`. An empty input gives an empty `features`. |
| `ParseScript.IntensityFeaturesDropTimes` | scripts/parse.js:10-21 | This output equals the `scripts/parse2.js` output with `observationTime` and `forecastTime` removed from every feature. |
| `UpdateAuroraOval.RetainedFeatures` | supabase/functions/update-aurora-oval/index.ts:18-33 | The output is never longer than the input. Every feature is timestamped with the document's two times, and no feature has `aurora` equal to 0. |
| `UpdateAuroraOval.ConvertToGeoJson` | supabase/functions/update-aurora-oval/index.ts:8-37 | The loop with its `coord[2] !== 0` test builds exactly `RetainedFeatures`. An empty `coordinates` gives an empty `features`. |
| `UpdateAuroraOval.RetainedFeaturesAppend` | supabase/functions/update-aurora-oval/index.ts:18-33 | The filter distributes over concatenation, so features keep their triples' relative order. |
| `UpdateAuroraOval.RetainedCount` | supabase/functions/update-aurora-oval/index.ts:18-19 | The number of features equals the number of input arrays whose third element is not 0. |
| `UpdateAuroraOval.RetainedFeatureAt` | supabase/functions/update-aurora-oval/index.ts:18-32 | A kept triple at position i gives the feature at position "number of kept triples before i". That feature's geometry is `[coord[0], coord[1]]` and its `aurora` is `coord[2]`, copied verbatim. |
| `UpdateAuroraOval.RetainedOrder` | supabase/functions/update-aurora-oval/index.ts:18-32 | When kept triple i comes before position j, the features of i precede those of j. |
| `UpdateAuroraOval.RetainedMembership` | supabase/functions/update-aurora-oval/index.ts:18-33 | A feature is in the output if and only if some triple with intensity other than exactly 0 yields it. Negative, large and undefined intensities are kept. |
| `UpdateAuroraOval.RetainedIsUnfilteredWithoutZeros` | supabase/functions/update-aurora-oval/index.ts:17-33 | The scheduled function's output is the `scripts/parse2.js` output restricted to features whose `aurora` is not 0. |
| `UpdateAuroraOval.DecimalString` | supabase/functions/update-aurora-oval/index.ts:52 | A status code prints as a non-empty string of decimal digits. |
| `UpdateAuroraOval.DecimalRoundTrip` | supabase/functions/update-aurora-oval/index.ts:52 | The status printed into the HTTP error message reads back as the same number. |
| `UpdateAuroraOval.FetchedDocument` | supabase/functions/update-aurora-oval/index.ts:50-57 | The fetch yields a document if and only if the response status is in 200-299, its body parses and the conversion accepts it. A non-ok status fails with "HTTP error! status: " followed by the status. A network, parse or conversion failure fails with that error's own message. |
| `UpdateAuroraOval.Bucket.Remove` | supabase/functions/update-aurora-oval/index.ts:61-63 | `remove` logs the request. On success the paths are gone; on failure the objects are unchanged and the error is returned. |
| `UpdateAuroraOval.Bucket.Upload` | supabase/functions/update-aurora-oval/index.ts:71-76 | `upload` logs the request. On success it stores the content at the path and returns the path; on failure nothing changes. |
| `UpdateAuroraOval.Serve` | supabase/functions/update-aurora-oval/index.ts:39-102 | A failed fetch, or a body the conversion throws on, gives 500 with the error's message, with no store request made and no object changed. Otherwise it makes exactly one delete, then one upload of the filtered collection to `aurora_forecast.geojson` (`application/geo+json`, cache `3600`). A delete failure changes nothing else. A successful upload gives 201 with the path, and the artifact replaces the old one. A failed upload gives 500 "Failed to upload the file: …", and the artifact is gone if the delete succeeded. |
| `SpaceDataTable.MapRangeInterpolates` | src/app/_components/map/space-data-table.tsx:95-103 | `mapRange` sends `inMin` to `outMin` and `inMax` to `outMax`. A point a fraction t along the input range goes a fraction t along the output range. |
| `SpaceDataTable.WaveHeightRange` | src/app/_components/map/space-data-table.tsx:204 | The wave height is `0.16 * cover - 4`. A cover of 0 maps to -4 and 100 maps to 12, and any cover in [0, 100] maps into [-4, 12]. |
| `SpaceDataTable.FindFrom` | src/app/_components/map/space-data-table.tsx:143-144 | The `find` returns the first position p with `kpi < p + 1`: every earlier position fails the test. It returns nothing only when kpi ≥ 10. |
| `SpaceDataTable.KpIndexDescription` | src/app/_components/map/space-data-table.tsx:105-147 | The result is always one of the ten description texts. |
| `SpaceDataTable.KpIndexDescriptionByBand` | src/app/_components/map/space-data-table.tsx:143-146 | The text is the description at position i when i ≤ kpi < i + 1, for i in 1..8. Any kpi below 1, negatives included, gives position 0, and any kpi of 9 or more gives the last position. |
| `SpaceDataTable.ThresholdsArePositions` | src/app/_components/map/space-data-table.tsx:106-141 | Each row's `threshold` equals its position, so selecting by position, which never reads `threshold`, picks the row its threshold names. |
| `SpaceDataTable.CloudCoverageWording` | src/app/_components/map/space-data-table.tsx:188-199 | With no position: "Enable GPS location". With cover > 50: "a bit too high to be fair". With 0 ≤ cover ≤ 50: "you should be able to see it". With a negative or undefined cover: "no". Each wording holds if and only if its condition does. |
| `AuroraMap.OffsetClosedForm` | src/app/_components/map/index.tsx:116 | The offset is 180 / 2^zoom degrees, and it is positive. |
| `AuroraMap.OffsetHalves` | src/app/_components/map/index.tsx:116 | Increasing zoom by 1 halves the offset. |
| `AuroraMap.GetBoundingBox` | src/app/_components/map/index.tsx:112-124 | The box is centred on the viewport. Both axes have the same width, and that width is 360 / 2^zoom degrees. |
| `AuroraMap.WithinBox` | src/app/_components/map/index.tsx:166-174 | The viewport filter never adds sightings. |
| `AuroraMap.WithinBoxAppend` | src/app/_components/map/index.tsx:166-174 | The viewport filter distributes over concatenation, so it keeps the sightings' order. |
| `AuroraMap.WithinBoxMembers` | src/app/_components/map/index.tsx:166-174 | A sighting passes the filter if and only if minLon ≤ lon ≤ maxLon and minLat ≤ lat ≤ maxLat (bounds included). |
| `AuroraMap.Sightings` | src/app/_components/map/index.tsx:159-197 | Missing data gives an empty list. With a position, every sighting is returned in order with a distance, and none is dropped by the viewport. |
| `AuroraMap.UnpositionedSightings` | src/app/_components/map/index.tsx:166-196 | Without a position, a sighting is shown if and only if it lies inside the bounding box, and it is always shown with `distance` undefined. |
| `AuroraMap.StaleCacheNeverRefreshes` | src/app/_components/map/index.tsx:47-65 | As written: when mounts come in time order and the first one finds the stamp more than 300000 ms old, the cache never changes again, whatever the later fetches return. |
| `AuroraMap.StaleCacheCounterexample` | src/app/_components/map/index.tsx:48-50 | An empty cache six minutes old stays empty as written, and it is filled under the intended guard. |
| `AuroraMap.IntendedThrottles` | src/app/_components/map/index.tsx:48-50 | Under the intended guard, a cached value is never refetched within the five-minute window. |
| `AuroraMap.IntendedRefreshesWhenStale` | src/app/_components/map/index.tsx:48-61 | Under the intended guard, an empty or stale cache is refilled by the first truthy reply. |
| `AuroraMap.ErrorBodyIsCached` | src/app/_components/map/index.tsx:52-61 | The response status is never checked. Inside the window, a truthy error body replaces the cached value and restarts the window, and the intended guard behaves the same when the cache is empty or stale. |
| `AuroraMap.ForecastCache.constructor` | src/app/_components/map/index.tsx:37-42 | The atom's default state is stamped with its creation time and holds no value. |
| `AuroraMap.ForecastCache.Refresh` | src/app/_components/map/index.tsx:47-65 | The request is sent exactly when now − lastFetchedAt ≤ 300000. A truthy reply stores the value and stamps the reply time. A failure or a falsy reply changes nothing. |
| `AuroraMap.ForecastCache.RefreshWhenStale` | src/app/_components/map/index.tsx:47-65 | The corrected effect: the request is sent unless a cached value is still fresh. |
| `AuroraRouter.Issues` | src/server/api/routers/aurora.ts:12-19 | The input is accepted if and only if latitude is in [-90, 90], longitude is in [-180, 180], location has length 1..100, and an image id is present. Each range issue is reported exactly when its bound is broken. |
| `AuroraRouter.ImageUrlRoundTrip` | src/server/api/routers/aurora.ts:26 | The image URL is `SUPABASE_URL + "/storage/v1/object/public/rora-images/public/sighting_" + imageId + ".webp"`, and the image id can be read back from it. |
| `AuroraRouter.Row` | src/server/api/routers/aurora.ts:21-29 | The stored row copies latitude, longitude and location verbatim. Its status is always `pending`, its userId is the caller's, its createdAt is the current time, and its URL holds the image id. |
| `AuroraRouter.SubmissionTable.Submit` | src/server/api/routers/aurora.ts:11-35 | An anonymous caller is refused and an invalid input is rejected with its issues, both with the table unchanged. Otherwise exactly one row is appended and the confirmation message is returned. |
| `AuroraRouter.LikePattern` | src/server/api/routers/aurora.ts:42 | With no search text, the pattern is the literal `%undefined%`. |
| `AuroraRouter.ContainsIffOccurs` | src/server/api/routers/aurora.ts:41-42 | The `%text%` match holds if and only if some slice of the location equals the text. |
| `AuroraRouter.Matching` | src/server/api/routers/aurora.ts:40-42 | Exactly the rows whose location contains the text are kept, each exactly as often as in the table and every other row not at all. |
| `AuroraRouter.SortNewestFirst` | src/server/api/routers/aurora.ts:43 | The ordering is by createdAt descending, and it is a permutation of its input. |
| `AuroraRouter.GetLatest` | src/server/api/routers/aurora.ts:37-47 | `getLatest` returns exactly the matching rows, each exactly as often as in the table, ordered by createdAt descending. |
| `Avatar.ToUpper` | src/app/_components/auth/avatar.tsx:14 | ASCII a-z become A-Z, every other character is kept, and the result is never a lower-case letter. |
| `Avatar.GetFirstLetter` | src/app/_components/auth/avatar.tsx:13-15 | The result is "" for a missing or empty name, and otherwise the upper-cased first character. |
| `Avatar.FirstLetterOnlyReadsHead` | src/app/_components/auth/avatar.tsx:14 | Two names with the same first character give the same letter. |
| `Avatar.Caps` | src/app/_components/auth/avatar.tsx:21 | The first-name initial comes first and the last-name initial last. The result has at most two characters and no lower-case letter, and it is empty without a user. |
| `SubmitSighting.RoundedScale` | src/app/_components/map/submit-sighting.tsx:26-29 | When downscaling, the new height is the nearest whole number to height · maxWidth / width, with halves rounded up as `Math.round` does. It is never negative and never above the original height. |
| `SubmitSighting.Downscale` | src/app/_components/map/submit-sighting.tsx:14-29 | `maxWidth` defaults to 1920. If width ≤ maxWidth, the size is unchanged. Otherwise the width becomes maxWidth and the height becomes round(height · maxWidth / width), at most the original. The resulting width never exceeds maxWidth. |
| `SubmitSighting.SubmissionInput` | src/app/_components/map/submit-sighting.tsx:123-128 | With no position the submission uses latitude 0 and longitude 0. Otherwise it uses the position's coordinates. |
| `SubmitSighting.FallbackPassesRangeChecks` | src/app/_components/map/submit-sighting.tsx:125-126 | The fallback (0, 0) always passes the router's coordinate checks, so only the location and the image id decide acceptance. |

## Left out

- Network I/O is not modelled: the forecast fetch, the Supabase client and its environment variables, and the storage calls. Their outcomes are parameters: `Fetched`, and the failure arguments of `Remove`, `Upload` and `Serve`. The `geojsons` bucket is the `Bucket` object.
- JSON text is not modelled: `JSON.parse`, `JSON.stringify` and its indentation. Documents and collections are structured values, and the uploaded object is the collection itself rather than its text.
- Response headers, the `createClient` call, and the handler's logging are not modelled. The logging is the `console.log` of a delete error (index.ts:66) and the `console.error` in the catch (index.ts:93).
- The scripts' `fs` reads and writes and `console.log` are not modelled. `scripts/parse.js` is modelled from its `coordinates` array onward.
- RetainedFeatures: coordinate slots are numbers or undefined. A slot holding another JSON value, such as the string `"0"`, `true` or an array, passes `!== 0` and is copied into the feature; these values are not modelled. The same holds for `TimedFeatures` and `IntensityFeatures`, where such slots are copied unfiltered. A `coordinates` that is not an array, or a null entry, is modelled only as the `Unconvertible` body; the two scripts would stop with that error.
- Floating point is not modelled: numbers are reals, so NaN, infinities and IEEE rounding are out. A real has no negative zero; JavaScript's `-0 !== 0` is false, so dropping -0 agrees with dropping 0.
- MapRangeInterpolates: requires inMin ≠ inMax. With equal bounds, JavaScript divides by zero and gives an infinity or NaN, which is floating point and not modelled. An undefined cloud cover passed to `mapRange` gives NaN and is left out for the same reason.
- GetBoundingBox: zoom is a whole number. `Math.pow` with a fractional zoom is not modelled.
- Payload: an error body that is truthy JSON is kept only as its text. A body that is not JSON makes `res.json()` reject, which is `FetchFailed`.
- Sightings: the turf geodesic distance and its `Math.round(d * 100) / 100` are the function parameter `distanceKm`, not computed. The `!viewState` test is left out because the view state atom always holds a value.
- The map's render conditions (`zoom > 3`, `zoom < 3`), markers, dialogs and layer styling are UI and are not modelled.
- ForecastCache: persistence in browser storage is not modelled; the object stands for the persisted atom. The render-time `data &&` guard is UI.
- ForecastCache: the model assumes each run of the effect reads the persisted stamp. Suppose instead the storage atom renders its default first and loads the stored value only after mounting. Then the first run after each page load reads the default, stamped at module load (index.tsx:41), because the effect's only dependency is `setData` (index.tsx:65). That run fetches only if its mount comes within 300000 ms of the page load. `Layers` mounts only once the view is zoomed out below 3 (index.tsx:259), and the view starts at zoom 3 (index.tsx:129). In that case `StaleCacheNeverRefreshes` describes only runs that see the stored stamp.
- GetLatest: SQL `LIKE` is modelled as a plain substring test, so `%` and `_` inside the search text are not wildcards. The database's order among rows with equal `createdAt` is unspecified, and the model keeps table order.
- The `since` argument the map passes to `getLatest` is not part of its input schema and is dropped, so it is not modelled. The `?? null` fallback on the query result is not modelled.
- Submit: the database-assigned `id`, database failures such as the `user_id` foreign key, and the `console.log` of the insert result are not modelled.
- Issues: the location's length is counted in Unicode scalar values, but zod's `.min(1).max(100)` counts UTF-16 code units. A location of 100 characters outside the Basic Multilingual Plane (emoji, say) has JavaScript length 200 and is rejected as too big, while the model accepts it.
- GetFirstLetter: `name?.[0]` takes the first UTF-16 code unit, which for a character outside the Basic Multilingual Plane is a lone surrogate. The model takes the whole first character.
- Avatar.ToUpper: only ASCII letters are upper-cased. Full Unicode `toUpperCase` (for example "ß" to "SS") is not modelled, so the two-character bound is proved for this ASCII model only.
- Downscale: camera capture, canvas drawing, WebP encoding, the `quality` setting and image-load errors are not modelled. The upload request in `handleSubmit` and its logging are not modelled either.
- Concurrency is not modelled: overlapping scheduled runs and the window between delete and upload are external scheduling concerns.
- The other UI components (chat, drawer, page layout, welcome, navigation, sign-in, the geolocation permission flow) are not part of this model.

## Findings

| source | as written | input that shows it | evidently intended | confidence | as-written member | corrected member |
|---|---|---|---|---|---|---|
| src/app/_components/map/index.tsx:48-50 | The effect returns early when `now - lastFetchedAt > 300000`. `lastFetchedAt` only moves on a successful fetch. So once the stamp a run reads is five minutes old, no later run that reads the stored stamp fetches again. A run that reads the atom's default before the stored value loads fetches only if that mount comes within 300000 ms of the page load (see Left out, ForecastCache). | Stored state `{lastFetchedAt: 0, value: undefined}`, then a mount at 360000 ms with a valid reply: the value stays undefined, on that mount and on every later one that reads the stored state. | Skip the fetch only while a cached value is younger than 300000 ms, and fetch otherwise. | medium; not executed | `AuroraMap.StaleCacheNeverRefreshes` | `AuroraMap.ForecastCache.RefreshWhenStale` |

`AuroraMap.StaleCacheCounterexample` is the concrete run. `AuroraMap.IntendedThrottles` and `AuroraMap.IntendedRefreshesWhenStale` prove the intended guard's two promises: no refetch while fresh, and a refill when empty or stale.

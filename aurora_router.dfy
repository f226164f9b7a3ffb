/**
 * src/server/api/routers/aurora.ts: the sighting router. `submit` validates
 * a sighting and appends a row to the submissions table; `getLatest` returns
 * the rows whose location contains the search text, newest first.
 */
module AuroraRouter {
  import opened Wrappers

  datatype Status = Pending | Approved | Rejected

  /** A row of the submissions table (the database-assigned `id` is not modelled). */
  datatype Submission = Submission(
    userId: string,
    latitude: real,
    longitude: real,
    location: string,
    imageUrl: string,
    status: Status,
    createdAt: int)

  /** The `submit` input as sent; a missing string member is `None`. */
  datatype SubmitInput = SubmitInput(latitude: real, longitude: real, location: Option<string>, imageId: Option<string>)

  datatype Field = Latitude | Longitude | Location | ImageId

  /** A validation issue of the input schema. */
  datatype Issue = TooSmall(field: Field) | TooBig(field: Field) | Required(field: Field)

  /** What the input schema demands. */
  predicate Accepts(input: SubmitInput)
  {
    && -90.0 <= input.latitude <= 90.0
    && -180.0 <= input.longitude <= 180.0
    && input.location.Some? && 1 <= |input.location.value| <= 100
    && input.imageId.Some?
  }

  /** The schema's issues, member by member in declaration order; none exactly when the input is accepted. */
  function Issues(input: SubmitInput): (issues: seq<Issue>)
    ensures issues == [] <==> Accepts(input)
    ensures |issues| <= 4
    ensures (TooSmall(Latitude) in issues <==> input.latitude < -90.0) && (TooBig(Latitude) in issues <==> input.latitude > 90.0)
    ensures (TooSmall(Longitude) in issues <==> input.longitude < -180.0) && (TooBig(Longitude) in issues <==> input.longitude > 180.0)
  {
    (if input.latitude < -90.0 then [TooSmall(Latitude)] else if input.latitude > 90.0 then [TooBig(Latitude)] else [])
    + (if input.longitude < -180.0 then [TooSmall(Longitude)] else if input.longitude > 180.0 then [TooBig(Longitude)] else [])
    + (match input.location
       case None => [Required(Location)]
       case Some(s) => if |s| < 1 then [TooSmall(Location)] else if |s| > 100 then [TooBig(Location)] else [])
    + (if input.imageId.None? then [Required(ImageId)] else [])
  }

  const ImagePath := "/storage/v1/object/public/rora-images/public/sighting_"
  const ImageExtension := ".webp"

  /** The public URL of a sighting's uploaded image. */
  function ImageUrl(supabaseUrl: string, imageId: string): string
  {
    supabaseUrl + ImagePath + imageId + ImageExtension
  }

  /** Reads the image id back out of a URL built by `ImageUrl` for the same base URL. */
  function ImageIdOf(supabaseUrl: string, url: string): Option<string>
  {
    var prefix := supabaseUrl + ImagePath;
    if |url| >= |prefix| + |ImageExtension|
       && url[..|prefix|] == prefix
       && url[|url| - |ImageExtension|..] == ImageExtension
    then Some(url[|prefix|..|url| - |ImageExtension|])
    else None
  }

  /** The image id is recoverable from the stored URL. */
  lemma ImageUrlRoundTrip(supabaseUrl: string, imageId: string)
    ensures ImageIdOf(supabaseUrl, ImageUrl(supabaseUrl, imageId)) == Some(imageId)
  {
    var prefix := supabaseUrl + ImagePath;
    var url := ImageUrl(supabaseUrl, imageId);
    assert url == prefix + imageId + ImageExtension;
    assert url[..|prefix|] == prefix;
    assert url[|url| - |ImageExtension|..] == ImageExtension;
    assert url[|prefix|..|url| - |ImageExtension|] == imageId;
  }

  /** The row `submit` inserts for an accepted input. */
  function Row(userId: string, input: SubmitInput, now: int, supabaseUrl: string): (row: Submission)
    requires Accepts(input)
    ensures row.latitude == input.latitude && row.longitude == input.longitude
    ensures row.location == input.location.value
    ensures row.status == Pending && row.userId == userId && row.createdAt == now
    ensures ImageIdOf(supabaseUrl, row.imageUrl) == Some(input.imageId.value)
  {
    ImageUrlRoundTrip(supabaseUrl, input.imageId.value);
    Submission(userId, input.latitude, input.longitude, input.location.value,
               ImageUrl(supabaseUrl, input.imageId.value), Pending, now)
  }

  const SubmittedMessage := "Aurora moment submitted succesfully"

  datatype SubmitError = Unauthorized | BadRequest(issues: seq<Issue>)

  /** The submissions table. */
  class SubmissionTable {
    var rows: seq<Submission>

    constructor ()
      ensures rows == []
    {
      rows := [];
    }

    /**
     * `submit`: a protected procedure, so an anonymous caller is refused
     * first; then the input is validated; then one pending row is appended.
     */
    method Submit(callerId: Option<string>, input: SubmitInput, now: int, supabaseUrl: string)
      returns (result: Result<string, SubmitError>)
      modifies this
      ensures callerId.None? ==> result == Err(Unauthorized) && rows == old(rows)
      ensures callerId.Some? && !Accepts(input) ==> result == Err(BadRequest(Issues(input))) && rows == old(rows)
      ensures callerId.Some? && Accepts(input) ==>
        result == Ok(SubmittedMessage) && rows == old(rows) + [Row(callerId.value, input, now, supabaseUrl)]
    {
      if callerId.None? {
        return Err(Unauthorized);
      }
      var issues := Issues(input);
      if issues != [] {
        return Err(BadRequest(issues));
      }
      rows := rows + [Row(callerId.value, input, now, supabaseUrl)];
      result := Ok(SubmittedMessage);
    }
  }

  /** `${input.search}`: an absent search text prints as "undefined". */
  function SearchText(search: Option<string>): string
  {
    search.GetOr("undefined")
  }

  /** The LIKE pattern `%${input.search}%`. */
  function LikePattern(search: Option<string>): (pattern: string)
    ensures search.None? ==> pattern == "%undefined%"
  {
    "%" + SearchText(search) + "%"
  }

  predicate IsPrefix(prefix: string, text: string)
  {
    |prefix| <= |text| && text[..|prefix|] == prefix
  }

  /** `text` has `needle` at some offset (the `%needle%` pattern, ignoring wildcards inside the needle). */
  predicate Contains(text: string, needle: string)
    decreases |text|
  {
    IsPrefix(needle, text) || (|text| > 0 && Contains(text[1..], needle))
  }

  /** The slice of `text` starting at `offset` spells `needle`. */
  predicate OccursAt(text: string, needle: string, offset: nat)
  {
    offset + |needle| <= |text| && text[offset..offset + |needle|] == needle
  }

  /** `Contains` agrees with "some slice of the text equals the needle". */
  lemma {:induction false} ContainsIffOccurs(text: string, needle: string)
    ensures Contains(text, needle) <==> exists offset: nat :: OccursAt(text, needle, offset)
  {
    if IsPrefix(needle, text) {
      assert OccursAt(text, needle, 0);
    } else if |text| > 0 {
      ContainsIffOccurs(text[1..], needle);
      if exists offset: nat :: OccursAt(text[1..], needle, offset) {
        var offset: nat :| OccursAt(text[1..], needle, offset);
        assert text[offset + 1..offset + 1 + |needle|] == text[1..][offset..offset + |needle|];
        assert OccursAt(text, needle, offset + 1);
      }
      if exists offset: nat :: OccursAt(text, needle, offset) {
        var offset: nat :| OccursAt(text, needle, offset);
        assert offset != 0;
        assert text[1..][offset - 1..offset - 1 + |needle|] == text[offset..offset + |needle|];
        assert OccursAt(text[1..], needle, offset - 1);
      }
    }
  }

  /** The rows whose location contains `needle`, in table order. */
  function Matching(rows: seq<Submission>, needle: string): (matching: seq<Submission>)
    ensures forall s :: s in matching <==> s in rows && Contains(s.location, needle)
    ensures multiset(matching) <= multiset(rows)
    ensures forall s :: multiset(matching)[s] == if Contains(s.location, needle) then multiset(rows)[s] else 0
  {
    if rows == [] then []
    else
      var last := |rows| - 1;
      assert rows == rows[..last] + [rows[last]];
      Matching(rows[..last], needle) + (if Contains(rows[last].location, needle) then [rows[last]] else [])
  }

  /** Newest first: `createdAt` never increases along the sequence. */
  predicate NewestFirst(rows: seq<Submission>)
  {
    forall i, j :: 0 <= i < j < |rows| ==> rows[i].createdAt >= rows[j].createdAt
  }

  /** Puts `row` into newest-first `sorted`, ahead of the rows no newer than it. */
  function Insert(row: Submission, sorted: seq<Submission>): (r: seq<Submission>)
    requires NewestFirst(sorted)
    ensures NewestFirst(r)
    ensures multiset(r) == multiset(sorted) + multiset{row}
    ensures |r| == |sorted| + 1
    ensures r[0] == row || (sorted != [] && r[0] == sorted[0])
  {
    if sorted == [] || row.createdAt >= sorted[0].createdAt then
      [row] + sorted
    else
      assert sorted == [sorted[0]] + sorted[1..];
      [sorted[0]] + Insert(row, sorted[1..])
  }

  /** Orders rows by `createdAt`, newest first, keeping every row. */
  function SortNewestFirst(rows: seq<Submission>): (sorted: seq<Submission>)
    ensures NewestFirst(sorted)
    ensures multiset(sorted) == multiset(rows)
  {
    if rows == [] then []
    else
      assert rows == [rows[0]] + rows[1..];
      Insert(rows[0], SortNewestFirst(rows[1..]))
  }

  /**
   * `getLatest`: exactly the rows whose location contains the search text
   * ("undefined" when none is given), each as often as in the table, newest
   * first.
   */
  function GetLatest(rows: seq<Submission>, search: Option<string>): (latest: seq<Submission>)
    ensures NewestFirst(latest)
    ensures multiset(latest) == multiset(Matching(rows, SearchText(search)))
    ensures forall s :: multiset(latest)[s] == if Contains(s.location, SearchText(search)) then multiset(rows)[s] else 0
    ensures forall s :: s in latest <==> s in rows && Contains(s.location, SearchText(search))
  {
    var latest := SortNewestFirst(Matching(rows, SearchText(search)));
    assert forall s :: s in latest <==> s in multiset(latest);
    latest
  }
}

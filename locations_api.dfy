/** The location endpoints: batch lookup by zip code and search by city, state or area. */
module LocationsApi {
  import opened Wrappers
  import opened Entities
  import opened Http

  const NoZipCodesMessage: string := "No zip codes provided."

  /** The response entries that are not null, in the order the service sent them. */
  function NonNull(entries: seq<Option<Location>>): (r: seq<Location>)
    ensures |r| <= |entries|
    ensures forall x :: x in r <==> Some(x) in entries
    ensures |r| == |entries| <==> None !in entries
  {
    if entries == [] then []
    else
      var tail := NonNull(entries[1..]);
      assert forall x :: Some(x) in entries <==> entries[0] == Some(x) || Some(x) in entries[1..];
      match entries[0]
      case Some(loc) => [loc] + tail
      case None => tail
  }

  /** Filtering distributes over concatenation, so the server's order is kept. */
  lemma {:induction false} NonNullAppend(a: seq<Option<Location>>, b: seq<Option<Location>>)
    ensures NonNull(a + b) == NonNull(a) + NonNull(b)
  {
    if a != [] {
      assert (a + b)[0] == a[0] && (a + b)[1..] == a[1..] + b;
      NonNullAppend(a[1..], b);
      match a[0]
      case Some(loc) =>
        assert NonNull(a + b) == [loc] + NonNull(a[1..] + b);
        assert NonNull(a) == [loc] + NonNull(a[1..]);
      case None =>
    } else {
      assert a + b == b;
    }
  }

  /**
   * `fetchLocations`: a missing or empty zip list throws before any request is sent; otherwise
   * the zips are posted to `/locations` and the null entries of the answer are dropped.
   */
  function FetchLocations(zipCodes: Option<seq<string>>, api: Backend): (r: Exchange<seq<Location>>)
    ensures (zipCodes.None? || zipCodes.value == []) <==> r.sent == []
    ensures (zipCodes.None? || zipCodes.value == []) ==> r.result == Err(ErrorObject(NoZipCodesMessage))
    ensures zipCodes.Some? && zipCodes.value != [] ==>
      && r.sent == [Post("/locations", StringList(zipCodes.value))]
      && (r.result.Ok? <==> api.locations(zipCodes.value).Ok?)
      && (r.result.Ok? ==> r.result.value == NonNull(api.locations(zipCodes.value).value))
      && (r.result.Err? ==> r.result.failure == api.locations(zipCodes.value).failure)
  {
    if zipCodes.None? || |zipCodes.value| == 0 then Exchange([], Err(ErrorObject(NoZipCodesMessage)))
    else
      var sent := [Post("/locations", StringList(zipCodes.value))];
      match api.locations(zipCodes.value)
      case Ok(entries) => Exchange(sent, Ok(NonNull(entries)))
      case Err(f) => Exchange(sent, Err(f))
  }

  const DefaultSize: int := 25

  /**
   * What the body of a location search holds for the given arguments: `size` always (25 when
   * absent), `city` only when it is a non-empty string, `states` and `geoBoundingBox` whenever
   * they are given (an empty list of states included), `from` only when it is not 0.
   */
  predicate BodyFor(body: LocationSearchBody, city: Option<string>, states: Option<seq<string>>,
                    geoBoundingBox: Option<GeoBoundingBox>, size: Option<int>, from: Option<int>)
  {
    && body.size == (if size.Some? then size.value else DefaultSize)
    && (body.city.Some? <==> TruthyOpt(city))
    && (body.city.Some? ==> body.city == city)
    && body.states == states
    && body.geoBoundingBox == geoBoundingBox
    && (body.from.Some? <==> from.Some? && from.value != 0)
    && (body.from.Some? ==> body.from == from)
  }

  /** The body `searchLocations` builds, starting from `{ size }` and adding the truthy fields. */
  method BuildSearchBody(city: Option<string>, states: Option<seq<string>>,
                         geoBoundingBox: Option<GeoBoundingBox>, size: Option<int>, from: Option<int>)
    returns (body: LocationSearchBody)
    ensures BodyFor(body, city, states, geoBoundingBox, size, from)
  {
    body := LocationSearchBody(if size.Some? then size.value else DefaultSize, None, None, None, None);
    if TruthyOpt(city) {
      body := body.(city := city);
    }
    if states.Some? {
      body := body.(states := states);
    }
    if geoBoundingBox.Some? {
      body := body.(geoBoundingBox := geoBoundingBox);
    }
    if from.Some? && from.value != 0 {
      body := body.(from := from);
    }
  }

  /** `searchLocations`: one POST of the built body to `/locations/search`. */
  method SearchLocations(city: Option<string>, states: Option<seq<string>>,
                         geoBoundingBox: Option<GeoBoundingBox>, size: Option<int>, from: Option<int>,
                         api: Backend)
    returns (r: Exchange<LocationPage>)
    ensures |r.sent| == 1 && r.sent[0].Post? && r.sent[0].path == "/locations/search"
    ensures r.sent[0].body.LocationQuery?
    ensures BodyFor(r.sent[0].body.query, city, states, geoBoundingBox, size, from)
    ensures r.result == api.locationSearch(r.sent[0].body.query)
  {
    var body := BuildSearchBody(city, states, geoBoundingBox, size, from);
    r := Exchange([Post("/locations/search", LocationQuery(body))], api.locationSearch(body));
  }
}

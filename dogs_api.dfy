/** The dog endpoints: search, detail batch, breed list and match. */
module DogsApi {
  import opened Wrappers
  import opened Entities
  import opened Http

  /** The path of the search endpoint, which is also how every server cursor begins. */
  const SearchPrefix: string := "/dogs/search"

  predicate StartsWith(s: string, prefix: string) {
    |prefix| <= |s| && s[..|prefix|] == prefix
  }

  /** `queryParams || ""` */
  function OrEmpty(o: Option<string>): (r: string)
    ensures r == "" <==> !TruthyOpt(o)
    ensures TruthyOpt(o) ==> r == o.value
  {
    if o.Some? then o.value else ""
  }

  /**
   * The path `fetchDogs` requests: a server cursor (an argument that already begins with the
   * search path) is used verbatim; any other argument is appended to the search path.
   */
  function SearchPath(queryParams: Option<string>): (url: string)
    ensures StartsWith(url, SearchPrefix)
    ensures |url| >= |OrEmpty(queryParams)|
  {
    if queryParams.Some? && StartsWith(queryParams.value, SearchPrefix) then queryParams.value
    else SearchPrefix + OrEmpty(queryParams)
  }

  /** A cursor is sent as it is. */
  lemma CursorVerbatim(cursor: string)
    requires StartsWith(cursor, SearchPrefix)
    ensures SearchPath(Some(cursor)) == cursor
  {
  }

  /** Any other argument is appended; absent or empty arguments give exactly the search path. */
  lemma QueryAppended(queryParams: Option<string>)
    requires !(queryParams.Some? && StartsWith(queryParams.value, SearchPrefix))
    ensures SearchPath(queryParams) == SearchPrefix + OrEmpty(queryParams)
    ensures !TruthyOpt(queryParams) ==> SearchPath(queryParams) == SearchPrefix
  {
  }

  /** Feeding a computed path back in changes nothing. */
  lemma SearchPathIdempotent(queryParams: Option<string>)
    ensures SearchPath(Some(SearchPath(queryParams))) == SearchPath(queryParams)
  {
  }

  /** `fetchDogs`: one GET of the computed path. */
  function FetchDogs(queryParams: Option<string>, api: Backend): (r: Exchange<SearchResponse>)
    ensures r.sent == [Get(SearchPath(queryParams))]
    ensures |r.sent| == 1 && r.sent[0].Get? && StartsWith(r.sent[0].path, SearchPrefix)
    ensures r.result == api.search(r.sent[0].path)
  {
    var url := SearchPath(queryParams);
    Exchange([Get(url)], api.search(url))
  }

  /** `fetchDogDetails`: one POST of the ids to `/dogs`. */
  function FetchDogDetails(ids: seq<string>, api: Backend): (r: Exchange<seq<Dog>>)
    ensures r.sent == [Post("/dogs", StringList(ids))]
    ensures r.result == api.details(ids)
  {
    Exchange([Post("/dogs", StringList(ids))], api.details(ids))
  }

  /** `fetchBreeds`: one GET of `/dogs/breeds`. */
  function FetchBreeds(api: Backend): (r: Exchange<seq<string>>)
    ensures r.sent == [Get("/dogs/breeds")]
    ensures r.result == api.breeds
  {
    Exchange([Get("/dogs/breeds")], api.breeds)
  }

  const NoFavoritesMessage: string := "No favorites selected"

  /**
   * `fetchMatch`: an empty id list throws before any request is sent; otherwise the ids are
   * posted to `/dogs/match` and the answer's `match` field is returned as it is.
   */
  function FetchMatch(favoriteIds: seq<string>, api: Backend): (r: Exchange<Option<string>>)
    ensures favoriteIds == [] <==> r.sent == []
    ensures favoriteIds == [] ==> r.result == Err(ErrorObject(NoFavoritesMessage))
    ensures favoriteIds != [] ==> r.sent == [Post("/dogs/match", StringList(favoriteIds))]
    ensures favoriteIds != [] ==> (r.result.Ok? <==> api.matchOf(favoriteIds).Ok?)
    ensures favoriteIds != [] && r.result.Ok? ==> r.result.value == api.matchOf(favoriteIds).value.matched
    ensures favoriteIds != [] && r.result.Err? ==> r.result.failure == api.matchOf(favoriteIds).failure
  {
    if |favoriteIds| == 0 then Exchange([], Err(ErrorObject(NoFavoritesMessage)))
    else
      var sent := [Post("/dogs/match", StringList(favoriteIds))];
      match api.matchOf(favoriteIds)
      case Ok(response) => Exchange(sent, Ok(response.matched))
      case Err(f) => Exchange(sent, Err(f))
  }
}

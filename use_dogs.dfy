/**
 * The search hook: the state of the search page and the operations that move it. Each awaited
 * call is answered by the `Backend`; each operation runs to completion before the next starts.
 */
module UseDogs {
  import opened Wrappers
  import opened Entities
  import opened Http
  import opened FormEncoding
  import opened DogsApi
  import opened LocationsApi

  // ---------------------------------------------------------------------------------------------
  // The search query.

  /** The position a search parameter takes in the query. */
  function KeyRank(key: string): int {
    if key == "breeds" then 0 else if key == "sort" then 1 else 2
  }

  /**
   * The parameters of a first-page search: `breeds`, `sort` and `zipCodes`, each present only
   * when its filter is a non-empty string, in that order.
   */
  function SearchParams(breed: Option<string>, sort: string, zip: Option<string>): (ps: seq<(string, string)>)
    ensures |ps| <= 3
    ensures forall i :: 0 <= i < |ps| ==> ps[i].0 in {"breeds", "sort", "zipCodes"}
    ensures forall i, j :: 0 <= i < j < |ps| ==> KeyRank(ps[i].0) < KeyRank(ps[j].0)
    ensures forall v :: ("breeds", v) in ps <==> TruthyOpt(breed) && v == breed.value
    ensures forall v :: ("sort", v) in ps <==> Truthy(sort) && v == sort
    ensures forall v :: ("zipCodes", v) in ps <==> TruthyOpt(zip) && v == zip.value
  {
    (if TruthyOpt(breed) then [("breeds", breed.value)] else [])
    + (if Truthy(sort) then [("sort", sort)] else [])
    + (if TruthyOpt(zip) then [("zipCodes", zip.value)] else [])
  }

  /** `` `?${params.toString()}` `` */
  function SearchQuery(breed: Option<string>, sort: string, zip: Option<string>): (q: string)
    ensures |q| >= 1 && q[0] == '?'
  {
    "?" + Serialize(SearchParams(breed, sort, zip))
  }

  /** The query carries exactly the filter parameters: parsing it back gives them, in order. */
  lemma SearchQueryParses(breed: Option<string>, sort: string, zip: Option<string>)
    ensures Parse(SearchQuery(breed, sort, zip)[1..]) == SearchParams(breed, sort, zip)
  {
    assert SearchQuery(breed, sort, zip)[1..] == Serialize(SearchParams(breed, sort, zip));
    ParseSerialize(SearchParams(breed, sort, zip));
  }

  /** A first-page query is never mistaken for a cursor: it is appended to the search path. */
  lemma SearchQueryPath(breed: Option<string>, sort: string, zip: Option<string>)
    ensures SearchPath(Some(SearchQuery(breed, sort, zip))) == SearchPrefix + SearchQuery(breed, sort, zip)
  {
    var q := SearchQuery(breed, sort, zip);
    assert q[0] != SearchPrefix[0];
  }

  /** Breed "Poodle", the default sort and no zip filter: the zip parameter is left out entirely. */
  lemma SearchParamsExample()
    ensures SearchParams(Some("Poodle"), DefaultSortOrder, None) == [("breeds", "Poodle"), ("sort", "breed:asc")]
  {
  }

  // ---------------------------------------------------------------------------------------------
  // Favorites.

  predicate NoDup(s: seq<string>) {
    forall i, j :: 0 <= i < j < |s| ==> s[i] != s[j]
  }

  /** `prev.filter(favId => favId !== id)` */
  function Without(s: seq<string>, id: string): (r: seq<string>)
    ensures forall x :: x in r <==> x in s && x != id
    ensures |r| <= |s|
    ensures NoDup(s) ==> NoDup(r)
    ensures id !in s ==> r == s
  {
    if s == [] then []
    else
      var tail := Without(s[1..], id);
      assert forall x :: x in s <==> x == s[0] || x in s[1..];
      if s[0] == id then tail
      else
        assert NoDup(s) ==> NoDup(s[1..]) && s[0] !in s[1..];
        [s[0]] + tail
  }

  /** `prev.includes(id) ? prev.filter(favId => favId !== id) : [...prev, id]` */
  function Toggle(favorites: seq<string>, id: string): (r: seq<string>)
    ensures forall x :: x != id ==> (x in r <==> x in favorites)
    ensures id in r <==> id !in favorites
    ensures id !in favorites ==> r == favorites + [id]
    ensures NoDup(favorites) ==> NoDup(r)
  {
    if id in favorites then Without(favorites, id) else favorites + [id]
  }

  /** Toggling an absent id twice restores the list exactly. */
  lemma ToggleTwiceAbsent(favorites: seq<string>, id: string)
    requires id !in favorites
    ensures Toggle(Toggle(favorites, id), id) == favorites
  {
    WithoutAppend(favorites, [id], id);
  }

  /** Toggling a present id twice restores the set of ids but moves `id` to the end. */
  lemma ToggleTwicePresent(favorites: seq<string>, id: string)
    requires id in favorites
    ensures Toggle(Toggle(favorites, id), id) == Without(favorites, id) + [id]
    ensures forall x :: x in Toggle(Toggle(favorites, id), id) <==> x in favorites
  {
  }

  lemma {:induction false} WithoutAppend(a: seq<string>, b: seq<string>, id: string)
    ensures Without(a + b, id) == Without(a, id) + Without(b, id)
  {
    if a == [] {
      assert a + b == b;
    } else {
      assert (a + b)[0] == a[0] && (a + b)[1..] == a[1..] + b;
      WithoutAppend(a[1..], b, id);
    }
  }

  // ---------------------------------------------------------------------------------------------
  // Pages of dogs.

  /** `list.some(d => d.id === id)` */
  predicate HasId(dogs: seq<Dog>, id: string) {
    exists i :: 0 <= i < |dogs| && dogs[i].id == id
  }

  predicate NoDupIds(dogs: seq<Dog>) {
    forall i, j :: 0 <= i < j < |dogs| ==> dogs[i].id != dogs[j].id
  }

  /** `page.filter(dog => !prev.some(d => d.id === dog.id))` */
  function NewOnly(prev: seq<Dog>, page: seq<Dog>): (r: seq<Dog>)
    ensures forall d :: d in r <==> d in page && !HasId(prev, d.id)
    ensures |r| <= |page|
    ensures NoDupIds(page) ==> NoDupIds(r)
    ensures (forall d :: d in page ==> HasId(prev, d.id)) ==> r == []
  {
    if page == [] then []
    else
      var tail := NewOnly(prev, page[1..]);
      assert forall d :: d in page <==> d == page[0] || d in page[1..];
      if HasId(prev, page[0].id) then tail
      else
        assert NoDupIds(page) ==> forall d :: d in tail ==> d.id != page[0].id;
        [page[0]] + tail
  }

  /** `[...prev, ...page.filter(dog => !prev.some(d => d.id === dog.id))]` */
  function AppendNew(prev: seq<Dog>, page: seq<Dog>): (r: seq<Dog>)
    ensures |prev| <= |r| && r[..|prev|] == prev
    ensures forall d :: d in r[|prev|..] <==> d in page && !HasId(prev, d.id)
    ensures forall d :: d in page ==> HasId(r, d.id)
    ensures r == prev + NewOnly(prev, page)
  {
    var added := NewOnly(prev, page);
    var r := prev + added;
    assert r[|prev|..] == added;
    assert forall d :: d in page && !HasId(prev, d.id) ==> d in r[|prev|..];
    r
  }

  /**
   * The filter keeps the page's order and its repeats: it distributes over concatenation, so the
   * kept dogs of a page are the kept dogs of each part, one part after the other.
   */
  lemma {:induction false} NewOnlyAppend(prev: seq<Dog>, a: seq<Dog>, b: seq<Dog>)
    ensures NewOnly(prev, a + b) == NewOnly(prev, a) + NewOnly(prev, b)
  {
    if a == [] {
      assert a + b == b;
    } else {
      assert (a + b)[0] == a[0];
      assert (a + b)[1..] == a[1..] + b;
      NewOnlyAppend(prev, a[1..], b);
    }
  }

  /** A duplicate-free list extended by a duplicate-free page stays duplicate-free. */
  lemma AppendNewNoDup(prev: seq<Dog>, page: seq<Dog>)
    requires NoDupIds(prev) && NoDupIds(page)
    ensures NoDupIds(AppendNew(prev, page))
  {
    var added := NewOnly(prev, page);
    var r := AppendNew(prev, page);
    assert r == prev + added;
    forall i, j | 0 <= i < j < |r| ensures r[i].id != r[j].id {
      if j >= |prev| && i < |prev| {
        assert r[j] in added;
      } else if i >= |prev| {
        assert r[i] == added[i - |prev|] && r[j] == added[j - |prev|];
      }
    }
  }

  /** Appending the same page twice adds nothing the second time. */
  lemma AppendNewIdempotent(prev: seq<Dog>, page: seq<Dog>)
    ensures AppendNew(AppendNew(prev, page), page) == AppendNew(prev, page)
  {
    var r := AppendNew(prev, page);
    assert NewOnly(r, page) == [];
    assert r + [] == r;
  }

  /** Only ids already in the list are filtered: a page that repeats a dog keeps the repetition. */
  lemma AppendNewKeepsRepeatsWithinPage(d: Dog)
    ensures AppendNew([], [d, d]) == [d, d]
  {
  }

  // ---------------------------------------------------------------------------------------------
  // Zip codes of a page.

  /** The position of the first occurrence of `x` in `xs`. */
  function FirstIndex(xs: seq<string>, x: string): (i: nat)
    requires x in xs
    ensures i < |xs| && xs[i] == x
    ensures forall j :: 0 <= j < i ==> xs[j] != x
  {
    if xs[0] == x then 0 else 1 + FirstIndex(xs[1..], x)
  }

  /**
   * `[...new Set(xs)]`: a `Set` iterates in insertion order, so the distinct values come in the
   * order of their first occurrences.
   */
  function Distinct(xs: seq<string>): (r: seq<string>)
    ensures NoDup(r)
    ensures forall x :: x in r <==> x in xs
    ensures |r| <= |xs|
  {
    if xs == [] then []
    else
      var init := Distinct(xs[..|xs| - 1]);
      var last := xs[|xs| - 1];
      assert forall x :: x in xs <==> x in xs[..|xs| - 1] || x == last;
      if last in init then init else init + [last]
  }

  /** A value's first occurrence does not move when elements are appended after it. */
  lemma FirstIndexPrefix(xs: seq<string>, n: nat, x: string)
    requires n <= |xs| && x in xs[..n]
    ensures FirstIndex(xs, x) == FirstIndex(xs[..n], x)
  {
    var k := FirstIndex(xs[..n], x);
    assert xs[k] == x;
  }

  /** The values of `Distinct(xs)` come in the order of their first occurrences in `xs`. */
  lemma {:induction false} DistinctFirstOccurrence(xs: seq<string>)
    ensures forall i, j :: 0 <= i < j < |Distinct(xs)| ==>
      FirstIndex(xs, Distinct(xs)[i]) < FirstIndex(xs, Distinct(xs)[j])
  {
    if xs != [] {
      var n := |xs| - 1;
      var init := Distinct(xs[..n]);
      var last := xs[n];
      DistinctFirstOccurrence(xs[..n]);
      forall x | x in init ensures FirstIndex(xs, x) == FirstIndex(xs[..n], x) < n {
        FirstIndexPrefix(xs, n, x);
      }
      if last !in init {
        assert last !in xs[..n];
        assert FirstIndex(xs, last) == n;
        assert Distinct(xs) == init + [last];
      }
    }
  }

  // ---------------------------------------------------------------------------------------------
  // The awaited sequences of each operation, as the service answers them.

  /** What a first-page load fetched: the detail records, their locations and the next cursor. */
  datatype Page = Page(dogs: seq<Dog>, locations: seq<Location>, next: Option<string>)

  /** What a next-page load fetched: the detail records of the page and the next cursor. */
  datatype More = More(dogs: seq<Dog>, next: Option<string>)

  /** The zip codes the location lookup of a page asks for. */
  function LookupZips(dogs: seq<Dog>): (zips: seq<string>)
    ensures NoDup(zips)
    ensures forall i :: 0 <= i < |dogs| ==> dogs[i].zipCode in zips
    ensures forall z :: z in zips ==> exists i :: 0 <= i < |dogs| && dogs[i].zipCode == z
    ensures zips == [] <==> dogs == []
  {
    var all := ZipCodes(dogs);
    assert forall i :: 0 <= i < |dogs| ==> all[i] in all;
    Distinct(all)
  }

  /**
   * `loadDogs`' awaits: search with the query, fetch the details of the ids, then look up the
   * distinct zip codes of those dogs, unless there are none. The first failure ends the sequence.
   */
  function FirstPage(query: string, api: Backend): (r: Exchange<Page>)
    ensures 1 <= |r.sent| <= 3 && r.sent[0] == Get(SearchPath(Some(query)))
    ensures r.result.Ok? ==>
      var search := api.search(SearchPath(Some(query)));
      && search.Ok?
      && api.details(search.value.resultIds).Ok?
      && r.result.value.dogs == api.details(search.value.resultIds).value
      && r.result.value.next == OrNull(search.value.next)
      && (r.result.value.dogs == [] ==> r.result.value.locations == [] && |r.sent| == 2)
    ensures |r.sent| == 3 ==>
      var search := api.search(SearchPath(Some(query)));
      && search.Ok?
      && api.details(search.value.resultIds).Ok?
      && api.details(search.value.resultIds).value != []
      && r.sent[2] == Post("/locations", StringList(LookupZips(api.details(search.value.resultIds).value)))
  {
    var search := FetchDogs(Some(query), api);
    match search.result
    case Err(f) => Exchange(search.sent, Err(f))
    case Ok(response) =>
      var details := FetchDogDetails(response.resultIds, api);
      var sent := search.sent + details.sent;
      match details.result
      case Err(f) => Exchange(sent, Err(f))
      case Ok(dogs) =>
        var zips := LookupZips(dogs);
        if zips == [] then Exchange(sent, Ok(Page(dogs, [], OrNull(response.next))))
        else
          var found := FetchLocations(Some(zips), api);
          match found.result
          case Err(f) => Exchange(sent + found.sent, Err(f))
          case Ok(locations) => Exchange(sent + found.sent, Ok(Page(dogs, locations, OrNull(response.next))))
  }

  /**
   * How each service answer decides a first-page load: a failed search or detail call ends it
   * with that call's failure; an empty page succeeds without a lookup; otherwise the lookup of the
   * page's zip codes is sent, and its failure, or its non-null entries, decide the result.
   */
  lemma FirstPageAnswers(query: string, api: Backend)
    ensures var r, search := FirstPage(query, api), api.search(SearchPath(Some(query)));
      search.Err? ==> r == Exchange([Get(SearchPath(Some(query)))], Err(search.failure))
    ensures var r, search := FirstPage(query, api), api.search(SearchPath(Some(query)));
      search.Ok? ==>
        var details := api.details(search.value.resultIds);
        && |r.sent| >= 2 && r.sent[1] == Post("/dogs", StringList(search.value.resultIds))
        && (details.Err? ==> |r.sent| == 2 && r.result == Err(details.failure))
        && (details.Ok? && details.value == [] ==>
              |r.sent| == 2 && r.result == Ok(Page([], [], OrNull(search.value.next))))
        && (details.Ok? && details.value != [] ==>
              var zips := LookupZips(details.value);
              var found := api.locations(zips);
              && |r.sent| == 3
              && r.sent[2] == Post("/locations", StringList(zips))
              && (found.Ok? ==> r.result == Ok(Page(details.value, NonNull(found.value), OrNull(search.value.next))))
              && (found.Err? ==> r.result == Err(found.failure)))
  {
  }

  /** `loadNextPage`'s awaits: search with the cursor, then fetch the details of the ids. */
  function NextPage(cursor: string, api: Backend): (r: Exchange<More>)
    ensures 1 <= |r.sent| <= 2 && r.sent[0] == Get(SearchPath(Some(cursor)))
    ensures r.result.Ok? ==>
      var search := api.search(SearchPath(Some(cursor)));
      && search.Ok?
      && |r.sent| == 2
      && r.sent[1] == Post("/dogs", StringList(search.value.resultIds))
      && api.details(search.value.resultIds) == Ok(r.result.value.dogs)
      && r.result.value.next == OrNull(search.value.next)
    ensures var search := api.search(SearchPath(Some(cursor)));
      search.Err? ==> r == Exchange([Get(SearchPath(Some(cursor)))], Err(search.failure))
    ensures var search := api.search(SearchPath(Some(cursor)));
      search.Ok? ==>
        var details := api.details(search.value.resultIds);
        && r.sent == [Get(SearchPath(Some(cursor))), Post("/dogs", StringList(search.value.resultIds))]
        && (details.Ok? ==> r.result == Ok(More(details.value, OrNull(search.value.next))))
        && (details.Err? ==> r.result == Err(details.failure))
  {
    var search := FetchDogs(Some(cursor), api);
    match search.result
    case Err(f) => Exchange(search.sent, Err(f))
    case Ok(response) =>
      var details := FetchDogDetails(response.resultIds, api);
      var sent := search.sent + details.sent;
      match details.result
      case Err(f) => Exchange(sent, Err(f))
      case Ok(dogs) => Exchange(sent, Ok(More(dogs, OrNull(response.next))))
  }

  /**
   * `generateMatch`'s awaits for a non-empty favorites list: ask for a match, then, when the
   * returned id is truthy, fetch its details and take the first record; a falsy id gives null.
   */
  function MatchedDog(favorites: seq<string>, api: Backend): (r: Exchange<Option<Dog>>)
    requires favorites != []
    ensures 1 <= |r.sent| <= 2 && r.sent[0] == Post("/dogs/match", StringList(favorites))
    ensures r.result.Ok? ==> api.matchOf(favorites).Ok?
    ensures r.result.Ok? && !TruthyOpt(api.matchOf(favorites).value.matched) ==> r.result.value.None? && |r.sent| == 1
    ensures r.result.Ok? && TruthyOpt(api.matchOf(favorites).value.matched) ==>
      var id := api.matchOf(favorites).value.matched.value;
      && r.sent == [Post("/dogs/match", StringList(favorites)), Post("/dogs", StringList([id]))]
      && api.details([id]).Ok?
      && (r.result.value.Some? <==> api.details([id]).value != [])
      && (r.result.value.Some? ==> r.result.value.value == api.details([id]).value[0])
    ensures api.matchOf(favorites).Err? ==>
      r == Exchange([Post("/dogs/match", StringList(favorites))], Err(api.matchOf(favorites).failure))
    ensures api.matchOf(favorites).Ok? && !TruthyOpt(api.matchOf(favorites).value.matched) ==>
      r == Exchange([Post("/dogs/match", StringList(favorites))], Ok(None))
    ensures api.matchOf(favorites).Ok? && TruthyOpt(api.matchOf(favorites).value.matched) ==>
      var id := api.matchOf(favorites).value.matched.value;
      && r.sent == [Post("/dogs/match", StringList(favorites)), Post("/dogs", StringList([id]))]
      && (r.result.Ok? <==> api.details([id]).Ok?)
      && (api.details([id]).Err? ==> r.result == Err(api.details([id]).failure))
  {
    var m := FetchMatch(favorites, api);
    match m.result
    case Err(f) => Exchange(m.sent, Err(f))
    case Ok(id) =>
      if !TruthyOpt(id) then Exchange(m.sent, Ok(None))
      else
        var details := FetchDogDetails([id.value], api);
        match details.result
        case Err(f) => Exchange(m.sent + details.sent, Err(f))
        case Ok(dogs) => Exchange(m.sent + details.sent, Ok(if |dogs| > 0 then Some(dogs[0]) else None))
  }

  /** One favorite, matched to itself: the match resolves to that dog's full record. */
  lemma MatchedDogExample(api: Backend, dog: Dog)
    requires api.matchOf(["abc123"]) == Ok(MatchResponse(Some("abc123")))
    requires api.details(["abc123"]) == Ok([dog])
    ensures MatchedDog(["abc123"], api).result == Ok(Some(dog))
  {
  }

  // ---------------------------------------------------------------------------------------------
  // The hook's state.

  const DefaultSortOrder: string := "breed:asc"
  const BreedsFallback: string := "Failed to load breeds."
  const DogsFallback: string := "Failed to load dogs."
  const MatchFallback: string := "Failed to generate match."
  const MoreFallback: string := "Failed to load more dogs."
  const EmptyFavoritesMessage: string := "Please select at least one dog to find a match."

  /** The eleven state cells of the hook, as one value. */
  datatype State = State(
    breeds: seq<string>,
    dogs: seq<Dog>,
    locations: seq<Location>,
    favorites: seq<string>,
    error: Option<string>,
    loading: bool,
    nextQuery: Option<string>,
    selectedBreed: Option<string>,
    selectedZip: Option<string>,
    sortOrder: string,
    matchedDog: Option<Dog>)

  /** The query a first-page load sends for the current filters. */
  function QueryOf(s: State): string {
    SearchQuery(s.selectedBreed, s.sortOrder, s.selectedZip)
  }

  /**
   * The state once `loadDogs` has settled with `r`: on success the dogs, the locations and the
   * cursor are replaced and the error is left as it was; on failure only the error changes. In
   * both cases loading ends.
   */
  function SettleFirstPage(s: State, r: Exchange<Page>): (t: State)
    ensures !t.loading
    ensures t.breeds == s.breeds && t.favorites == s.favorites && t.matchedDog == s.matchedDog
    ensures t.selectedBreed == s.selectedBreed && t.selectedZip == s.selectedZip && t.sortOrder == s.sortOrder
    ensures r.result.Ok? ==> t.dogs == r.result.value.dogs && t.locations == r.result.value.locations
                             && t.nextQuery == r.result.value.next && t.error == s.error
    ensures r.result.Err? ==> t.dogs == s.dogs && t.locations == s.locations && t.nextQuery == s.nextQuery
                              && t.error == Some(Message(r.result.failure, DogsFallback))
  {
    match r.result
    case Ok(page) => s.(dogs := page.dogs, locations := page.locations, nextQuery := page.next, loading := false)
    case Err(f) => s.(error := Some(Message(f, DogsFallback)), loading := false)
  }

  /**
   * The state once `loadNextPage` has settled with `r`: on success the page's new dogs are
   * appended and the cursor is replaced; on failure only the error changes. Loading ends.
   */
  function SettleNextPage(s: State, r: Exchange<More>): (t: State)
    ensures !t.loading
    ensures t.breeds == s.breeds && t.favorites == s.favorites && t.matchedDog == s.matchedDog
    ensures t.locations == s.locations
    ensures t.selectedBreed == s.selectedBreed && t.selectedZip == s.selectedZip && t.sortOrder == s.sortOrder
    ensures r.result.Ok? ==> t.dogs == AppendNew(s.dogs, r.result.value.dogs) && t.nextQuery == r.result.value.next
                             && t.error == s.error
    ensures r.result.Err? ==> t.dogs == s.dogs && t.nextQuery == s.nextQuery
                              && t.error == Some(Message(r.result.failure, MoreFallback))
  {
    match r.result
    case Ok(more) => s.(dogs := AppendNew(s.dogs, more.dogs), nextQuery := more.next, loading := false)
    case Err(f) => s.(error := Some(Message(f, MoreFallback)), loading := false)
  }

  /** Paging keeps a duplicate-free list duplicate-free when the service's page is. */
  lemma NextPageKeepsIdsDistinct(s: State, r: Exchange<More>)
    requires NoDupIds(s.dogs)
    requires r.result.Ok? ==> NoDupIds(r.result.value.dogs)
    ensures NoDupIds(SettleNextPage(s, r).dogs)
  {
    if r.result.Ok? {
      AppendNewNoDup(s.dogs, r.result.value.dogs);
    }
  }

  /**
   * The state cells of `useDogs`. Each method is one operation run to completion; the service's
   * answers come from `api` and the requests it sent are returned.
   */
  class DogSearch {
    var breeds: seq<string>
    var dogs: seq<Dog>
    var locations: seq<Location>
    var favorites: seq<string>
    var error: Option<string>
    var loading: bool
    var nextQuery: Option<string>
    var selectedBreed: Option<string>
    var selectedZip: Option<string>
    var sortOrder: string
    var matchedDog: Option<Dog>

    function Snapshot(): State
      reads this
    {
      State(breeds, dogs, locations, favorites, error, loading, nextQuery,
            selectedBreed, selectedZip, sortOrder, matchedDog)
    }

    /** Favorites never repeat an id, and a stored cursor is never the empty string. */
    predicate Valid()
      reads this
    {
      NoDup(favorites) && (nextQuery.Some? ==> nextQuery.value != "")
    }

    /** The initial cell values: everything empty or null, loading, and sorted by breed ascending. */
    constructor ()
      ensures Valid()
      ensures Snapshot() == State([], [], [], [], None, true, None, None, None, DefaultSortOrder, None)
    {
      breeds, dogs, locations, favorites := [], [], [], [];
      error, loading, nextQuery := None, true, None;
      selectedBreed, selectedZip, sortOrder, matchedDog := None, None, DefaultSortOrder, None;
    }

    /** `loadBreeds`: the breed list replaces `breeds`, or the error is stored. */
    method LoadBreeds(api: Backend) returns (sent: seq<Request>)
      requires Valid()
      modifies this
      ensures Valid()
      ensures sent == [Get("/dogs/breeds")]
      ensures api.breeds.Ok? ==> Snapshot() == old(Snapshot()).(breeds := api.breeds.value)
      ensures api.breeds.Err? ==> Snapshot() == old(Snapshot()).(error := Some(Message(api.breeds.failure, BreedsFallback)))
    {
      var b := FetchBreeds(api);
      sent := b.sent;
      match b.result
      case Ok(list) => breeds := list;
      case Err(f) => error := Some(Message(f, BreedsFallback));
    }

    /** `loadDogs`: a fresh first-page search for the current filters. */
    method LoadDogs(api: Backend) returns (sent: seq<Request>)
      requires Valid()
      modifies this
      ensures Valid()
      ensures sent == FirstPage(QueryOf(old(Snapshot())), api).sent
      ensures Snapshot() == SettleFirstPage(old(Snapshot()), FirstPage(QueryOf(old(Snapshot())), api))
    {
      loading := true;
      var r := FirstPage(SearchQuery(selectedBreed, sortOrder, selectedZip), api);
      sent := r.sent;
      match r.result
      case Ok(page) =>
        locations := page.locations;
        dogs := page.dogs;
        nextQuery := page.next;
        loading := false;
      case Err(f) =>
        error := Some(Message(f, DogsFallback));
        loading := false;
    }

    /** `toggleFavorite`: remove the id if it is a favorite, append it otherwise. */
    method ToggleFavorite(id: string)
      requires Valid()
      modifies this
      ensures Valid()
      ensures Snapshot() == old(Snapshot()).(favorites := Toggle(old(favorites), id))
    {
      favorites := Toggle(favorites, id);
    }

    /**
     * `generateMatch`: with no favorites, only the error is set and nothing is requested;
     * otherwise the matched dog is stored, or the error when a request fails.
     */
    method GenerateMatch(api: Backend) returns (sent: seq<Request>)
      requires Valid()
      modifies this
      ensures Valid()
      ensures old(favorites) == [] ==> sent == [] && Snapshot() == old(Snapshot()).(error := Some(EmptyFavoritesMessage))
      ensures old(favorites) != [] ==>
        var r := MatchedDog(old(favorites), api);
        && sent == r.sent
        && (r.result.Ok? ==> Snapshot() == old(Snapshot()).(matchedDog := r.result.value))
        && (r.result.Err? ==> Snapshot() == old(Snapshot()).(error := Some(Message(r.result.failure, MatchFallback))))
    {
      if |favorites| == 0 {
        error := Some(EmptyFavoritesMessage);
        sent := [];
        return;
      }
      var r := MatchedDog(favorites, api);
      sent := r.sent;
      match r.result
      case Ok(dog) => matchedDog := dog;
      case Err(f) => error := Some(Message(f, MatchFallback));
    }

    /** `loadNextPage`: nothing without a cursor; otherwise the next page is appended without repeats. */
    method LoadNextPage(api: Backend) returns (sent: seq<Request>)
      requires Valid()
      modifies this
      ensures Valid()
      ensures old(nextQuery).None? ==> sent == [] && Snapshot() == old(Snapshot())
      ensures old(nextQuery).Some? ==>
        && sent == NextPage(old(nextQuery).value, api).sent
        && Snapshot() == SettleNextPage(old(Snapshot()), NextPage(old(nextQuery).value, api))
    {
      if !TruthyOpt(nextQuery) {
        sent := [];
        return;
      }
      loading := true;
      var r := NextPage(nextQuery.value, api);
      sent := r.sent;
      match r.result
      case Ok(more) =>
        dogs := AppendNew(dogs, more.dogs);
        nextQuery := more.next;
        loading := false;
      case Err(f) =>
        error := Some(Message(f, MoreFallback));
        loading := false;
    }

    /** `setSelectedBreed`: a new value re-runs `loadDogs` with it; the same value changes nothing. */
    method SetSelectedBreed(breed: Option<string>, api: Backend) returns (sent: seq<Request>)
      requires Valid()
      modifies this
      ensures Valid()
      ensures breed == old(selectedBreed) ==> sent == [] && Snapshot() == old(Snapshot())
      ensures breed != old(selectedBreed) ==>
        var s := old(Snapshot()).(selectedBreed := breed);
        sent == FirstPage(QueryOf(s), api).sent && Snapshot() == SettleFirstPage(s, FirstPage(QueryOf(s), api))
    {
      if breed == selectedBreed {
        sent := [];
        return;
      }
      selectedBreed := breed;
      sent := LoadDogs(api);
    }

    /** `setSelectedZip`: a new value re-runs `loadDogs` with it; the same value changes nothing. */
    method SetSelectedZip(zip: Option<string>, api: Backend) returns (sent: seq<Request>)
      requires Valid()
      modifies this
      ensures Valid()
      ensures zip == old(selectedZip) ==> sent == [] && Snapshot() == old(Snapshot())
      ensures zip != old(selectedZip) ==>
        var s := old(Snapshot()).(selectedZip := zip);
        sent == FirstPage(QueryOf(s), api).sent && Snapshot() == SettleFirstPage(s, FirstPage(QueryOf(s), api))
    {
      if zip == selectedZip {
        sent := [];
        return;
      }
      selectedZip := zip;
      sent := LoadDogs(api);
    }

    /** `setSortOrder`: a new value re-runs `loadDogs` with it; the same value changes nothing. */
    method SetSortOrder(order: string, api: Backend) returns (sent: seq<Request>)
      requires Valid()
      modifies this
      ensures Valid()
      ensures order == old(sortOrder) ==> sent == [] && Snapshot() == old(Snapshot())
      ensures order != old(sortOrder) ==>
        var s := old(Snapshot()).(sortOrder := order);
        sent == FirstPage(QueryOf(s), api).sent && Snapshot() == SettleFirstPage(s, FirstPage(QueryOf(s), api))
    {
      if order == sortOrder {
        sent := [];
        return;
      }
      sortOrder := order;
      sent := LoadDogs(api);
    }

    /** `setMatchedDog`, exposed to the page for dismissing the match. */
    method SetMatchedDog(dog: Option<Dog>)
      requires Valid()
      modifies this
      ensures Valid()
      ensures Snapshot() == old(Snapshot()).(matchedDog := dog)
    {
      matchedDog := dog;
    }

    /** The mount effects: the breed list is loaded, then the first page. */
    method Mount(api: Backend) returns (sent: seq<Request>)
      requires Valid()
      modifies this
      ensures Valid()
      ensures var s := if api.breeds.Ok? then old(Snapshot()).(breeds := api.breeds.value)
                       else old(Snapshot()).(error := Some(Message(api.breeds.failure, BreedsFallback)));
              && sent == [Get("/dogs/breeds")] + FirstPage(QueryOf(s), api).sent
              && Snapshot() == SettleFirstPage(s, FirstPage(QueryOf(s), api))
    {
      var first := LoadBreeds(api);
      var rest := LoadDogs(api);
      sent := first + rest;
    }
  }

  /**
   * The mount scenario: the service lists two breeds and an empty first page; once the effects
   * have settled the breeds are stored and no error is set.
   */
  method MountLoadsBreeds() returns (breeds: seq<string>, error: Option<string>)
    ensures breeds == ["Labrador", "Poodle"]
    ensures error == None
  {
    var api := Backend(
      Ok(["Labrador", "Poodle"]),
      (path: string) => Ok(SearchResponse(None, [], 0)),
      (ids: seq<string>) => Ok([]),
      (ids: seq<string>) => Err(OtherValue),
      (zips: seq<string>) => Ok([]),
      (body: LocationSearchBody) => Err(OtherValue));
    var hook := new DogSearch();
    var _ := hook.Mount(api);
    breeds, error := hook.breeds, hook.error;
  }
}

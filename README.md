# Dog-adoption search client: a Dafny model of its stateful core

The repository is a browser client for a dog-adoption REST service. Most of it renders markup; the
logic modelled here is the part that holds state or shapes requests:

- the `useDogs` search hook: its eleven state cells and the operations that move them (loading
  the breed list, loading the first page for the current filters, loading the next page,
  toggling a favorite, asking for a match, and the filter setters that re-run the first-page load);
- the request helpers of the dog and location endpoints: the search path chosen between a server
  cursor and a fresh query, the empty-input guards that throw before any request, the null filter
  of the location lookup, and the body of a location search built from its truthy arguments;
- `getDogLocation`, the first-match lookup of a dog's shelter by zip code;
- the route guard in front of the search page: checking, authenticated or not, and what each renders.

The REST service is a value of type `Http.Backend`: a total function per endpoint from the request
to an outcome, either `Ok` with the decoded JSON or `Err` with what was thrown. Every API function
returns an `Http.Exchange`: the requests it sent, in order, and how it settled. So "throws before
any request" means the exchange has no requests. The hook is the class `UseDogs.DogSearch`. Its
fields are the hook's state cells, and each method runs one operation to completion, taking the
service's answers from the `Backend`. JavaScript truthiness is written out. The empty string,
`null` and `undefined` are falsy (`Wrappers.TruthyOpt`), and so is the number 0 (`from` in a
location search). `URLSearchParams.toString()` is modelled in `FormEncoding`: UTF-8, `+` for
space, `%XX` for every byte other than ASCII letters, digits and `*-._`. It comes with a parser
that recovers the parameters exactly.

Modules follow the source files: `Wrappers` (optional values, outcomes, truthiness), `Entities`
(the records), `Http` (requests and the service), `FormEncoding` (query serialization), `DogsApi`
(`src/api/dogs.ts`), `LocationsApi` (`src/api/locations.ts`), `Helpers` (`src/utils/helpers.ts`),
`UseDogs` (`src/hooks/useDogs.ts`) and `ProtectedRoute` (`src/components/ProtectedRoute.tsx`).

Two behaviours of the code are easy to misread:

- The hook does not keep dog ids distinct. The next-page load drops only the page dogs whose id
  is already in the list. It does not de-duplicate within a page, and a first-page load replaces
  the list with whatever the detail endpoint returned. `UseDogs.AppendNewKeepsRepeatsWithinPage`
  shows a page that repeats a dog keeping the repeat. Absence of duplicates is proved only for a
  duplicate-free page (`UseDogs.AppendNewNoDup`).
- Favorites are a list, not a set. Toggling an absent id twice restores the list exactly.
  Toggling a present id twice restores the set of ids but moves that id to the end.

## Model

| member | source | states |
|---|---|---|
| `UseDogs.DogSearch.constructor` | src/hooks/useDogs.ts:8-18 | The initial cells: empty lists, no error, loading, no cursor, no filters, sort order `breed:asc`, no matched dog; the invariant holds |
| `UseDogs.DogSearch.LoadBreeds` | src/hooks/useDogs.ts:21-27 | One GET of `/dogs/breeds`. On success only `breeds` changes, to the fetched list. On failure only `error` changes, to the thrown message or "Failed to load breeds." |
| `UseDogs.DogSearch.Mount` | src/hooks/useDogs.ts:20-55 | The mount effects: the breed load, then a first-page load for the initial filters. The new state and the requests are stated in terms of both |
| `UseDogs.MountLoadsBreeds` | src/__tests__/useDogs.test.ts:14-28 | With the breed list `["Labrador", "Poodle"]` and an empty first page, mounting stores those breeds and leaves `error` null |
| `UseDogs.SearchParams` | src/hooks/useDogs.ts:34-37 | `breeds`, `sort` and `zipCodes` appear exactly when their filter is a non-empty string, with that value. There is no other key and none repeats. They come in that order |
| `UseDogs.SearchParamsExample` | src/hooks/useDogs.ts:34-37 | Breed "Poodle" with the default sort and no zip gives exactly the `breeds` and `sort` pairs; the zip parameter is omitted |
| `UseDogs.SearchQuery` | src/hooks/useDogs.ts:39 | The first-page query starts with `?` |
| `UseDogs.SearchQueryParses` | src/hooks/useDogs.ts:34-39 | Parsing the query string after `?` gives back exactly the filter parameters, in order |
| `UseDogs.SearchQueryPath` | src/hooks/useDogs.ts:39 | A first-page query is never taken for a cursor: the request path is `/dogs/search` followed by the query |
| `FormEncoding.ParseSerialize` | src/hooks/useDogs.ts:34-39 | For every list of name/value pairs, parsing the serialized form returns that list. Serialization loses nothing and `&`/`=` never occur inside a name or value |
| `FormEncoding.ComponentRoundTrip` | src/hooks/useDogs.ts:39 | Every string, including non-ASCII ones, is recovered exactly from its percent-encoded UTF-8 form |
| `FormEncoding.EncodeComponent` | src/hooks/useDogs.ts:39 | An encoded name or value contains only ASCII letters, digits, `*-._`, `+` and `%`, so never `&` or `=` |
| `FormEncoding.EncodeUnreserved` | src/hooks/useDogs.ts:39 | A string made only of ASCII letters, digits and `*-._` is sent as it is |
| `FormEncoding.EncodeComponentAppend` | src/hooks/useDogs.ts:39 | Encoding works character by character: the encoding of a concatenation is the concatenation of the encodings |
| `FormEncoding.PercentRoundTrip` | src/hooks/useDogs.ts:39 | Percent-decoding undoes the byte-level encoding for every byte string |
| `FormEncoding.Utf8RoundTrip` | src/hooks/useDogs.ts:39 | UTF-8 decoding undoes UTF-8 encoding for every string |
| `UseDogs.LookupZips` | src/hooks/useDogs.ts:42 | The zips sent to the location lookup have no duplicates. Every fetched dog's zip is among them, and every one of them is some fetched dog's zip. The list is empty exactly when no dog was fetched |
| `Entities.ZipCodes` | src/hooks/useDogs.ts:42 | `dogDetails.map(dog => dog.zip_code)`: one zip per dog, at the dog's own position |
| `FormEncoding.Serialize` | src/hooks/useDogs.ts:39 | `params.toString()`: the empty string exactly for no parameters. Its partner is the parser, and `ParseSerialize` proves the round trip |
| `UseDogs.Distinct` | src/hooks/useDogs.ts:42 | `[...new Set(xs)]` has no duplicates, has exactly the elements of `xs` and is no longer than `xs` |
| `UseDogs.DistinctFirstOccurrence` | src/hooks/useDogs.ts:42 | The values of `[...new Set(xs)]` come in the order of their first occurrences in `xs`, as a `Set` iterates in insertion order |
| `UseDogs.FirstPage` | src/hooks/useDogs.ts:39-45 | The first request is the search for the query. On success the dogs are exactly the detail records of the search ids, and the cursor is the response's `next` with an absent or empty value made null. An empty page gets no location lookup and no locations. A third request is always the location lookup of the page's distinct zips |
| `UseDogs.FirstPageAnswers` | src/hooks/useDogs.ts:39-45 | For every service answer: a failed search ends the load after one request with the search's failure. A failed detail call ends it after two requests with that failure. An empty page succeeds after two requests with no locations. Otherwise the third request looks up the page's distinct zips; a failed lookup gives its failure, and an answered one gives the page with the lookup's non-null entries and the cursor made null when falsy |
| `UseDogs.SettleFirstPage` | src/hooks/useDogs.ts:40-50 | On success `dogs`, `locations` and `nextQuery` are replaced and `error` is left as it was, so a success never clears an earlier error. On failure those three are unchanged and `error` takes the message or "Failed to load dogs.". Loading ends either way and the other cells are unchanged |
| `UseDogs.DogSearch.LoadDogs` | src/hooks/useDogs.ts:31-51 | The requests are those of `FirstPage` for the current filters. The new state is `SettleFirstPage` of the old one: cells change only after all awaits, and only as that function says |
| `UseDogs.DogSearch.SetSelectedBreed` | src/hooks/useDogs.ts:51-55 | Setting the breed filter to the same value changes nothing and sends nothing. A new value is stored and the first-page load runs with it |
| `UseDogs.DogSearch.SetSelectedZip` | src/hooks/useDogs.ts:51-55 | The same for the zip filter |
| `UseDogs.DogSearch.SetSortOrder` | src/hooks/useDogs.ts:51-55 | The same for the sort order |
| `UseDogs.Without` | src/hooks/useDogs.ts:58 | The filter keeps exactly the elements other than `id`. It never lengthens the list, keeps it duplicate-free, and is the identity when `id` is absent |
| `UseDogs.Toggle` | src/hooks/useDogs.ts:58 | `id` is present afterwards exactly when it was absent before, and every other id keeps its membership. An absent id is appended at the end. A duplicate-free list stays duplicate-free |
| `UseDogs.ToggleTwiceAbsent` | src/hooks/useDogs.ts:58 | Toggling an absent id twice restores the list exactly |
| `UseDogs.ToggleTwicePresent` | src/hooks/useDogs.ts:58 | Toggling a present id twice keeps the same ids but moves `id` to the end |
| `UseDogs.WithoutAppend` | src/hooks/useDogs.ts:58 | Filtering distributes over concatenation |
| `UseDogs.DogSearch.ToggleFavorite` | src/hooks/useDogs.ts:57-59 | Only `favorites` changes, to the toggle of the old list; favorites stay duplicate-free |
| `UseDogs.MatchedDog` | src/hooks/useDogs.ts:64-65 | The first request is the match request for the favorites. A failed match call ends there with its failure. A falsy match id succeeds with no matched dog and no second request. A truthy id triggers exactly one detail request for that id. The result succeeds exactly when that call is answered, and then the matched dog is its first record, or none when the list is empty. A failed detail call gives its failure |
| `UseDogs.MatchedDogExample` | src/hooks/useDogs.ts:64-65 | Favorites `["abc123"]` matched to "abc123" resolve to that dog's full record |
| `UseDogs.DogSearch.GenerateMatch` | src/hooks/useDogs.ts:61-69 | With no favorites it sends nothing, and only `error` changes, to "Please select at least one dog to find a match.". Otherwise only `matchedDog` changes on success. On failure only `error` changes, to the message or "Failed to generate match." |
| `UseDogs.NewOnly` | src/hooks/useDogs.ts:77 | The kept page dogs are exactly those whose id is not in the list. The filter keeps a duplicate-free page duplicate-free, and keeps nothing when every page id is already listed |
| `UseDogs.AppendNew` | src/hooks/useDogs.ts:77 | The old list is kept as a prefix and followed by exactly the page's filter `NewOnly`, so the appended dogs are the page dogs whose id was not listed, in page order. Afterwards every page dog's id is listed |
| `UseDogs.NewOnlyAppend` | src/hooks/useDogs.ts:77 | The filter distributes over concatenation, so it keeps the page's order and the repeats within it |
| `UseDogs.AppendNewNoDup` | src/hooks/useDogs.ts:77 | A duplicate-free list extended by a duplicate-free page is duplicate-free |
| `UseDogs.AppendNewIdempotent` | src/hooks/useDogs.ts:77 | Appending the same page a second time adds nothing |
| `UseDogs.AppendNewKeepsRepeatsWithinPage` | src/hooks/useDogs.ts:77 | A page that repeats a dog keeps the repeat: only ids already in the list are filtered |
| `UseDogs.NextPage` | src/hooks/useDogs.ts:75-78 | The first request is the search for the cursor. A failed search ends there with its failure. Otherwise the second request is the detail request for the returned ids. A failed detail call gives its failure. An answered one gives exactly the returned dogs and the response's `next` made null when falsy |
| `UseDogs.SettleNextPage` | src/hooks/useDogs.ts:77-82 | On success the new page dogs are appended, the cursor replaced and `error` kept. On failure `dogs` and `nextQuery` are unchanged and `error` takes the message or "Failed to load more dogs.". Loading ends, and `locations` and the other cells are unchanged |
| `UseDogs.NextPageKeepsIdsDistinct` | src/hooks/useDogs.ts:77 | Paging keeps a duplicate-free dog list duplicate-free when the page is duplicate-free |
| `UseDogs.DogSearch.LoadNextPage` | src/hooks/useDogs.ts:71-84 | Without a cursor, nothing changes and nothing is sent. Otherwise the requests are those of `NextPage` and the new state is `SettleNextPage` of the old one |
| `UseDogs.DogSearch.SetMatchedDog` | src/hooks/useDogs.ts:98 | Only `matchedDog` changes |
| `Wrappers.OrNull` | src/hooks/useDogs.ts:45 | `next \|\| null` keeps a non-empty string and turns the empty string and null into null |
| `Wrappers.Message` | src/hooks/useDogs.ts:48 | A thrown `Error` gives its message; any other thrown value gives the operation's fallback text |
| `DogsApi.OrEmpty` | src/api/dogs.ts:26 | `queryParams \|\| ""`: the empty string exactly when the argument is falsy, otherwise the argument itself |
| `DogsApi.SearchPath` | src/api/dogs.ts:24-26 | The requested path always begins with `/dogs/search` |
| `DogsApi.CursorVerbatim` | src/api/dogs.ts:24-25 | An argument that already begins with `/dogs/search` is requested as it is |
| `DogsApi.QueryAppended` | src/api/dogs.ts:26 | Any other argument is appended to `/dogs/search`; an absent or empty argument gives exactly `/dogs/search` |
| `DogsApi.SearchPathIdempotent` | src/api/dogs.ts:24-26 | Applying the path computation to its own output returns it unchanged |
| `DogsApi.FetchDogs` | src/api/dogs.ts:23-29 | Exactly one GET of `SearchPath` of the argument, a path beginning with `/dogs/search`. The result is the service's answer for that path |
| `DogsApi.FetchDogDetails` | src/api/dogs.ts:37-40 | One POST of the ids to `/dogs` |
| `DogsApi.FetchBreeds` | src/api/dogs.ts:47-50 | One GET of `/dogs/breeds` |
| `DogsApi.FetchMatch` | src/api/dogs.ts:59-65 | An empty id list throws "No favorites selected" and sends nothing, and only then is nothing sent. Otherwise one POST to `/dogs/match` goes out. The result is exactly the answer's `match` field, or the service's failure |
| `LocationsApi.FetchLocations` | src/api/locations.ts:34-47 | A missing or empty zip list throws "No zip codes provided." and sends nothing. Otherwise one POST to `/locations` goes out, and the result is the answer without its null entries, or the service's failure |
| `LocationsApi.NonNull` | src/api/locations.ts:42 | The result holds exactly the non-null entries. It is no longer than the response, and as long only when there is no null |
| `LocationsApi.NonNullAppend` | src/api/locations.ts:42 | The filter distributes over concatenation, so the service's order is kept |
| `LocationsApi.BuildSearchBody` | src/api/locations.ts:63-70 | `size` is always present, 25 when not given. `city` is present exactly when it is a non-empty string. `states` and `geoBoundingBox` are present whenever given, an empty list of states included. `from` is present exactly when given and not 0 |
| `LocationsApi.SearchLocations` | src/api/locations.ts:59-74 | One POST to `/locations/search` whose body satisfies the rules above, answered by the service for that body |
| `Helpers.GetDogLocation` | src/utils/helpers.ts:4-6 | Returns the first location in list order whose zip equals the dog's zip. It returns nothing exactly when no location has that zip, and any returned location has the dog's zip |
| `Helpers.GetDogLocationZipOnly` | src/utils/helpers.ts:5 | Two dogs with the same zip get the same answer: the other fields of the dog do not matter |
| `ProtectedRoute.Guard.constructor` | src/components/ProtectedRoute.tsx:8 | The guard starts in the checking state and renders the "Loading..." placeholder |
| `ProtectedRoute.Decide` | src/components/ProtectedRoute.tsx:27-41 | Checking renders only the "Loading..." placeholder. `false` redirects to `/` with `replace` and the message "Your session expired. Please log in again.". The children render exactly when the cell is `true` |
| `ProtectedRoute.ProbeResult` | src/components/ProtectedRoute.tsx:13-17 | The stored value is `true` exactly when the probe answered `true`. A probe that throws counts as `false` |
| `ProtectedRoute.FailClosed` | src/components/ProtectedRoute.tsx:16-17 | A probe that throws, whatever it threw, ends in the redirect to the login route |
| `ProtectedRoute.Guard.CheckAuth` | src/components/ProtectedRoute.tsx:11-25 | The mount effect runs once. It stores the probe's boolean unchanged, or `false` when the probe throws. Afterwards the guard renders the children only for `true` |

## Left out

- Network I/O, the base URL `/api`, cookies and headers: the service is the `Backend` parameter,
  and its answers are taken as already decoded into the declared record types.
- `checkAuthStatus` and the rest of `src/api/auth.ts`: the route guard's probe is an
  `Outcome<bool>` parameter.
- React scheduling. Each operation runs to completion before the next starts. Overlapping
  first-page loads, and stale answers overwriting newer ones, are not modelled. The `loading`
  flag is set and then cleared inside one method, so only its final value is visible.
- `console.log`/`console.warn`, `alert`, `window.scrollTo`, the page components and the
  presentational components: they only render or log.
- Floating point. Every JavaScript number is an integer in the model (`Dog.age`, the search
  `total`, the location search's `size` and `from`), except coordinates, which are `real` values
  that are only passed through. The one behaviour this affects is the truthiness of `from`: its
  `NaN` case, also falsy, is not modelled.
- `UseDogs.MatchedDog`: indexing an empty detail list gives `undefined` in the source; the model
  stores no matched dog, which the page treats the same way as `null`.
- `FormEncoding.Utf8Decode`: a lenient decoder used only to prove that encoding loses nothing. It
  does not reject malformed UTF-8. Lone UTF-16 surrogates cannot occur, because Dafny strings are
  sequences of Unicode scalar values.
- `ProtectedRoute.Guard.CheckAuth`: "runs once on mount" is React's guarantee for an effect with
  no dependencies; the model makes it a precondition through a ghost `mounted` flag.

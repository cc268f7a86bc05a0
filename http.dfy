/**
 * The REST service the client talks to, seen from the client: the requests it sends and the
 * answers it gets. The network itself is not modelled; the service is a set of total functions
 * from request to outcome, so the same request always gets the same answer within one scenario.
 */
module Http {
  import opened Wrappers
  import opened Entities

  /** The JSON body of a POST. */
  datatype Body = StringList(items: seq<string>) | LocationQuery(query: LocationSearchBody)

  /** A request, by method and path relative to the configured base URL. */
  datatype Request = Get(path: string) | Post(path: string, body: Body)

  /** The service's answer to each endpoint the client uses. */
  datatype Backend = Backend(
    breeds: Outcome<seq<string>>,
    search: string -> Outcome<SearchResponse>,
    details: seq<string> -> Outcome<seq<Dog>>,
    matchOf: seq<string> -> Outcome<MatchResponse>,
    locations: seq<string> -> Outcome<seq<Option<Location>>>,
    locationSearch: LocationSearchBody -> Outcome<LocationPage>)

  /** The requests an API call sent, in order, and how it settled. */
  datatype Exchange<+T> = Exchange(sent: seq<Request>, result: Outcome<T>)
}

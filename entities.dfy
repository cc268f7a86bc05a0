/** The records the REST service sends and receives, as the client's interfaces declare them. */
module Entities {
  import opened Wrappers

  /** A dog as returned by the detail endpoint; `id` is its identity. */
  datatype Dog = Dog(id: string, img: string, name: string, age: int, zipCode: string, breed: string)

  /** A shelter location; dogs refer to it through `zipCode`. */
  datatype Location = Location(id: string, name: string, address: string, city: string, state: string, zipCode: string)

  /** A latitude/longitude pair. The service sends floating-point numbers; the client only passes them on. */
  datatype Coordinates = Coordinates(lat: real, lon: real)

  /** A geographic bounding box: each corner or edge is optional. */
  datatype GeoBoundingBox = GeoBoundingBox(
    top: Option<Coordinates>, left: Option<Coordinates>,
    bottom: Option<Coordinates>, right: Option<Coordinates>,
    bottomLeft: Option<Coordinates>, topRight: Option<Coordinates>,
    bottomRight: Option<Coordinates>, topLeft: Option<Coordinates>)

  /** One page of a dog search: the ids, the cursor of the next page (absent on the last page) and the total. */
  datatype SearchResponse = SearchResponse(next: Option<string>, resultIds: seq<string>, total: int)

  /** The body of the match endpoint's answer; `matched` is the JSON field `match`. */
  datatype MatchResponse = MatchResponse(matched: Option<string>)

  /**
   * The body of a location search. Its only keys are these five; an absent key is `None`.
   * `from` is an integer offset here.
   */
  datatype LocationSearchBody = LocationSearchBody(
    size: int,
    city: Option<string>,
    states: Option<seq<string>>,
    geoBoundingBox: Option<GeoBoundingBox>,
    from: Option<int>)

  /** The answer of a location search. */
  datatype LocationPage = LocationPage(results: seq<Location>, total: int)

  /** The zip codes of a list of dogs, in order (`dogs.map(dog => dog.zip_code)`). */
  function ZipCodes(dogs: seq<Dog>): (r: seq<string>)
    ensures |r| == |dogs|
    ensures forall i :: 0 <= i < |dogs| ==> r[i] == dogs[i].zipCode
  {
    if dogs == [] then [] else ZipCodes(dogs[..|dogs| - 1]) + [dogs[|dogs| - 1].zipCode]
  }
}

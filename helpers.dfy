/** The lookup the search page uses to show each dog's shelter. */
module Helpers {
  import opened Wrappers
  import opened Entities

  /** `locations.find(loc => loc.zip_code === dog.zip_code)`: the first location with the dog's zip code. */
  function GetDogLocation(dog: Dog, locations: seq<Location>): (r: Option<Location>)
    ensures r.None? <==> forall i :: 0 <= i < |locations| ==> locations[i].zipCode != dog.zipCode
    ensures r.Some? ==> r.value.zipCode == dog.zipCode
    ensures r.Some? ==> exists i :: 0 <= i < |locations| && locations[i] == r.value
                          && forall j :: 0 <= j < i ==> locations[j].zipCode != dog.zipCode
  {
    if locations == [] then None
    else if locations[0].zipCode == dog.zipCode then Some(locations[0])
    else
      var r := GetDogLocation(dog, locations[1..]);
      assert r.Some? ==> exists i :: 0 <= i < |locations[1..]| && locations[1..][i] == r.value
                           && forall j :: 0 <= j < i ==> locations[1..][j].zipCode != dog.zipCode;
      assert r.Some? ==> exists i :: 1 <= i < |locations| && locations[i] == r.value
                           && forall j :: 1 <= j < i ==> locations[j].zipCode != dog.zipCode;
      r
  }

  /** Only the dog's zip code matters, not its other fields. */
  lemma {:induction false} GetDogLocationZipOnly(d1: Dog, d2: Dog, locations: seq<Location>)
    requires d1.zipCode == d2.zipCode
    ensures GetDogLocation(d1, locations) == GetDogLocation(d2, locations)
  {
    if locations != [] && locations[0].zipCode != d1.zipCode {
      GetDogLocationZipOnly(d1, d2, locations[1..]);
    }
  }
}

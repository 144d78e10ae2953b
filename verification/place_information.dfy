/**
  PlaceInformation: an immutable record of a resolved place. Every field is
  set once when it is built and only read afterwards, so it is a datatype;
  a Dafny datatype value can never be changed, which is the immutability the
  class keeps by never assigning its fields outside the constructor.
*/
module PlaceInfo {
  import opened Location

  datatype PlaceInformation = PlaceInformation(
    name: string,
    address: string,
    tag: string,
    localData: GeoLocation)
  {
    function GetName(): string { name }

    function GetAddress(): string { address }

    function GetTag(): string { tag }

    function GetLocation(): GeoLocation { localData }

    /** The string form of a place is the string form of its location. */
    function ToString(show: Show): string { show(localData) }

    /** Distance from this place to `spot`, computed by its location. */
    function DistanceFrom(spot: GeoLocation, distance: Distance): real { distance(localData, spot) }
  }

  /**
    The constructor: it keeps name, address and tag as given and builds the
    location from the two coordinates.
  */
  function Create(name: string, address: string, tag: string, latitude: real, longitude: real): (p: PlaceInformation)
    ensures p.GetName() == name && p.GetAddress() == address && p.GetTag() == tag
    ensures p.GetLocation().latitude == latitude && p.GetLocation().longitude == longitude
  {
    PlaceInformation(name, address, tag, GeoLocation(latitude, longitude))
  }

  /** Two places built from the same arguments are the same value. */
  lemma CreateIsInjective(n1: string, a1: string, t1: string, lat1: real, lng1: real,
                          n2: string, a2: string, t2: string, lat2: real, lng2: real)
    ensures Create(n1, a1, t1, lat1, lng1) == Create(n2, a2, t2, lat2, lng2)
        <==> n1 == n2 && a1 == a2 && t1 == t2 && lat1 == lat2 && lng1 == lng2
  {
  }

  /**
    Distance and string form are pure delegation: they are whatever the
    location built from the constructor's coordinates gives.
  */
  lemma DelegatesToLocation(name: string, address: string, tag: string, latitude: real, longitude: real,
                            spot: GeoLocation, distance: Distance, show: Show)
    ensures Create(name, address, tag, latitude, longitude).DistanceFrom(spot, distance)
         == distance(GeoLocation(latitude, longitude), spot)
    ensures Create(name, address, tag, latitude, longitude).ToString(show)
         == show(GeoLocation(latitude, longitude))
  {
  }
}

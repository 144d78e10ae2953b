/**
  The coordinate pair that GeoCoder hands to its callers. The class behind it
  (its haversine distance and its string form) is not part of this model: the
  members that need them take them as parameters, so they stay uninterpreted.
*/
module Location {

  /** An immutable latitude/longitude pair, in degrees. */
  datatype GeoLocation = GeoLocation(latitude: real, longitude: real)

  /** Great-circle distance between two locations, supplied by the caller. */
  type Distance = (GeoLocation, GeoLocation) -> real

  /** The textual form of a location, supplied by the caller. */
  type Show = GeoLocation -> string
}

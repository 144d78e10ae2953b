# GeoCoder and PlaceInformation, modelled in Dafny

The system turns a free-text place query into the top hit of a geocoding
web service. `GeoCoder` builds the request URL from a fixed prefix and the
URL-encoded query, fetches and parses the XML response, checks that it has a
first `result`, and reads from that first result only: its latitude and
longitude (`find`), and for `findPlace` also the first address component's
long name, the formatted address and its `type` elements joined with `", "`.
Zero results, a failed fetch or parse, and a failing first-result, name or
address lookup come back as Java `null`. A failing `type` lookup still yields
a place, with an empty tag; a failing lat/lng lookup makes `find` return null
but makes `findPlace` throw (see below). `PlaceInformation` is the immutable
record `findPlace` builds.

Files:

- `wrappers.dfy`: `Option`, standing for a Java reference that may be null.
- `geo_location.dfy`: the coordinate pair, with distance and string form as
  caller-supplied functions (the location class is not part of this model).
- `geocode_response.dfy`: the XML response as a value. A parsed document is
  its `result` elements in document order plus the set of path expressions
  whose evaluation throws on it; `Document = Option<Response>`, where `None`
  is the null document a failed fetch leaves. Each of the six XPath
  expressions becomes a projection of the first result. A null document is
  evaluated like an empty one, so every string is `""` and the `type`
  node-set is empty.
- `tag_join.dfy`: the joined tag string. `Join` is built the way the loop
  builds it. `JoinRef` is an independent reference definition of the same
  shape, and `Split` undoes it on non-empty lists of texts without commas
  (the empty list and the list `[""]` both join to `""`).
- `place_information.dfy`: `PlaceInformation` as a datatype with its getters,
  `ToString` and `DistanceFrom`.
- `geo_coder.dfy`: the client. `GetTag` is a method with the source's loop.
  The straight-line lookups are functions. A Java call that can return null
  or throw returns a `Call` value (`ReturnsNull`, `Returns(v)`,
  `ThrowsNullPointer`).

Behaviour worth noting, read from the code:

- If the URL encoder throws, the raw query is appended to the prefix.
- A failing lookup of the `type` elements is caught inside `getTag`. The tag
  is then `""` and the place is still built. Only failures reading the name
  or the address make `findPlace` return null.
- If reading lat or lng fails after the first-result check passed,
  `find(Document)` returns null. When the name and address reads then
  succeed, `findPlace` dereferences that null and throws
  `NullPointerException`; the model keeps that outcome as
  `ThrowsNullPointer`. When the name or address read fails, the catch
  returns null before the dereference.

## Model

| member | source | states |
|---|---|---|
| `PlaceInfo.Create` | PlaceInformation.java:9-27 | the getters return exactly the name, address and tag given, and the location holds the given latitude and longitude |
| `PlaceInfo.CreateIsInjective` | PlaceInformation.java:9-13 | two places are equal exactly when all five constructor arguments are equal, so no argument is dropped or altered |
| `PlaceInfo.DelegatesToLocation` | PlaceInformation.java:29-39 | `distanceFrom(spot)` and `toString()` equal the location's distance to `spot` and its string form, for the location built from the constructor's coordinates |
| `GeocodeResponse.EvalString` | GeoCoder.java:161-165 | a string lookup throws exactly when its expression fails on the document; with no first result it yields `""` |
| `GeocodeResponse.EvalNumber` | GeoCoder.java:162-163 | a lat/lng lookup throws exactly when its expression fails on the document |
| `GeocodeResponse.EvalTypeNodes` | GeoCoder.java:166 | the `type` lookup throws exactly when its expression fails; with no first result the node-set is empty |
| `TagJoin.JoinMatchesReference` | GeoCoder.java:112-116 | the loop-shaped join equals the first type followed by each later type preceded by `", "`: no leading or trailing separator |
| `TagJoin.SplitJoin` | GeoCoder.java:113-116 | splitting the joined string at `", "` gives back the types in document order, when no type contains a comma |
| `TagJoin.JoinEnds` | GeoCoder.java:113-116 | the joined string starts with the first type and ends with the last |
| `GeoCoder.UrlEncodeUtf8` | GeoCoder.java:193-200 | the encoder's output when it succeeds, the raw query when the encoding is unsupported |
| `GeoCoder.QueryUrl` | GeoCoder.java:128 | the request URL starts with `QUERY_URL_PREFIX` and the rest of it is exactly the encoded query |
| `GeoCoder.QueryUrlDeterminesEncoding` | GeoCoder.java:128 | two queries yield the same URL if and only if they encode to the same text |
| `GeoCoder.ParseQueryResultsIntoDocument` | GeoCoder.java:126-136 | the document is null exactly when fetching or parsing the request URL fails, and otherwise is the parsed response |
| `GeoCoder.ContainsLocationResult` | GeoCoder.java:81-90 | true if and only if the lookup does not fail, the document is non-null and its first result has a non-empty string value |
| `GeoCoder.FindLocation` | GeoCoder.java:94-104 | null exactly when reading lat or lng fails; otherwise the first result's latitude and longitude |
| `GeoCoder.GetTag` | GeoCoder.java:108-123 | the loop's result is the first result's types joined by `", "` in document order, or `""` when the lookup fails |
| `GeoCoder.TagShape` | GeoCoder.java:108-122 | the tag is `""` when the lookup fails or there are no types, a single type unchanged, and otherwise the reference join, from which the types can be recovered |
| `GeoCoder.FindInDocument` | GeoCoder.java:33-39 | null when there is no first result; non-null if and only if a first result exists and lat and lng read; then the first result's coordinates |
| `GeoCoder.Find` | GeoCoder.java:29-40 | null when the fetch fails; on a parsed response, exactly the outcome of `FindInDocument` on it; a non-null result is the top hit's coordinates |
| `GeoCoder.FindPlaceInDocument` | GeoCoder.java:52-76 | null when there is no first result or name/address reading fails; throws exactly when those succeed but lat or lng fail; a place exactly when all succeed, holding the first result's first long name, formatted address, joined types (`""` if that lookup fails) and coordinates |
| `GeoCoder.FindPlace` | GeoCoder.java:48-77 | null when the fetch fails; on a parsed response, exactly the outcome of `FindPlaceInDocument` on it (null, a place, or the thrown `NullPointerException`); a returned place holds the top hit's first long name, formatted address and coordinates |
| `GeoCoder.FailureLooksLikeNoResult` | GeoCoder.java:126-136 | a failed fetch gives the same null from `find` and `findPlace` as a response with zero results |
| `GeoCoder.OnlyFirstResultMatters` | GeoCoder.java:161-166 | results after the first never change what `find` or `findPlace` return |
| `GeoCoder.TwoTypesExample` | GeoCoder.java:112-116 | a result typed `landmark` and `point_of_interest` gets the tag `"landmark, point_of_interest"` |

## Left out

- GeoCoder.FindLocation: requires a first result. Without one, XPath number conversion gives NaN, which the model does not represent. Both callers check for a first result before calling it.
- The network fetch and the XML parser are a parameter (`Fetcher`). Its outcome is a parsed response, a SAX failure or an I/O failure.
- `URLEncoder.encode` is a parameter (`Encoder`). The message printed to standard error when the encoding is unsupported is not modelled.
- XPath compilation and the static initializer are not modelled. A null `DOC_BUILDER` or a null compiled expression would fail with an uncaught exception.
- The XPath engine is replaced by projections of the first result. The element string-value of a result is the opaque field `text`, because the other fields do not determine it (whitespace, short names and other children all add to it).
- Latitude and longitude are exact `real` numbers. Text-to-double conversion, NaN for a missing element and rounding are not modelled.
- A `DOMException` from `getTextContent` in `getTag` is not modelled. The source does not catch it.
- `handleException` does nothing, so it has no counterpart.
- The location class (haversine distance, string form, symmetry of distance) is not part of this model. Distance and string form are uninterpreted functions passed in by the caller.
- The console programs `DistanceFinder` and `GeoLocationClient` only read input and print. They are not modelled.

/**
  GeoCoder: resolves a free-text query into the top hit of the geocoding
  service. The network fetch, the XML parser and the URL encoder are
  parameters; the XPath queries are projections of the first result (see
  module GeocodeResponse). Every "no result" case comes back as Java's null.
*/
module GeoCoder {
  import opened Wrappers
  import opened Location
  import opened GeocodeResponse
  import opened PlaceInfo
  import TagJoin

  const QUERY_URL_PREFIX: string := "https://maps.googleapis.com/maps/api/geocode/xml?sensor=false&address="

  /** What the document builder does with a URL: a parsed document, or one of the exceptions it throws. */
  datatype Fetched = Parsed(response: Response) | SaxFailure | IoFailure

  /** The URL-encoder: None stands for UnsupportedEncodingException. */
  type Encoder = string -> Option<string>

  /** The network fetch and XML parse of one URL. */
  type Fetcher = string -> Fetched

  /** How a Java call that returns an object ends. */
  datatype Call<T> = ReturnsNull | Returns(value: T) | ThrowsNullPointer

  /** URL-encodes the query; if the encoding is unsupported the query is used as it is. */
  function UrlEncodeUtf8(query: string, encode: Encoder): (r: string)
    ensures encode(query).None? ==> r == query
    ensures encode(query).Some? ==> r == encode(query).value
  {
    match encode(query)
    case Some(encoded) => encoded
    case None => query
  }

  /** The request URL: the fixed prefix, then the encoded query and nothing else. */
  function QueryUrl(query: string, encode: Encoder): (url: string)
    ensures QUERY_URL_PREFIX <= url
    ensures url[|QUERY_URL_PREFIX|..] == UrlEncodeUtf8(query, encode)
  {
    QUERY_URL_PREFIX + UrlEncodeUtf8(query, encode)
  }

  /** Two queries give the same URL exactly when they encode to the same text. */
  lemma QueryUrlDeterminesEncoding(q1: string, q2: string, encode: Encoder)
    ensures QueryUrl(q1, encode) == QueryUrl(q2, encode) <==> UrlEncodeUtf8(q1, encode) == UrlEncodeUtf8(q2, encode)
  {
    if QueryUrl(q1, encode) == QueryUrl(q2, encode) {
      assert QueryUrl(q1, encode)[|QUERY_URL_PREFIX|..] == QueryUrl(q2, encode)[|QUERY_URL_PREFIX|..];
    }
  }

  /** Fetches and parses the response to a query; a SAX or I/O failure leaves null. */
  function ParseQueryResultsIntoDocument(query: string, encode: Encoder, fetch: Fetcher): (doc: Document)
    ensures doc.None? <==> !fetch(QueryUrl(query, encode)).Parsed?
    ensures doc.Some? ==> doc.value == fetch(QueryUrl(query, encode)).response
  {
    match fetch(QueryUrl(query, encode))
    case Parsed(response) => Some(response)
    case SaxFailure => None
    case IoFailure => None
  }

  /**
    Whether the document has a first result with a non-empty string value;
    an evaluation failure counts as no result.
  */
  function ContainsLocationResult(doc: Document): (r: bool)
    ensures r <==> !Throws(doc, FirstResult) && doc.Some? && |doc.value.results| > 0
                   && doc.value.results[0].text != ""
  {
    match EvalString(doc, FirstResult)
    case None => false
    case Some(result) => result != ""
  }

  /**
    find(Document): the coordinates of the first result, or null when reading
    either of them fails. Both callers only call it once a first result exists.
  */
  function FindLocation(doc: Document): (r: Option<GeoLocation>)
    requires doc.Some? && |doc.value.results| > 0
    ensures r.None? <==> Throws(doc, Lat) || Throws(doc, Lng)
    ensures r.Some? ==>
      r.value.latitude == doc.value.results[0].latitude && r.value.longitude == doc.value.results[0].longitude
  {
    match EvalNumber(doc, Lat)
    case None => None
    case Some(lat) =>
      match EvalNumber(doc, Lng)
      case None => None
      case Some(lng) => Some(GeoLocation(lat, lng))
  }

  /** The tag string getTag produces: the first result's types joined by ", "; "" if that lookup fails. */
  function TagString(doc: Document): string
  {
    match EvalTypeNodes(doc)
    case None => ""
    case Some(nodes) => TagJoin.Join(nodes)
  }

  /** getTag: builds the tag string one `type` node at a time. */
  method GetTag(doc: Document) returns (tag: string)
    ensures tag == TagString(doc)
  {
    tag := "";
    var typeNodes := EvalTypeNodes(doc);
    if typeNodes.Some? {
      var nodes := typeNodes.value;
      if |nodes| >= 1 {
        tag := nodes[0];
        for i := 1 to |nodes|
          invariant tag == TagJoin.Join(nodes[..i])
        {
          assert nodes[..i + 1][..i] == nodes[..i];
          tag := tag + (TagJoin.SEPARATOR + nodes[i]);
        }
        assert nodes[..|nodes|] == nodes;
      }
    }
  }

  /**
    The tag string's shape: "" when the lookup fails or there are no types;
    a single type unchanged; otherwise the types in document order, each
    after the first preceded by ", ", and recoverable when none has a comma.
  */
  lemma TagShape(doc: Document)
    ensures Throws(doc, Tag) || First(doc).None? || |First(doc).value.types| == 0 ==> TagString(doc) == ""
    ensures !Throws(doc, Tag) && First(doc).Some? ==> TagString(doc) == TagJoin.JoinRef(First(doc).value.types)
    ensures !Throws(doc, Tag) && First(doc).Some? && |First(doc).value.types| == 1
            ==> TagString(doc) == First(doc).value.types[0]
    ensures !Throws(doc, Tag) && First(doc).Some? && |First(doc).value.types| >= 1
            && (forall i :: 0 <= i < |First(doc).value.types| ==> ',' !in First(doc).value.types[i])
            ==> TagJoin.Split(TagString(doc)) == First(doc).value.types
  {
    if !Throws(doc, Tag) && First(doc).Some? {
      var types := First(doc).value.types;
      TagJoin.JoinMatchesReference(types);
      if |types| >= 1 && forall i :: 0 <= i < |types| ==> ',' !in types[i] {
        TagJoin.SplitJoin(types);
      }
    }
  }

  /** find(String) after the fetch: the first result's coordinates, or null. */
  function FindInDocument(doc: Document): (r: Option<GeoLocation>)
    ensures !ContainsLocationResult(doc) ==> r.None?
    ensures r.Some? <==> ContainsLocationResult(doc) && !Throws(doc, Lat) && !Throws(doc, Lng)
    ensures r.Some? ==> r.value == GeoLocation(doc.value.results[0].latitude, doc.value.results[0].longitude)
  {
    if !ContainsLocationResult(doc) then None else FindLocation(doc)
  }

  /** find(String): fetch the response to the query and take the top hit's coordinates. */
  function Find(query: string, encode: Encoder, fetch: Fetcher): (r: Option<GeoLocation>)
    ensures !fetch(QueryUrl(query, encode)).Parsed? ==> r.None?
    ensures r.Some? ==>
      fetch(QueryUrl(query, encode)).Parsed? && ContainsLocationResult(Some(fetch(QueryUrl(query, encode)).response))
    ensures fetch(QueryUrl(query, encode)).Parsed? ==>
      r == FindInDocument(Some(fetch(QueryUrl(query, encode)).response))
    ensures r.Some? ==>
      var top := fetch(QueryUrl(query, encode)).response.results[0];
      r.value == GeoLocation(top.latitude, top.longitude)
  {
    FindInDocument(ParseQueryResultsIntoDocument(query, encode, fetch))
  }

  /**
    findPlace(String) after the fetch. Null when there is no first result or
    reading the name or the address fails; a failure reading the types is
    caught inside getTag and leaves the tag empty. A failure reading lat or
    lng leaves find(Document) null, and dereferencing it throws.
  */
  function FindPlaceInDocument(doc: Document): (r: Call<PlaceInformation>)
    ensures !ContainsLocationResult(doc) ==> r == ReturnsNull
    ensures ContainsLocationResult(doc) && (Throws(doc, Name) || Throws(doc, Address)) ==> r == ReturnsNull
    ensures r == ThrowsNullPointer
        <==> ContainsLocationResult(doc) && !Throws(doc, Name) && !Throws(doc, Address)
             && (Throws(doc, Lat) || Throws(doc, Lng))
    ensures r.Returns?
        <==> ContainsLocationResult(doc) && !Throws(doc, Name) && !Throws(doc, Address)
             && !Throws(doc, Lat) && !Throws(doc, Lng)
    ensures r.Returns? ==>
      var first := doc.value.results[0];
      r.value.GetName() == NameOf(first)
      && r.value.GetAddress() == first.formattedAddress
      && r.value.GetTag() == (if Throws(doc, Tag) then "" else TagJoin.Join(first.types))
      && r.value.GetLocation() == GeoLocation(first.latitude, first.longitude)
  {
    if !ContainsLocationResult(doc) then ReturnsNull
    else
      var geolocation := FindLocation(doc);
      match EvalString(doc, Name)
      case None => ReturnsNull
      case Some(name) =>
        match EvalString(doc, Address)
        case None => ReturnsNull
        case Some(address) =>
          var tag := TagString(doc);
          match geolocation
          case None => ThrowsNullPointer
          case Some(location) => Returns(Create(name, address, tag, location.latitude, location.longitude))
  }

  /** findPlace(String): fetch the response to the query and build a place from its top hit. */
  function FindPlace(query: string, encode: Encoder, fetch: Fetcher): (r: Call<PlaceInformation>)
    ensures !fetch(QueryUrl(query, encode)).Parsed? ==> r == ReturnsNull
    ensures r.Returns? ==>
      fetch(QueryUrl(query, encode)).Parsed? && ContainsLocationResult(Some(fetch(QueryUrl(query, encode)).response))
    ensures fetch(QueryUrl(query, encode)).Parsed? ==>
      r == FindPlaceInDocument(Some(fetch(QueryUrl(query, encode)).response))
    ensures r.Returns? ==>
      var top := fetch(QueryUrl(query, encode)).response.results[0];
      r.value.GetName() == NameOf(top) && r.value.GetAddress() == top.formattedAddress
      && r.value.GetLocation() == GeoLocation(top.latitude, top.longitude)
  {
    FindPlaceInDocument(ParseQueryResultsIntoDocument(query, encode, fetch))
  }

  /**
    A failed fetch or parse and a response with no results look the same to
    the caller: null from both find and findPlace.
  */
  lemma FailureLooksLikeNoResult(query: string, encode: Encoder, fetch: Fetcher, failing: set<Path>)
    requires !fetch(QueryUrl(query, encode)).Parsed?
    ensures Find(query, encode, fetch) == FindInDocument(Some(Response([], failing))) == None
    ensures FindPlace(query, encode, fetch) == FindPlaceInDocument(Some(Response([], failing))) == ReturnsNull
  {
  }

  /** Results after the first never influence what find and findPlace return. */
  lemma OnlyFirstResultMatters(r: Result, rest1: seq<Result>, rest2: seq<Result>, failing: set<Path>)
    ensures FindInDocument(Some(Response([r] + rest1, failing)))
         == FindInDocument(Some(Response([r] + rest2, failing)))
    ensures FindPlaceInDocument(Some(Response([r] + rest1, failing)))
         == FindPlaceInDocument(Some(Response([r] + rest2, failing)))
  {
    var d1, d2 := Some(Response([r] + rest1, failing)), Some(Response([r] + rest2, failing));
    assert First(d1) == First(d2) == Some(r);
  }

  /** A result typed "landmark" and "point_of_interest" is tagged "landmark, point_of_interest". */
  lemma TwoTypesExample(r: Result)
    requires r.text != "" && r.types == ["landmark", "point_of_interest"]
    ensures FindPlaceInDocument(Some(Response([r], {}))).Returns?
    ensures FindPlaceInDocument(Some(Response([r], {}))).value.GetTag() == "landmark, point_of_interest"
  {
    assert TagJoin.Join(r.types) == TagJoin.Join(["landmark"]) + ", " + "point_of_interest";
  }
}

/**
  The geocoding service's XML response, abstracted. Instead of a DOM and the
  XPath engine, a parsed document is the list of its `result` elements in
  document order, each reduced to the parts the client reads, plus the set of
  compiled path expressions whose evaluation throws on that document.
*/
module GeocodeResponse {
  import opened Wrappers

  /** One `result` element of the response. */
  datatype Result = Result(
    text: string,               // XPath string-value of the element: all its descendant text
    latitude: real,             // geometry/location/lat, as a number
    longitude: real,            // geometry/location/lng, as a number
    longNames: seq<string>,     // long_name of each address_component, in document order
    formattedAddress: string,   // formatted_address
    types: seq<string>)         // text of each `type` child, in document order

  /** The six compiled path expressions the client evaluates. */
  datatype Path = FirstResult | Lat | Lng | Name | Address | Tag

  /** A document the builder parsed: results of the root element, and failing expressions. */
  datatype Response = Response(results: seq<Result>, failing: set<Path>)

  /** A Java `Document` reference: None is the null left by a failed fetch or parse. */
  type Document = Option<Response>

  /** The node `result[1]` selects, if any; a null document is evaluated as an empty one. */
  function First(doc: Document): Option<Result>
  {
    if doc.Some? && |doc.value.results| > 0 then Some(doc.value.results[0]) else None
  }

  /** Whether evaluating expression `p` on `doc` throws XPathExpressionException. */
  predicate Throws(doc: Document, p: Path)
  {
    doc.Some? && p in doc.value.failing
  }

  /** The name `address_component[1]/long_name` selects: "" when there is no component. */
  function NameOf(r: Result): string
  {
    if |r.longNames| == 0 then "" else r.longNames[0]
  }

  /**
    Evaluation of a string-typed expression: None is a thrown exception; an
    empty node-set converts to the empty string.
  */
  function EvalString(doc: Document, p: Path): (r: Option<string>)
    requires p == FirstResult || p == Name || p == Address
    ensures r.None? <==> Throws(doc, p)
    ensures r.Some? && First(doc).None? ==> r.value == ""
  {
    if Throws(doc, p) then None
    else match First(doc)
      case None => Some("")
      case Some(res) =>
        Some(if p == FirstResult then res.text
             else if p == Name then NameOf(res)
             else res.formattedAddress)
  }

  /** Evaluation of the lat or lng expression as a number, on a document that has a first result. */
  function EvalNumber(doc: Document, p: Path): (r: Option<real>)
    requires p == Lat || p == Lng
    requires First(doc).Some?
    ensures r.None? <==> Throws(doc, p)
  {
    if Throws(doc, p) then None
    else if p == Lat then Some(First(doc).value.latitude)
    else Some(First(doc).value.longitude)
  }

  /** Evaluation of the `type` expression as a node-set: the text of each node, in document order. */
  function EvalTypeNodes(doc: Document): (r: Option<seq<string>>)
    ensures r.None? <==> Throws(doc, Tag)
    ensures r.Some? && First(doc).None? ==> r.value == []
  {
    if Throws(doc, Tag) then None
    else match First(doc)
      case None => Some([])
      case Some(res) => Some(res.types)
  }
}

/**
 * The values that flow through the query pipeline: field values as the document
 * store and the vector store's metadata hold them, the rows a retrieval returns,
 * and the items of the response list that the query handler builds.
 */
module Records {
  import opened Wrappers
  import opened Strings

  /** A field value of a stored apartment record: `None`, an integer, a string or a
      list of strings.  Floating-point prices and areas are modelled as integers. */
  datatype Value = Null | Int(i: int) | Str(s: string) | StrList(items: seq<string>)

  /** Python truthiness of a field value. */
  predicate Truthy(v: Value) {
    match v
    case Null => false
    case Int(i) => i != 0
    case Str(s) => s != ""
    case StrList(xs) => xs != []
  }

  /** Python truthiness of an optional string (`if location:`): `None` and `""` are false. */
  predicate Present(o: Option<string>) {
    o.Some? && o.value != ""
  }

  function Quoted(xs: seq<string>): (r: seq<string>)
    ensures |r| == |xs|
  {
    if xs == [] then [] else ["'" + xs[0] + "'"] + Quoted(xs[1..])
  }

  /** `str(v)`, as an f-string renders a field value. */
  function Show(v: Value): string {
    match v
    case Null => "None"
    case Int(i) => IntToString(i)
    case Str(s) => s
    case StrList(xs) => "[" + Join(Quoted(xs), ", ") + "]"
  }

  /** `d.get(key, default)` on a field that may be absent. */
  function GetOr(field: Option<Value>, default: Value): (v: Value)
    ensures field.Some? ==> v == field.value
    ensures field.None? ==> v == default
  {
    if field.Some? then field.value else default
  }

  /** The similarity score of a vector-store hit, carried without interpretation. */
  type Score = real

  /** One retrieved row: a record from the document store, or a vector-store metadata
      dict with the score attached.  `None` means the key is absent from the dict. */
  datatype Record = Record(
    bedrooms: Option<Value>,
    location: Option<Value>,
    price: Option<Value>,
    areaSqft: Option<Value>,
    amenities: Option<Value>,
    similarityScore: Option<Score>)

  /** The metadata dict attached to each embedded document (all keys always present;
      `amenities` is already comma-joined, `city` is derived from the location). */
  datatype DocMetadata = DocMetadata(
    bedrooms: Value,
    location: Value,
    price: Value,
    areaSqft: Value,
    amenities: string,
    city: string)

  /** One `(document, score)` pair returned by the vector store. */
  datatype Hit = Hit(meta: DocMetadata, score: Score)

  /** The `details` object of an enriched result: the five fields copied with `.get`. */
  datatype Details = Details(bedrooms: Value, location: Value, price: Value, areaSqft: Value, amenities: Value)

  /** A `summary`: a fixed or composed message, or the listing card of one record
      (its bedroom, location, area, price and amenity texts, and the relevance score
      when the record has one).  Emoji and markdown decoration are not modelled. */
  datatype Summary =
    | Message(text: string)
    | Card(bedrooms: string, location: string, area: string, price: string, amenities: string, relevance: Option<Score>)

  /** One item of the list the query handler returns; `None` fields are absent keys. */
  datatype ResponseItem = ResponseItem(
    summary: Option<Summary>,
    kind: Option<string>,
    details: Option<Details>,
    similarityScore: Option<Score>)
}

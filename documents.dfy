/**
 * `create_langchain_documents` in app/data_loader.py: one embeddable document per
 * stored apartment record, with a descriptive text and a metadata dict.  Absent
 * fields take fixed defaults, the amenity list is comma-joined, and `city` is
 * the last comma-separated piece of the location, stripped and lower-cased.
 */
module Documents {
  import opened Wrappers
  import opened Strings
  import opened Records

  /** One LangChain `Document`: its `page_content` and its `metadata`. */
  datatype Document = Document(text: string, meta: DocMetadata)

  /** The three characters the source text puts in front of the price (a
      mis-decoded rupee sign). */
  const PriceMark: string := "\U{201A}\U{00C7}\U{03C0}"

  /** `location.split(",")[-1].strip().lower()` */
  function CityOf(location: string): string {
    Lower(Strip(AfterLast(location, ',')))
  }

  /** The records the loop can process without raising: `amenities` is absent, a
      list or a string (which `join` takes character by character), and a truthy
      `location` is a string, since it is split. */
  predicate Loadable(r: Record) {
    && (r.amenities.None? || r.amenities.value.StrList? || r.amenities.value.Str?)
    && (r.location.None? || r.location.value.Str? || !Truthy(r.location.value))
  }

  /** The one-character strings of `s`, as iterating over a string yields them. */
  function Chars(s: string): (r: seq<string>)
    ensures |r| == |s|
  {
    seq(|s|, i requires 0 <= i < |s| => [s[i]])
  }

  /** `", ".join(apartment.get('amenities', []))` */
  function JoinedAmenities(a: Option<Value>): string
    requires a.None? || a.value.StrList? || a.value.Str?
  {
    match a
    case None => ""
    case Some(v) => if v.StrList? then Join(v.items, ", ") else Join(Chars(v.s), ", ")
  }

  /** The `city` entry: the city of a truthy location, "unknown" otherwise. */
  function CityEntry(location: Value): string
    requires location.Str? || !Truthy(location)
  {
    if Truthy(location) then CityOf(location.s) else "unknown"
  }

  /** The default of an absent location. */
  const DefaultLocation: string := "an unknown location"

  /** The `metadata` dict of the document for `r`.  An absent location defaults to
      `DefaultLocation`, whose city is itself (`DefaultCityIsItself`); the city
      entry is written with that value directly. */
  function MetadataFor(r: Record): (m: DocMetadata)
    requires Loadable(r)
    ensures r.bedrooms.Some? ==> m.bedrooms == r.bedrooms.value
    ensures r.location.Some? ==> m.location == r.location.value
    ensures r.price.Some? ==> m.price == r.price.value
    ensures r.areaSqft.Some? ==> m.areaSqft == r.areaSqft.value
    ensures r.bedrooms.None? ==> m.bedrooms == Str("?")
    ensures r.location.None? ==> m.location == Str(DefaultLocation)
    ensures r.price.None? ==> m.price == Str("a negotiable price")
    ensures r.areaSqft.None? ==> m.areaSqft == Str("unknown area")
    ensures m.amenities == JoinedAmenities(r.amenities)
  {
    var location := GetOr(r.location, Str(DefaultLocation));
    DocMetadata(
      GetOr(r.bedrooms, Str("?")),
      location,
      GetOr(r.price, Str("a negotiable price")),
      GetOr(r.areaSqft, Str("unknown area")),
      JoinedAmenities(r.amenities),
      if r.location.None? then DefaultLocation else CityEntry(r.location.value))
  }

  /** The `page_content` sentence built from the metadata's values. */
  function TextFor(m: DocMetadata): string {
    "This is a " + Show(m.bedrooms) + " BHK apartment in " + Show(m.location) + ". "
    + "It spans " + Show(m.areaSqft) + " sqft and is priced at " + PriceMark + Show(m.price) + ". "
    + "Key amenities include: " + m.amenities + "."
  }

  function DocumentFor(r: Record): Document
    requires Loadable(r)
  {
    var m := MetadataFor(r);
    Document(TextFor(m), m)
  }

  predicate AllLoadable(data: seq<Record>) {
    forall i :: 0 <= i < |data| ==> Loadable(data[i])
  }

  /** One document per record, in order. */
  function DocumentsFor(data: seq<Record>): (docs: seq<Document>)
    requires AllLoadable(data)
    ensures |docs| == |data|
  {
    if data == [] then [] else DocumentsFor(data[..|data| - 1]) + [DocumentFor(data[|data| - 1])]
  }

  /** The loop of `create_langchain_documents`. */
  method BuildDocuments(data: seq<Record>) returns (docs: seq<Document>)
    requires AllLoadable(data)
    ensures docs == DocumentsFor(data)
  {
    docs := [];
    for i := 0 to |data|
      invariant docs == DocumentsFor(data[..i])
    {
      assert data[..i + 1][..i] == data[..i];
      docs := docs + [DocumentFor(data[i])];
    }
    assert data[..|data|] == data;
  }
}

module DocumentProperties {
  import opened Wrappers
  import opened Strings
  import opened Records
  import opened Documents

  /** The i-th document is the document of the i-th record. */
  lemma {:induction false} DocumentsAreInOrder(data: seq<Record>, i: nat)
    requires AllLoadable(data) && i < |data|
    ensures DocumentsFor(data)[i] == DocumentFor(data[i])
  {
    if i < |data| - 1 {
      DocumentsAreInOrder(data[..|data| - 1], i);
    }
  }

  lemma LowerCharKeepsOthers(c: char)
    ensures IsSpace(LowerChar(c)) <==> IsSpace(c)
    ensures LowerChar(c) == ',' <==> c == ','
  {
  }

  /** Lower-casing keeps commas out and keeps the ends free of whitespace. */
  lemma LowerKeepsShape(s: string)
    requires ',' !in s
    requires s != [] ==> !IsSpace(s[0]) && !IsSpace(s[|s| - 1])
    ensures ',' !in Lower(s)
    ensures Lower(s) != [] ==> !IsSpace(Lower(s)[0]) && !IsSpace(Lower(s)[|s| - 1])
  {
    var c := Lower(s);
    forall i | 0 <= i < |c|
      ensures c[i] != ','
    {
      LowerCharKeepsOthers(s[i]);
    }
    if c != [] {
      LowerCharKeepsOthers(s[0]);
      LowerCharKeepsOthers(s[|s| - 1]);
    }
  }

  /** The city holds no comma and no upper-case letter, and has no surrounding
      whitespace. */
  lemma CityShape(location: string)
    ensures ',' !in CityOf(location)
    ensures forall i :: 0 <= i < |CityOf(location)| ==> !IsUpper(CityOf(location)[i])
    ensures CityOf(location) != [] ==>
      !IsSpace(CityOf(location)[0]) && !IsSpace(CityOf(location)[|CityOf(location)| - 1])
  {
    var a := AfterLast(location, ',');
    StripShape(a);
    LowerKeepsShape(Strip(a));
  }

  /** The piece after the last `c` starts just after the last index holding `c`. */
  lemma {:induction false} AfterLastAt(s: string, c: char, i: nat)
    requires i < |s| && s[i] == c
    requires forall j :: i < j < |s| ==> s[j] != c
    ensures AfterLast(s, c) == s[i + 1..]
    decreases |s| - i
  {
    if i < |s| - 1 {
      AfterLastAt(s[..|s| - 1], c, i);
      assert s[..|s| - 1][i + 1..] + [s[|s| - 1]] == s[i + 1..];
    }
  }

  /** A location without a comma is its own city, stripped and lower-cased. */
  lemma {:induction false} CityWithoutComma(location: string)
    requires ',' !in location
    ensures CityOf(location) == Lower(Strip(location))
  {
    if location != [] {
      CityWithoutComma(location[..|location| - 1]);
    }
  }

  /** A location with no comma, no surrounding whitespace and no capital is its
      own city. */
  lemma CleanCity(location: string)
    requires ',' !in location
    requires location != [] ==> !IsSpace(location[0]) && !IsSpace(location[|location| - 1])
    requires forall i :: 0 <= i < |location| ==> !IsUpper(location[i])
    ensures CityOf(location) == location
  {
    CityWithoutComma(location);
    StripUnchanged(location);
  }

  lemma DefaultCityIsItself()
    ensures CityOf(DefaultLocation) == DefaultLocation
  {
    CleanCity(DefaultLocation);
  }

  /** The city entry is what the source computes from the defaulted location. */
  lemma MetadataCityFromLocation(r: Record)
    requires Loadable(r)
    ensures MetadataFor(r).city == CityEntry(GetOr(r.location, Str(DefaultLocation)))
  {
    if r.location.None? {
      DefaultCityIsItself();
    }
  }

  /** The city is the last comma-separated piece, stripped and lower-cased. */
  lemma CityAfterComma(location: string, i: nat, city: string)
    requires i < |location| && location[i] == ','
    requires forall j :: i < j < |location| ==> location[j] != ','
    requires Lower(Strip(location[i + 1..])) == city
    ensures CityOf(location) == city
  {
    AfterLastAt(location, ',', i);
  }

  /** One leading space before a clean word is stripped off. */
  lemma StripLeadingSpace(s: string)
    requires |s| >= 2 && IsSpace(s[0]) && !IsSpace(s[1]) && !IsSpace(s[|s| - 1])
    ensures Strip(s) == s[1..]
  {
    assert TrimLeft(s) == TrimLeft(s[1..]) == s[1..];
  }

  lemma PuneLower()
    ensures Lower("Pune") == "pune"
  {
    var l := Lower("Pune");
    assert l[0] == LowerChar('P') == 'p';
  }

  /** The city of `prefix,piece` comes from `piece` alone when it has no comma. */
  lemma CityOfLastPiece(prefix: string, piece: string)
    requires ',' !in piece
    ensures CityOf(prefix + "," + piece) == Lower(Strip(piece))
  {
    var loc := prefix + "," + piece;
    assert loc[|prefix| + 1..] == piece;
    CityAfterComma(loc, |prefix|, Lower(Strip(piece)));
  }

  lemma PuneStripped()
    ensures Strip(" Pune") == "Pune"
  {
    StripLeadingSpace(" Pune");
    assert " Pune"[1..] == "Pune";
  }

  /** Every location ending in ", Pune" is filed under the city "pune". */
  lemma PuneLocations(prefix: string)
    ensures CityOf(prefix + ", Pune") == "pune"
  {
    assert prefix + ", Pune" == prefix + "," + " Pune";
    assert ',' !in " Pune";
    CityOfLastPiece(prefix, " Pune");
    PuneStripped();
    PuneLower();
  }

  /** "Koregaon Park, Pune" is filed under the city "pune". */
  lemma KoregaonParkCity()
    ensures CityOf("Koregaon Park, Pune") == "pune"
  {
    assert "Koregaon Park, Pune" == "Koregaon Park" + ", Pune";
    PuneLocations("Koregaon Park");
  }

  /** The metadata entries the semantic search deduplicates on are the record's own
      fields whenever the record has them. */
  lemma MetadataKeepsFields(r: Record)
    requires Loadable(r)
    requires r.bedrooms.Some? && r.location.Some? && r.price.Some? && r.areaSqft.Some?
    ensures var m := MetadataFor(r);
      (m.bedrooms, m.location, m.price, m.areaSqft)
      == (r.bedrooms.value, r.location.value, r.price.value, r.areaSqft.value)
  {
  }
}

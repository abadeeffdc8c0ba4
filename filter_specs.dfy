/**
 * The filter dict that `filter_based_search` in app/data_loader.py builds before
 * it queries the document store: a bedroom count read by `(\d)\s?bhk`, the
 * resolved location, one price bound read by `(under|below)\s?(\d+)` or
 * `(above|over)\s?(\d+)`, and the list of required amenities.  The regular
 * expressions are written out as leftmost-match scans.
 */
module FilterSpecs {
  import opened Wrappers
  import opened Strings
  import opened Records
  import opened LocationResolver

  /** `{"$lte": n}` or `{"$gte": n}` on the price. */
  datatype PriceBound = AtMost(ceiling: nat) | AtLeast(floor: nat)

  /** The filter dict; `None` means the key is absent.  `amenities` is `{"$all": xs}`. */
  datatype FilterSpec = FilterSpec(
    bedrooms: Option<nat>,
    location: Option<string>,
    price: Option<PriceBound>,
    amenities: Option<seq<string>>)

  /** `{}`: the dict that matches every record. */
  const NoFilter: FilterSpec := FilterSpec(None, None, None, None)

  // ---------------------------------------------------------------------------
  // (\d)\s?bhk

  /** `(\d)\s?bhk` matches starting at `i`. */
  predicate BhkAt(q: string, i: int) {
    && 0 <= i < |q|
    && IsDigit(q[i])
    && (MatchAt(q, "bhk", i + 1) || (i + 1 < |q| && IsSpace(q[i + 1]) && MatchAt(q, "bhk", i + 2)))
  }

  /** The leftmost match of `(\d)\s?bhk` at or after `from`. */
  function FirstBhk(q: string, from: nat): (r: Option<nat>)
    requires from <= |q|
    ensures r.Some? ==> from <= r.value < |q| && BhkAt(q, r.value)
    ensures r.Some? ==> forall j :: from <= j < r.value ==> !BhkAt(q, j)
    ensures r.None? ==> forall j :: from <= j < |q| ==> !BhkAt(q, j)
    decreases |q| - from
  {
    if from == |q| then None
    else if BhkAt(q, from) then Some(from)
    else FirstBhk(q, from + 1)
  }

  /** `int(re.search(r'(\d)\s?bhk', q).group(1))`, if there is a match. */
  function Bedrooms(q: string): (r: Option<nat>)
    ensures r.Some? <==> exists i :: BhkAt(q, i)
    ensures r.Some? ==> r.value < 10
    ensures r.Some? ==>
      exists i :: BhkAt(q, i) && r.value == DigitValue(q[i]) && forall j :: 0 <= j < i ==> !BhkAt(q, j)
  {
    match FirstBhk(q, 0)
    case Some(i) => Some(DigitValue(q[i]))
    case None => None
  }

  // ---------------------------------------------------------------------------
  // (under|below)\s?(\d+) and (above|over)\s?(\d+)

  /** The end of the run of digits that starts at `d`: `\d+` is greedy. */
  function DigitRunEnd(q: string, d: nat): (e: nat)
    requires d <= |q|
    ensures d <= e <= |q|
    ensures forall k :: d <= k < e ==> IsDigit(q[k])
    ensures e == |q| || !IsDigit(q[e])
    decreases |q| - d
  {
    if d < |q| && IsDigit(q[d]) then DigitRunEnd(q, d + 1) else d
  }

  /** The value of the digit run starting at `d`. */
  function NumberFrom(q: string, d: nat): nat
    requires d <= |q|
  {
    DecimalValue(q[d..DigitRunEnd(q, d)])
  }

  /** `\s?(\d+)` at `j`: one optional whitespace character, taken when a digit
      follows it, then the longest run of digits. */
  function NumberAt(q: string, j: nat): (r: Option<nat>)
    ensures r.Some? <==> (j < |q| && IsDigit(q[j])) || (j + 1 < |q| && IsSpace(q[j]) && IsDigit(q[j + 1]))
    ensures r.Some? ==> r.value == NumberFrom(q, if IsSpace(q[j]) then j + 1 else j)
  {
    if j + 1 < |q| && IsSpace(q[j]) && IsDigit(q[j + 1]) then Some(NumberFrom(q, j + 1))
    else if j < |q| && IsDigit(q[j]) then Some(NumberFrom(q, j))
    else None
  }

  /** `(w1|w2|...)\s?(\d+)` at `i`: the alternatives are tried in order and the
      first one that lets the rest of the pattern match wins. */
  function AltNumberAt(q: string, words: seq<string>, i: nat): (r: Option<nat>)
    ensures r.Some? ==> exists w :: w in words && MatchAt(q, w, i) && NumberAt(q, i + |w|) == r
    ensures r.None? ==> forall w :: w in words && MatchAt(q, w, i) ==> NumberAt(q, i + |w|).None?
  {
    if words == [] then None
    else
      var w, n := words[0], NumberAt(q, i + |words[0]|);
      if MatchAt(q, w, i) && n.Some? then
        assert w in words;
        n
      else
        assert forall w' :: w' in words ==> w' == w || w' in words[1..];
        AltNumberAt(q, words[1..], i)
  }

  /** The start that `re.search` of `(w1|w2|...)\s?(\d+)` finds at or after
      `from`: the leftmost position where the pattern matches. */
  function FirstMatch(q: string, words: seq<string>, from: nat): (r: Option<nat>)
    requires from <= |q| + 1
    ensures r.Some? ==> from <= r.value <= |q| && AltNumberAt(q, words, r.value).Some?
    ensures r.Some? ==> forall j :: from <= j < r.value ==> AltNumberAt(q, words, j).None?
    ensures r.None? ==> forall i :: from <= i <= |q| ==> AltNumberAt(q, words, i).None?
    decreases |q| + 1 - from
  {
    if from == |q| + 1 then None
    else if AltNumberAt(q, words, from).Some? then Some(from)
    else FirstMatch(q, words, from + 1)
  }

  /** The amount `re.search` reads: the number of the leftmost match. */
  function FirstNumber(q: string, words: seq<string>, from: nat): (r: Option<nat>)
    requires from <= |q| + 1
    ensures FirstMatch(q, words, from).None? ==> r.None?
    ensures FirstMatch(q, words, from).Some? ==> r.Some? && r == AltNumberAt(q, words, FirstMatch(q, words, from).value)
  {
    match FirstMatch(q, words, from)
    case Some(i) => AltNumberAt(q, words, i)
    case None => None
  }

  const CeilingWords: seq<string> := ["under", "below"]
  const FloorWords: seq<string> := ["above", "over"]

  /** The amount of `(under|below)\s?(\d+)`, or `None` when the search fails. */
  function Ceiling(q: string): Option<nat> {
    FirstNumber(q, CeilingWords, 0)
  }

  /** The amount of `(above|over)\s?(\d+)`, or `None` when the search fails. */
  function Floor(q: string): Option<nat> {
    FirstNumber(q, FloorWords, 0)
  }

  /** The price part: the ceiling branch is taken whenever "under" or "below"
      occurs, and the floor branch only otherwise; a failed search (the bare
      `except`) leaves the price key out. */
  function PriceFor(q: string): (r: Option<PriceBound>)
    ensures r.Some? && r.value.AtMost? <==> ContainsAny(q, CeilingWords) && Ceiling(q).Some?
    ensures r.Some? && r.value.AtMost? ==> r.value.ceiling == Ceiling(q).value
    ensures r.Some? && r.value.AtLeast? <==>
      !ContainsAny(q, CeilingWords) && ContainsAny(q, FloorWords) && Floor(q).Some?
    ensures r.Some? && r.value.AtLeast? ==> r.value.floor == Floor(q).value
  {
    if ContainsAny(q, CeilingWords) then
      match Ceiling(q)
      case Some(n) => Some(AtMost(n))
      case None => None
    else if ContainsAny(q, FloorWords) then
      match Floor(q)
      case Some(n) => Some(AtLeast(n))
      case None => None
    else None
  }

  // ---------------------------------------------------------------------------
  // amenities

  /** The amenity keywords and the names they require, in the order tested. */
  const AmenityTable: seq<(string, string)> := [("pool", "Swimming Pool"), ("gym", "Gym"), ("parking", "Parking")]

  /** The names of the table rows whose keyword occurs in `q`, in table order. */
  function Selected(table: seq<(string, string)>, q: string): (r: seq<string>)
    ensures |r| <= |table|
    ensures forall n :: n in r ==> exists k :: (k, n) in table && Contains(q, k)
    ensures forall k, n :: (k, n) in table && Contains(q, k) ==> n in r
  {
    if table == [] then []
    else (if Contains(q, table[0].0) then [table[0].1] else []) + Selected(table[1..], q)
  }

  /** The three `if ... in query: amenities.append(...)` tests. */
  function AmenityList(q: string): (r: seq<string>)
    ensures |r| <= 3
  {
    var r := if Contains(q, "pool") then ["Swimming Pool"] else [];
    var r := if Contains(q, "gym") then r + ["Gym"] else r;
    if Contains(q, "parking") then r + ["Parking"] else r
  }

  // ---------------------------------------------------------------------------
  // the filter dict

  /** The filter dict `filter_based_search(query, available_locations)` queries with. */
  function FilterFor(query: string, locs: seq<string>): (spec: FilterSpec)
    ensures spec.bedrooms == Bedrooms(Lower(query))
    ensures spec.location.Some? <==> Present(ExtractLocation(query, locs))
    ensures spec.location.Some? ==> Some(spec.location.value) == ExtractLocation(query, locs)
    ensures spec.price == PriceFor(Lower(query))
    ensures spec.amenities.Some? <==> AmenityList(Lower(query)) != []
    ensures spec.amenities.Some? ==> spec.amenities.value == AmenityList(Lower(query))
  {
    var q := Lower(query);
    var location := ExtractLocation(q, locs);
    LowerIdempotent(query);
    var amenities := AmenityList(q);
    FilterSpec(
      Bedrooms(q),
      if Present(location) then Some(location.value) else None,
      PriceFor(q),
      if amenities != [] then Some(amenities) else None)
  }

  /** The statements of `filter_based_search` up to the store query: the dict is
      filled key by key. */
  method BuildFilterSpec(query: string, locs: seq<string>) returns (spec: FilterSpec)
    ensures spec == FilterFor(query, locs)
  {
    var q := Lower(query);
    LowerIdempotent(query);
    spec := NoFilter;
    var bhk := FirstBhk(q, 0);
    if bhk.Some? {
      spec := spec.(bedrooms := Some(DigitValue(q[bhk.value])));
    }
    var location := ExtractLocation(q, locs);
    if Present(location) {
      spec := spec.(location := Some(location.value));
    }
    var price := ReadPrice(q);
    if price.Some? {
      spec := spec.(price := price);
    }
    var amenities := CollectAmenities(q);
    if amenities != [] {
      spec := spec.(amenities := Some(amenities));
    }
  }

  /** The price statements: the `if`/`elif` on the trigger words, each with the
      search inside a `try` whose failure is ignored. */
  method ReadPrice(q: string) returns (price: Option<PriceBound>)
    ensures price == PriceFor(q)
  {
    PairTest(q, "under", "below");
    PairTest(q, "above", "over");
    price := None;
    if Contains(q, "under") || Contains(q, "below") {
      var amount := Ceiling(q);
      if amount.Some? {
        price := Some(AtMost(amount.value));
      }
    } else if Contains(q, "above") || Contains(q, "over") {
      var amount := Floor(q);
      if amount.Some? {
        price := Some(AtLeast(amount.value));
      }
    }
  }

  /** The amenity statements: one `append` per keyword that occurs. */
  method CollectAmenities(q: string) returns (amenities: seq<string>)
    ensures amenities == AmenityList(q)
  {
    amenities := [];
    if Contains(q, "pool") {
      amenities := amenities + ["Swimming Pool"];
    }
    if Contains(q, "gym") {
      amenities := amenities + ["Gym"];
    }
    if Contains(q, "parking") {
      amenities := amenities + ["Parking"];
    }
  }

  /** `a in q or b in q` is the `any` test over the two words. */
  lemma PairTest(q: string, a: string, b: string)
    ensures ContainsAny(q, [a, b]) <==> Contains(q, a) || Contains(q, b)
  {
    assert a in [a, b] && b in [a, b];
  }
}

module FilterSpecProperties {
  import opened Wrappers
  import opened Strings
  import opened Records
  import opened LocationResolver
  import opened LocationResolverProperties
  import opened FilterSpecs

  lemma SelectedCons(t: seq<(string, string)>, q: string)
    requires t != []
    ensures Selected(t, q) == (if Contains(q, t[0].0) then [t[0].1] else []) + Selected(t[1..], q)
  {
  }

  /** `Selected` over a three-row table, written out. */
  lemma SelectedThree(a: (string, string), b: (string, string), c: (string, string), q: string)
    ensures Selected([a, b, c], q)
         == (if Contains(q, a.0) then [a.1] else []) + (if Contains(q, b.0) then [b.1] else [])
          + (if Contains(q, c.0) then [c.1] else [])
  {
    SelectedCons([a, b, c], q);
    SelectedCons([b, c], q);
    SelectedCons([c], q);
    assert [a, b, c][1..] == [b, c];
    assert [b, c][1..] == [c];
    assert [c][1..] == [];
  }

  /** The three `if`s produce the names of the table rows whose keyword occurs, in
      table order. */
  lemma AmenityListFollowsTable(q: string)
    ensures AmenityList(q) == Selected(AmenityTable, q)
  {
    SelectedThree(("pool", "Swimming Pool"), ("gym", "Gym"), ("parking", "Parking"), q);
  }

  /** A successful ceiling search implies that a trigger word occurs, so the price
      is a ceiling exactly when the ceiling search succeeds. */
  lemma CeilingMatchHasTrigger(q: string)
    requires Ceiling(q).Some?
    ensures ContainsAny(q, CeilingWords)
    ensures PriceFor(q) == Some(AtMost(Ceiling(q).value))
  {
    var i := FirstMatch(q, CeilingWords, 0).value;
    var w :| w in CeilingWords && MatchAt(q, w, i) && NumberAt(q, i + |w|) == Ceiling(q);
    assert Contains(q, w);
  }

  /** The floor is read only when neither "under" nor "below" occurs: once one of
      them does, the price is the ceiling or nothing, whatever follows "above". */
  lemma CeilingWordBlocksFloor(q: string)
    requires ContainsAny(q, CeilingWords)
    ensures PriceFor(q).Some? ==> PriceFor(q).value.AtMost?
    ensures Ceiling(q).None? ==> PriceFor(q).None?
  {
  }

  /** `DigitRunEnd` stops at the first non-digit. */
  lemma {:induction false} RunEndsAt(q: string, d: nat, e: nat)
    requires d <= e <= |q|
    requires forall k :: d <= k < e ==> IsDigit(q[k])
    requires e == |q| || !IsDigit(q[e])
    ensures DigitRunEnd(q, d) == e
    decreases e - d
  {
    if d < e {
      RunEndsAt(q, d + 1, e);
    }
  }

  /** The number after one blank at `j` reads back the written amount. */
  lemma {:induction false} ReadsAmount(q: string, j: nat, n: nat)
    requires j + 1 + |NatToString(n)| <= |q| && IsSpace(q[j])
    requires q[j + 1..j + 1 + |NatToString(n)|] == NatToString(n)
    requires j + 1 + |NatToString(n)| == |q| || !IsDigit(q[j + 1 + |NatToString(n)|])
    ensures NumberAt(q, j) == Some(n)
  {
    var ds := NatToString(n);
    assert IsDigit(q[j + 1]) by { assert q[j + 1] == ds[0]; }
    forall k | j + 1 <= k < j + 1 + |ds|
      ensures IsDigit(q[k])
    {
      assert q[k] == ds[k - (j + 1)];
    }
    RunEndsAt(q, j + 1, j + 1 + |ds|);
    DecimalOfNatToString(n);
  }

  /** "under", one blank and an amount at the start of `q` match the ceiling
      pattern at index 0. */
  lemma CeilingAtStart(n: nat, rest: string)
    requires rest == [] || !IsDigit(rest[0])
    ensures MatchAt("under " + NatToString(n) + rest, "under", 0)
    ensures AltNumberAt("under " + NatToString(n) + rest, CeilingWords, 0) == Some(n)
  {
    var q := "under " + NatToString(n) + rest;
    var ds := NatToString(n);
    assert q[..5] == "under";
    assert q[6..6 + |ds|] == ds;
    ReadsAmount(q, 5, n);
  }

  /** A query that starts with "under", one blank and an amount sets exactly that
      ceiling. */
  lemma WrittenCeilingIsRead(n: nat, rest: string)
    requires rest == [] || !IsDigit(rest[0])
    ensures PriceFor("under " + NatToString(n) + rest) == Some(AtMost(n))
  {
    var q := "under " + NatToString(n) + rest;
    CeilingAtStart(n, rest);
    assert Contains(q, "under");
    assert "under" in CeilingWords;
  }

  /** "over", one blank and an amount at the start of `q` match the floor pattern
      at index 0, through its second alternative. */
  lemma FloorAtStart(n: nat, rest: string)
    requires rest == [] || !IsDigit(rest[0])
    ensures MatchAt("over " + NatToString(n) + rest, "over", 0)
    ensures AltNumberAt("over " + NatToString(n) + rest, FloorWords, 0) == Some(n)
  {
    var q := "over " + NatToString(n) + rest;
    var ds := NatToString(n);
    assert q[..4] == "over";
    assert !MatchAt(q, "above", 0) by { assert q[0] != "above"[0]; }
    assert q[5..5 + |ds|] == ds;
    ReadsAmount(q, 4, n);
  }

  /** A query that starts with "over", one blank and an amount, and that holds
      neither "under" nor "below", sets exactly that floor. */
  lemma WrittenFloorIsRead(n: nat, rest: string)
    requires rest == [] || !IsDigit(rest[0])
    requires !ContainsAny("over " + NatToString(n) + rest, CeilingWords)
    ensures PriceFor("over " + NatToString(n) + rest) == Some(AtLeast(n))
  {
    var q := "over " + NatToString(n) + rest;
    FloorAtStart(n, rest);
    assert Contains(q, "over");
    assert "over" in FloorWords;
  }

  /** An amenity is required exactly when its keyword occurs in the query. */
  lemma AmenityRequiredIffMentioned(q: string, k: string, n: string)
    requires (k, n) in AmenityTable
    ensures n in AmenityList(q) <==> Contains(q, k)
  {
    AmenityListFollowsTable(q);
  }

  /** A query that sets every key of the filter dict. */
  const BanerQuery := "3 bhk in baner under 50000 with pool"

  /** `re.search` returns the match at the first start where one of the words
      occurs, when the rest of the pattern matches there. */
  lemma LeftmostNumber(q: string, words: seq<string>, from: nat, i: nat)
    requires from <= i <= |q|
    requires forall j, w :: from <= j < i && w in words ==> !MatchAt(q, w, j)
    requires AltNumberAt(q, words, i).Some?
    ensures FirstNumber(q, words, from) == AltNumberAt(q, words, i)
  {
    forall j | from <= j < i
      ensures AltNumberAt(q, words, j).None?
    {
      NoWordNoNumber(q, words, j);
    }
    assert FirstMatch(q, words, from) == Some(i);
  }

  /** `LeftmostNumber` for a two-word alternation searched from the start. */
  lemma LeftmostOfTwo(q: string, a: string, b: string, i: nat)
    requires i <= |q|
    requires forall j :: 0 <= j < i ==> !MatchAt(q, a, j)
    requires forall j :: 0 <= j < i ==> !MatchAt(q, b, j)
    requires AltNumberAt(q, [a, b], i).Some?
    ensures FirstNumber(q, [a, b], 0) == AltNumberAt(q, [a, b], i)
  {
    LeftmostNumber(q, [a, b], 0, i);
  }

  /** Where none of the words occurs, the alternation does not match. */
  lemma {:induction false} NoWordNoNumber(q: string, words: seq<string>, j: nat)
    requires forall w :: w in words ==> !MatchAt(q, w, j)
    ensures AltNumberAt(q, words, j).None?
  {
    if words != [] {
      assert words[0] in words;
      NoWordNoNumber(q, words[1..], j);
    }
  }

  /** The filter dict, assembled from its four parts. */
  lemma FilterForIs(query: string, locs: seq<string>, b: Option<nat>, l: string, p: Option<PriceBound>, a: seq<string>)
    requires Bedrooms(Lower(query)) == b && PriceFor(Lower(query)) == p
    requires ExtractLocation(query, locs) == Some(l) && l != ""
    requires AmenityList(Lower(query)) == a && a != []
    ensures FilterFor(query, locs) == FilterSpec(b, Some(l), p, Some(a))
  {
  }

  lemma BanerBedrooms()
    ensures Bedrooms(BanerQuery) == Some(3)
  {
    MatchAtByChars(BanerQuery, "bhk", 2);
    assert BhkAt(BanerQuery, 0);
  }

  lemma BanerFiftyThousand()
    ensures NatToString(50000) == "50000"
  {
  }

  lemma BanerAmount()
    ensures NumberAt(BanerQuery, 20) == Some(50000)
  {
    BanerFiftyThousand();
    assert BanerQuery[21..26] == "50000";
    ReadsAmount(BanerQuery, 20, 50000);
  }

  lemma BanerCeilingAt()
    ensures AltNumberAt(BanerQuery, CeilingWords, 15) == Some(50000)
  {
    MatchAtByChars(BanerQuery, "under", 15);
    BanerAmount();
  }

  /** Neither ceiling word starts before index 15. */
  lemma BanerNoCeilingWordBefore()
    ensures forall j :: 0 <= j < 15 ==> !MatchAt(BanerQuery, "under", j)
    ensures forall j :: 0 <= j < 15 ==> !MatchAt(BanerQuery, "below", j)
  {
    NoMatchBefore(BanerQuery, "under", 15);
    NoMatchBefore(BanerQuery, "below", 15);
  }

  lemma BanerCeiling()
    ensures Ceiling(BanerQuery) == Some(50000)
  {
    BanerNoCeilingWordBefore();
    BanerCeilingAt();
    LeftmostOfTwo(BanerQuery, "under", "below", 15);
  }

  lemma BanerPrice()
    ensures PriceFor(BanerQuery) == Some(AtMost(50000))
  {
    BanerCeiling();
    CeilingMatchHasTrigger(BanerQuery);
  }

  lemma BanerHasPool()
    ensures Contains(BanerQuery, "pool")
  {
    MatchAtByChars(BanerQuery, "pool", 32);
  }

  lemma BanerNoGym()
    ensures !Contains(BanerQuery, "gym")
  {
    NoPairAt(BanerQuery, "gym", 0);
  }

  lemma BanerNoParking()
    ensures !Contains(BanerQuery, "parking")
  {
    NoPairAt(BanerQuery, "parking", 0);
  }

  lemma BanerAmenities()
    ensures AmenityList(BanerQuery) == ["Swimming Pool"]
  {
    BanerHasPool();
    BanerNoGym();
    BanerNoParking();
  }

  lemma BanerNoCapitals()
    ensures forall i :: 0 <= i < |BanerQuery| ==> !IsUpper(BanerQuery[i])
  {
  }

  lemma BanerLower()
    ensures Lower(BanerQuery) == BanerQuery
  {
    BanerNoCapitals();
    LowerUnchanged(BanerQuery);
  }

  lemma BanerNoWholeLocation()
    ensures !Contains(BanerQuery, "baner, pune")
  {
    NoPairAt(BanerQuery, "baner, pune", 5);
  }

  lemma BanerCityPart()
    ensures Contains(BanerQuery, CityPartOf("baner, pune"))
  {
    CityPartHit(BanerQuery, "baner, pune", 5, 9);
  }

  lemma BanerLocation()
    ensures ExtractLocation(BanerQuery, ["Baner, Pune"]) == Some("Baner, Pune")
  {
    LocationResolverProperties.BanerLower();
    BanerLower();
    BanerNoWholeLocation();
    BanerCityPart();
    CityPartStageWins(BanerQuery, ["Baner, Pune"], "Baner, Pune");
  }

  /** "3 bhk in baner under 50000 with pool" yields all four constraints. */
  lemma BanerFilter()
    ensures FilterFor(BanerQuery, ["Baner, Pune"]) == FilterSpec(Some(3), Some("Baner, Pune"), Some(AtMost(50000)), Some(["Swimming Pool"]))
  {
    BanerLower();
    BanerBedrooms();
    BanerPrice();
    BanerAmenities();
    BanerLocation();
    FilterForIs(BanerQuery, ["Baner, Pune"], Some(3), "Baner, Pune", Some(AtMost(50000)), ["Swimming Pool"]);
  }
}

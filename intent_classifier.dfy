/**
 * The intent classifier of app/data_loader.py (`classify_user_query`): a flat
 * cascade over the trimmed, lower-case query.  Greeting phrases win over
 * everything; then four superlative keyword groups pick a sort intent, qualified
 * by whether a location resolves; then generic filter trigger words; then the
 * semantic-search fallback.  Every test is a plain substring test.
 */
module IntentClassifier {
  import opened Wrappers
  import opened Strings
  import opened Records
  import opened LocationResolver

  /** The four superlatives: sort by price or by area, descending or ascending. */
  datatype SortKey = PriceDesc | PriceAsc | AreaDesc | AreaAsc

  /** The ten intents; `located` is the `_location` suffix of the sort intents. */
  datatype Intent =
    | Greeting
    | Sort(key: SortKey, located: bool)
    | FilterSearch
    | SemanticSearch

  /** The family part of a sort intent's name. */
  function SortName(key: SortKey): string {
    match key
    case PriceDesc => "sort_by_price_desc"
    case PriceAsc => "sort_by_price_asc"
    case AreaDesc => "sort_by_area_desc"
    case AreaAsc => "sort_by_area_asc"
  }

  /** The intent as the string the source returns. */
  function IntentName(i: Intent): string {
    match i
    case Greeting => "greeting"
    case Sort(key, located) => SortName(key) + if located then "_location" else ""
    case FilterSearch => "filter_search"
    case SemanticSearch => "semantic_search"
  }

  const Greetings: seq<string> := ["hi", "hello", "hey", "how are you", "good morning", "good evening"]

  /** The keyword group of each superlative. */
  function SortWords(key: SortKey): seq<string> {
    match key
    case PriceDesc => ["most expensive", "highest price", "most costly"]
    case PriceAsc => ["cheapest", "lowest price", "most affordable"]
    case AreaDesc => ["biggest", "largest"]
    case AreaAsc => ["smallest", "tiniest"]
  }

  const FilterTriggers: seq<string> := ["with", "in", "under", "above", "near", "bhk", "bedroom", "budget"]

  /** The query as every test sees it: `query.lower().strip()`. */
  function Normalize(query: string): string {
    Strip(Lower(query))
  }

  /** The first superlative group, in the order price-desc, price-asc, area-desc,
      area-asc, with a keyword in `q`. */
  function SortKeyOf(q: string): (r: Option<SortKey>)
    ensures r == Some(PriceDesc) <==> ContainsAny(q, SortWords(PriceDesc))
    ensures r == Some(PriceAsc) <==>
      !ContainsAny(q, SortWords(PriceDesc)) && ContainsAny(q, SortWords(PriceAsc))
    ensures r == Some(AreaDesc) <==>
      !ContainsAny(q, SortWords(PriceDesc)) && !ContainsAny(q, SortWords(PriceAsc))
      && ContainsAny(q, SortWords(AreaDesc))
    ensures r == Some(AreaAsc) <==>
      !ContainsAny(q, SortWords(PriceDesc)) && !ContainsAny(q, SortWords(PriceAsc))
      && !ContainsAny(q, SortWords(AreaDesc)) && ContainsAny(q, SortWords(AreaAsc))
    ensures r.None? <==> forall key :: !ContainsAny(q, SortWords(key))
  {
    if ContainsAny(q, SortWords(PriceDesc)) then Some(PriceDesc)
    else if ContainsAny(q, SortWords(PriceAsc)) then Some(PriceAsc)
    else if ContainsAny(q, SortWords(AreaDesc)) then Some(AreaDesc)
    else if ContainsAny(q, SortWords(AreaAsc)) then Some(AreaAsc)
    else None
  }

  /** `classify_user_query(query, available_locations)` */
  function Classify(query: string, locs: seq<string>): (r: Intent)
    ensures r == Greeting <==> ContainsAny(Normalize(query), Greetings)
    ensures r.Sort? <==>
      !ContainsAny(Normalize(query), Greetings) && SortKeyOf(Normalize(query)).Some?
    ensures r.Sort? ==> r.key == SortKeyOf(Normalize(query)).value
    ensures r.Sort? ==> (r.located <==> Present(ExtractLocation(Normalize(query), locs)))
    ensures r == FilterSearch <==>
      && !ContainsAny(Normalize(query), Greetings)
      && SortKeyOf(Normalize(query)).None?
      && ContainsAny(Normalize(query), FilterTriggers)
  {
    var q := Normalize(query);
    if ContainsAny(q, Greetings) then Greeting
    else
      match SortKeyOf(q)
      case Some(key) => Sort(key, Present(ExtractLocation(q, locs)))
      case None => if ContainsAny(q, FilterTriggers) then FilterSearch else SemanticSearch
  }
}

module IntentClassifierProperties {
  import opened Wrappers
  import opened Strings
  import opened Records
  import opened LocationResolver
  import opened IntentClassifier

  /** The ten names are pairwise distinct, so comparing names is comparing intents. */
  lemma NamesAreDistinct(i: Intent, j: Intent)
    requires IntentName(i) == IntentName(j)
    ensures i == j
  {
    var n := IntentName(i);
    if i.Sort? && j.Sort? {
      assert |SortName(i.key)| == |SortName(j.key)| ==> i.key == j.key by {
        if |SortName(i.key)| == |SortName(j.key)| {
          assert SortName(i.key)[13] == n[13] == SortName(j.key)[13];
          assert SortName(i.key)[8] == n[8] == SortName(j.key)[8];
        }
      }
    }
  }

  /** Any greeting phrase in the normalised query makes it a greeting. */
  lemma GreetingWins(query: string, locs: seq<string>, g: string)
    requires g in Greetings && Contains(Normalize(query), g)
    ensures Classify(query, locs) == Greeting
  {
  }

  lemma HiIsGreeting()
    ensures "hi" in Greetings
  {
  }

  lemma WithinHasHi()
    ensures Contains("within", "hi")
  {
    assert MatchAt("within", "hi", 3);
  }

  /** A greeting phrase occurring anywhere, even inside a word, makes the query a
      greeting: "within" contains "hi". */
  lemma WithinIsGreeting(query: string, locs: seq<string>)
    requires Contains(Normalize(query), "within")
    ensures Classify(query, locs) == Greeting
  {
    WithinHasHi();
    ContainsTransitive(Normalize(query), "within", "hi");
    HiIsGreeting();
    GreetingWins(query, locs, "hi");
  }

  /** When no known location is the empty string, the `_location` suffix is present
      exactly when the resolver returns a location. */
  lemma LocatedIffResolved(query: string, locs: seq<string>)
    requires "" !in locs
    requires Classify(query, locs).Sort?
    ensures Classify(query, locs).located <==> ExtractLocation(Normalize(query), locs).Some?
  {
  }

  /** Case does not matter to the classifier. */
  lemma ClassifyIgnoresCase(query: string, locs: seq<string>)
    ensures Classify(Lower(query), locs) == Classify(query, locs)
  {
    LowerIdempotent(query);
  }

  /** A query whose only recognised keyword is "with". */
  const ViewQuery := "tell me about apartments with a view"

  lemma ViewQueryNormal()
    ensures Normalize(ViewQuery) == ViewQuery
  {
    ViewQueryLetters();
    LowerUnchanged(ViewQuery);
    StripUnchanged(ViewQuery);
  }

  /** The characters of `ViewQuery`. */
  const ViewLetters: set<char> := {' ', 'a', 'b', 'e', 'h', 'i', 'l', 'm', 'n', 'o', 'p', 'r', 's', 't', 'u', 'v', 'w'}

  lemma ViewQueryLetters()
    ensures forall i :: 0 <= i < |ViewQuery| ==> ViewQuery[i] in ViewLetters
  {
  }

  lemma ViewQueryLacksHi()
    ensures !Contains(ViewQuery, "hi")
  {
    NoPairAt(ViewQuery, "hi", 0);
  }

  lemma ViewQueryLacksHello()
    ensures !Contains(ViewQuery, "hello")
  {
    NoPairAt(ViewQuery, "hello", 0);
  }

  lemma ViewQueryNoGreeting()
    ensures !ContainsAny(ViewQuery, Greetings)
  {
    ViewQueryLacksHi();
    ViewQueryLacksHello();
    ViewQueryLetters();
    NoCharOf(ViewQuery, ViewLetters, "hey", 2);
    NoCharOf(ViewQuery, ViewLetters, "how are you", 8);
    NoCharOf(ViewQuery, ViewLetters, "good morning", 0);
    NoCharOf(ViewQuery, ViewLetters, "good evening", 0);
  }

  lemma ViewQueryNoPriceDesc()
    ensures !ContainsAny(ViewQuery, SortWords(PriceDesc))
  {
    ViewQueryLetters();
    NoCharOf(ViewQuery, ViewLetters, "most expensive", 6);
    NoCharOf(ViewQuery, ViewLetters, "highest price", 2);
    NoCharOf(ViewQuery, ViewLetters, "most costly", 5);
  }

  lemma ViewQueryNoPriceAsc()
    ensures !ContainsAny(ViewQuery, SortWords(PriceAsc))
  {
    ViewQueryLetters();
    NoCharOf(ViewQuery, ViewLetters, "cheapest", 0);
    NoCharOf(ViewQuery, ViewLetters, "lowest price", 10);
    NoCharOf(ViewQuery, ViewLetters, "most affordable", 6);
  }

  lemma ViewQueryNoAreaDesc()
    ensures !ContainsAny(ViewQuery, SortWords(AreaDesc))
  {
    ViewQueryLetters();
    NoCharOf(ViewQuery, ViewLetters, "biggest", 2);
    NoCharOf(ViewQuery, ViewLetters, "largest", 3);
  }

  lemma ViewQueryLacksSmallest()
    ensures !Contains(ViewQuery, "smallest")
  {
    NoPairAt(ViewQuery, "smallest", 0);
  }

  lemma ViewQueryLacksTiniest()
    ensures !Contains(ViewQuery, "tiniest")
  {
    NoPairAt(ViewQuery, "tiniest", 0);
  }

  lemma ViewQueryNoAreaAsc()
    ensures !ContainsAny(ViewQuery, SortWords(AreaAsc))
  {
    ViewQueryLacksSmallest();
    ViewQueryLacksTiniest();
  }

  lemma ViewQueryNoSortWord()
    ensures forall key :: !ContainsAny(ViewQuery, SortWords(key))
  {
    ViewQueryNoPriceDesc();
    ViewQueryNoPriceAsc();
    ViewQueryNoAreaDesc();
    ViewQueryNoAreaAsc();
    forall key ensures !ContainsAny(ViewQuery, SortWords(key)) {
      match key
      case PriceDesc => case PriceAsc => case AreaDesc => case AreaAsc =>
    }
  }

  lemma ViewQueryHasWith()
    ensures Contains(ViewQuery, "with")
  {
    assert MatchAt(ViewQuery, "with", 25);
  }

  /** With no greeting and no superlative, one trigger word gives the filter search. */
  lemma ClassifiesAsFilter(query: string, locs: seq<string>, w: string)
    requires !ContainsAny(Normalize(query), Greetings)
    requires forall key :: !ContainsAny(Normalize(query), SortWords(key))
    requires w in FilterTriggers && Contains(Normalize(query), w)
    ensures Classify(query, locs) == FilterSearch
  {
  }

  /** "with" alone is a filter trigger: the query below names no filter clause
      that parses, yet it is routed to the filter search, not the semantic one. */
  lemma ViewQueryIsFilterSearch(locs: seq<string>)
    ensures Classify(ViewQuery, locs) == FilterSearch
  {
    ViewQueryNormal();
    ViewQueryNoGreeting();
    ViewQueryNoSortWord();
    ViewQueryHasWith();
    assert "with" in FilterTriggers;
    ClassifiesAsFilter(ViewQuery, locs, "with");
  }

  lemma GreetingQueryLower()
    ensures Lower("hi, show cheapest 2 bhk in Pune") == "hi, show cheapest 2 bhk in pune"
  {
  }

  lemma GreetingQueryStripped()
    ensures Strip("hi, show cheapest 2 bhk in pune") == "hi, show cheapest 2 bhk in pune"
  {
    StripUnchanged("hi, show cheapest 2 bhk in pune");
  }

  lemma GreetingNormal()
    ensures Normalize("hi, show cheapest 2 bhk in Pune") == "hi, show cheapest 2 bhk in pune"
  {
    GreetingQueryLower();
    GreetingQueryStripped();
  }

  lemma GreetingQueryHasHi()
    ensures Contains("hi, show cheapest 2 bhk in pune", "hi")
  {
    assert MatchAt("hi, show cheapest 2 bhk in pune", "hi", 0);
  }

  /** Greeting phrases win over sort and filter keywords. */
  lemma GreetingBeatsKeywords(locs: seq<string>)
    ensures Classify("hi, show cheapest 2 bhk in Pune", locs) == Greeting
  {
    GreetingNormal();
    GreetingQueryHasHi();
    HiIsGreeting();
    GreetingWins("hi, show cheapest 2 bhk in Pune", locs, "hi");
  }
}

/**
 * The header line `handle_user_query` in app/data_loader.py puts in front of the
 * listing cards.  The source picks it by substring tests on the intent's name;
 * `HeaderFollowsIntent` shows that these tests pick the header of the intent
 * itself, because no sort family's name occurs inside another intent's name.
 */
module Headers {
  import opened Wrappers
  import opened Strings
  import opened Records
  import opened IntentClassifier

  /** `f' in {location}' if location else ' we have'` */
  function Place(location: Option<string>): string {
    if Present(location) then " in " + location.value else " we have"
  }

  /** `f"Here are the {superlative} apartments{place}:"` */
  function SortHeaderText(superlative: string, location: Option<string>): string {
    "Here are the " + superlative + " apartments" + Place(location) + ":"
  }

  /** The header as the source chooses it: substring tests on the intent's name. */
  function HeaderByName(name: string, location: Option<string>): string {
    if Contains(name, "sort_by_price_desc") then SortHeaderText("most expensive", location)
    else if Contains(name, "sort_by_price_asc") then SortHeaderText("most affordable", location)
    else if Contains(name, "sort_by_area_desc") then SortHeaderText("largest", location)
    else if Contains(name, "sort_by_area_asc") then SortHeaderText("most compact", location)
    else if name == "filter_search" then "Here are apartments matching your filters:"
    else "Here are some apartments that might interest you:"
  }

  /** The superlative each sort header names. */
  function Superlative(key: SortKey): string {
    match key
    case PriceDesc => "most expensive"
    case PriceAsc => "most affordable"
    case AreaDesc => "largest"
    case AreaAsc => "most compact"
  }

  /** The header of each intent, by cases. */
  function Header(intent: Intent, location: Option<string>): string {
    match intent
    case Sort(key, _) => SortHeaderText(Superlative(key), location)
    case FilterSearch => "Here are apartments matching your filters:"
    case _ => "Here are some apartments that might interest you:"
  }

  /** A sort header with a truthy location reads "... apartments in <location>:". */
  lemma SortHeaderIn(key: SortKey, located: bool, location: Option<string>)
    requires Present(location)
    ensures Header(Sort(key, located), location)
         == "Here are the " + Superlative(key) + " apartments in " + location.value + ":"
  {
    var a := "Here are the " + Superlative(key) + " apartments";
    assert a + (" in " + location.value) == a + " in " + location.value;
  }

  /** `p` occurs at the start of `p + rest`. */
  lemma PrefixMatch(p: string, rest: string)
    ensures Contains(p + rest, p)
  {
    assert (p + rest)[0..|p|] == p;
    assert MatchAt(p + rest, p, 0);
  }

  /** A name in which "s" is never followed by "o" holds none of the sort families. */
  lemma NoSortFamily(name: string)
    requires forall i :: 0 <= i < |name| - 1 ==> !(name[i] == 's' && name[i + 1] == 'o')
    ensures !Contains(name, "sort_by_price_desc") && !Contains(name, "sort_by_price_asc")
    ensures !Contains(name, "sort_by_area_desc") && !Contains(name, "sort_by_area_asc")
  {
    NoPairAt(name, "sort_by_price_desc", 0);
    NoPairAt(name, "sort_by_price_asc", 0);
    NoPairAt(name, "sort_by_area_desc", 0);
    NoPairAt(name, "sort_by_area_asc", 0);
  }

  /** Each sort intent's name begins with its family's name. */
  lemma SortNameFamily(key: SortKey, located: bool)
    ensures Contains(IntentName(Sort(key, located)), SortName(key))
  {
    PrefixMatch(SortName(key), if located then "_location" else "");
  }

  lemma PriceAscName(located: bool)
    ensures !Contains(IntentName(Sort(PriceAsc, located)), "sort_by_price_desc")
  {
    NoPairAt(IntentName(Sort(PriceAsc, located)), "sort_by_price_desc", 14);
  }

  lemma AreaDescName(located: bool)
    ensures !Contains(IntentName(Sort(AreaDesc, located)), "sort_by_price_desc")
    ensures !Contains(IntentName(Sort(AreaDesc, located)), "sort_by_price_asc")
  {
    var name := IntentName(Sort(AreaDesc, located));
    NoPairAt(name, "sort_by_price_desc", 8);
    NoPairAt(name, "sort_by_price_asc", 8);
  }

  lemma AreaAscName(located: bool)
    ensures !Contains(IntentName(Sort(AreaAsc, located)), "sort_by_price_desc")
    ensures !Contains(IntentName(Sort(AreaAsc, located)), "sort_by_price_asc")
    ensures !Contains(IntentName(Sort(AreaAsc, located)), "sort_by_area_desc")
  {
    var name := IntentName(Sort(AreaAsc, located));
    NoPairAt(name, "sort_by_price_desc", 8);
    NoPairAt(name, "sort_by_price_asc", 8);
    NoPairAt(name, "sort_by_area_desc", 13);
  }

  /** The sort intents get the header of their own family. */
  lemma SortHeader(key: SortKey, located: bool, location: Option<string>)
    ensures HeaderByName(IntentName(Sort(key, located)), location) == Header(Sort(key, located), location)
  {
    SortNameFamily(key, located);
    match key
    case PriceDesc =>
    case PriceAsc => PriceAscName(located);
    case AreaDesc => AreaDescName(located);
    case AreaAsc => AreaAscName(located);
  }

  lemma FilterNameNoSo()
    ensures forall i :: 0 <= i < |"filter_search"| - 1 ==> !("filter_search"[i] == 's' && "filter_search"[i + 1] == 'o')
  {
  }

  lemma SemanticNameNoSo()
    ensures forall i :: 0 <= i < |"semantic_search"| - 1 ==> !("semantic_search"[i] == 's' && "semantic_search"[i + 1] == 'o')
  {
  }

  lemma GreetingNameNoSo()
    ensures forall i :: 0 <= i < |"greeting"| - 1 ==> !("greeting"[i] == 's' && "greeting"[i + 1] == 'o')
  {
  }

  lemma FilterHeader(location: Option<string>)
    ensures HeaderByName(IntentName(FilterSearch), location) == Header(FilterSearch, location)
  {
    FilterNameNoSo();
    NoSortFamily("filter_search");
  }

  lemma SemanticHeader(location: Option<string>)
    ensures HeaderByName(IntentName(SemanticSearch), location) == Header(SemanticSearch, location)
  {
    SemanticNameNoSo();
    NoSortFamily("semantic_search");
  }

  lemma GreetingHeader(location: Option<string>)
    ensures HeaderByName(IntentName(Greeting), location) == Header(Greeting, location)
  {
    GreetingNameNoSo();
    NoSortFamily("greeting");
  }

  /** The substring tests on the intent's name pick the header of that intent: no
      sort family's name occurs inside another intent's name. */
  lemma HeaderFollowsIntent(intent: Intent, location: Option<string>)
    ensures HeaderByName(IntentName(intent), location) == Header(intent, location)
  {
    match intent
    case Sort(key, located) =>
      SortHeader(key, located, location);
    case FilterSearch => FilterHeader(location);
    case SemanticSearch => SemanticHeader(location);
    case Greeting => GreetingHeader(location);
  }
}

/**
 * `handle_user_query` in app/data_loader.py: classify the query, retrieve rows by
 * the route the intent selects (a sorted store query, optionally restricted to
 * the resolved location; the filter search; or the deduplicated semantic
 * search), turn every row into a listing card with its details, and either
 * answer "no results" or put a header naming the intent in front of the cards.
 * The document store and the vector store are parameters: `store` answers a
 * store query, `index` answers a similarity search.
 */
module QueryHandler {
  import opened Wrappers
  import opened Strings
  import opened Records
  import opened LocationResolver
  import opened IntentClassifier
  import opened FilterSpecs
  import opened SemanticDedup
  import opened Headers

  /** The two fields the store can sort on: `"price"` and `"area_sqft"`. */
  datatype SortField = PriceField | AreaField

  /** One `collection.find(filter, {"_id": 0})`, with the `.sort(field, order)` and
      `.limit(n)` the call chains onto it, if any. */
  datatype StoreQuery = StoreQuery(filter: FilterSpec, sort: Option<(SortField, int)>, limit: Option<int>)

  /** The document store, as the rows it returns for each query. */
  type Store = StoreQuery -> seq<Record>

  /** The vector store's `similarity_search_with_score(query, k)`. */
  type Index = (string, int) -> seq<Hit>

  /** The field and the order (`-1` descending, `1` ascending) of a superlative. */
  function SortOf(key: SortKey): (s: (SortField, int))
    ensures s.0 == PriceField <==> key == PriceDesc || key == PriceAsc
    ensures s.1 == -1 <==> key == PriceDesc || key == AreaDesc
    ensures s.1 == -1 || s.1 == 1
  {
    match key
    case PriceDesc => (PriceField, -1)
    case PriceAsc => (PriceField, 1)
    case AreaDesc => (AreaField, -1)
    case AreaAsc => (AreaField, 1)
  }

  /** `handle_location_specific_sort(query, field, order, locations, top_k)`: the
      location is resolved again from the raw query, and filters only when truthy. */
  function LocationSortQuery(query: string, key: SortKey, locs: seq<string>, topK: int): (q: StoreQuery)
    ensures q.filter.bedrooms.None? && q.filter.price.None? && q.filter.amenities.None?
    ensures q.filter.location.Some? <==> Present(ExtractLocation(query, locs))
    ensures q.filter.location.Some? ==> Some(q.filter.location.value) == ExtractLocation(query, locs)
    ensures q.sort == Some(SortOf(key)) && q.limit == Some(topK)
  {
    var location := ExtractLocation(query, locs);
    StoreQuery(
      NoFilter.(location := if Present(location) then Some(location.value) else None),
      Some(SortOf(key)), Some(topK))
  }

  /** The general sort: every record, sorted, the first `top_k`. */
  function SortQuery(key: SortKey, topK: int): (q: StoreQuery)
    ensures q.filter == NoFilter && q.sort == Some(SortOf(key)) && q.limit == Some(topK)
  {
    StoreQuery(NoFilter, Some(SortOf(key)), Some(topK))
  }

  /** `filter_based_search(query, locations)`: the filter dict, unsorted, unlimited. */
  function FilterQuery(query: string, locs: seq<string>): (q: StoreQuery)
    ensures q.filter == FilterFor(query, locs) && q.sort.None? && q.limit.None?
  {
    StoreQuery(FilterFor(query, locs), None, None)
  }

  /** The rows the route of a non-greeting intent retrieves. */
  function Retrieved(intent: Intent, query: string, topK: int, locs: seq<string>, store: Store, index: Index): seq<Record>
    requires intent != Greeting
  {
    match intent
    case Sort(key, located) =>
      if located then store(LocationSortQuery(query, key, locs, topK)) else store(SortQuery(key, topK))
    case FilterSearch => store(FilterQuery(query, locs))
    case SemanticSearch => SemanticRows(index, query, topK)
  }

  // ---------------------------------------------------------------------------
  // enriching a row

  /** The amenities line of a card: a list is comma-joined; anything else is shown
      as it is, and an absent key shows "None". */
  function AmenitiesText(a: Option<Value>): (t: string)
    ensures a.Some? && a.value.StrList? ==> t == Join(a.value.items, ", ")
    ensures a.Some? && a.value.Str? ==> t == a.value.s
    ensures a.None? ==> t == "None"
  {
    if a.Some? && a.value.StrList? then Join(a.value.items, ", ") else Show(GetOr(a, Str("None")))
  }

  /** The card of a row; the relevance line appears exactly when the row has a
      `similarity_score`. */
  function CardOf(r: Record): (c: Summary)
    ensures c.Card?
    ensures c.relevance == r.similarityScore
    ensures c.bedrooms == Show(GetOr(r.bedrooms, Str("?")))
    ensures c.location == Show(GetOr(r.location, Str("unknown location")))
    ensures c.area == Show(GetOr(r.areaSqft, Str("?")))
    ensures c.price == Show(GetOr(r.price, Str("?")))
    ensures c.amenities == AmenitiesText(r.amenities)
  {
    Card(Show(GetOr(r.bedrooms, Str("?"))), Show(GetOr(r.location, Str("unknown location"))),
         Show(GetOr(r.areaSqft, Str("?"))), Show(GetOr(r.price, Str("?"))),
         AmenitiesText(r.amenities), r.similarityScore)
  }

  /** The `details` of a row: each field as `.get` returns it, `None` when absent. */
  function DetailsOf(r: Record): (d: Details)
    ensures r.bedrooms.Some? ==> d.bedrooms == r.bedrooms.value
    ensures r.location.Some? ==> d.location == r.location.value
    ensures r.price.Some? ==> d.price == r.price.value
    ensures r.areaSqft.Some? ==> d.areaSqft == r.areaSqft.value
    ensures r.amenities.Some? ==> d.amenities == r.amenities.value
    ensures r.bedrooms.None? ==> d.bedrooms == Null
    ensures r.location.None? ==> d.location == Null
    ensures r.price.None? ==> d.price == Null
    ensures r.areaSqft.None? ==> d.areaSqft == Null
    ensures r.amenities.None? ==> d.amenities == Null
  {
    Details(GetOr(r.bedrooms, Null), GetOr(r.location, Null), GetOr(r.price, Null),
            GetOr(r.areaSqft, Null), GetOr(r.amenities, Null))
  }

  /** An enriched item has a summary and details, and no `type` and no score. */
  function Enriched(r: Record): ResponseItem {
    ResponseItem(Some(CardOf(r)), None, Some(DetailsOf(r)), None)
  }

  function EnrichAll(rs: seq<Record>): (items: seq<ResponseItem>)
    ensures |items| == |rs|
    ensures forall i :: 0 <= i < |rs| ==> items[i] == Enriched(rs[i])
  {
    seq(|rs|, i requires 0 <= i < |rs| => Enriched(rs[i]))
  }

  // ---------------------------------------------------------------------------
  // the fixed messages and the header

  const GreetingText := "Hello! I'm your apartment search assistant. How can I help you find your perfect home today?"
  const NoResultsText := "I couldn't find any apartments matching your criteria. Try broadening your search or adjusting your filters."

  const GreetingItem := ResponseItem(Some(Message(GreetingText)), Some("greeting"), None, None)
  const NoResultsItem := ResponseItem(Some(Message(NoResultsText)), Some("no_results"), None, None)

  function HeaderItem(header: string): ResponseItem {
    ResponseItem(Some(Message(header)), Some("header"), None, None)
  }

  // ---------------------------------------------------------------------------
  // the handler

  /** The list `handle_user_query` returns once the query is classified as `intent`. */
  function Answer(intent: Intent, query: string, topK: int, locs: seq<string>, store: Store, index: Index): seq<ResponseItem> {
    if intent == Greeting then [GreetingItem]
    else
      var results := Retrieved(intent, query, topK, locs, store, index);
      if results == [] then [NoResultsItem]
      else [HeaderItem(Header(intent, ExtractLocation(query, locs)))] + EnrichAll(results)
  }

  /** The list `handle_user_query(query, top_k)` returns. */
  function HandleSpec(query: string, topK: int, locs: seq<string>, store: Store, index: Index): seq<ResponseItem> {
    Answer(Classify(query, locs), query, topK, locs, store, index)
  }

  /** `filter_based_search`: build the filter dict, then query the store with it. */
  method FilterBasedSearch(query: string, locs: seq<string>, store: Store) returns (results: seq<Record>)
    ensures results == store(FilterQuery(query, locs))
  {
    var spec := BuildFilterSpec(query, locs);
    results := store(StoreQuery(spec, None, None));
  }

  /** The route of a non-greeting intent, as the `if`/`elif` chain runs it. */
  method Retrieve(intent: Intent, query: string, topK: int, locs: seq<string>, store: Store, index: Index)
    returns (results: seq<Record>)
    requires intent != Greeting
    ensures results == Retrieved(intent, query, topK, locs, store, index)
  {
    match intent {
      case Sort(key, located) =>
        if located {
          results := store(LocationSortQuery(query, key, locs, topK));
        } else {
          results := store(SortQuery(key, topK));
        }
      case FilterSearch =>
        results := FilterBasedSearch(query, locs, store);
      case SemanticSearch =>
        results := SemanticDedup.SemanticSearch(index, query, topK);
    }
  }

  /** The enrichment loop: one card-and-details item per row, in order. */
  method EnrichResults(results: seq<Record>) returns (enriched: seq<ResponseItem>)
    ensures enriched == EnrichAll(results)
  {
    enriched := [];
    for i := 0 to |results|
      invariant |enriched| == i
      invariant forall k :: 0 <= k < i ==> enriched[k] == Enriched(results[k])
    {
      enriched := enriched + [Enriched(results[i])];
    }
  }

  /** `handle_user_query(query, top_k)` over the given locations and stores. */
  method HandleUserQuery(query: string, topK: int, locs: seq<string>, store: Store, index: Index)
    returns (items: seq<ResponseItem>)
    ensures items == HandleSpec(query, topK, locs, store, index)
  {
    var intent := Classify(query, locs);
    if intent == Greeting {
      return [GreetingItem];
    }
    var results := Retrieve(intent, query, topK, locs, store, index);
    var enriched := EnrichResults(results);
    if enriched == [] {
      return [NoResultsItem];
    }
    var location := ExtractLocation(query, locs);
    var header := HeaderByName(IntentName(intent), location);
    HeaderFollowsIntent(intent, location);
    items := [HeaderItem(header)] + enriched;
  }
}

module QueryHandlerProperties {
  import opened Wrappers
  import opened Strings
  import opened Records
  import opened LocationResolver
  import opened IntentClassifier
  import opened FilterSpecs
  import opened SemanticDedup
  import opened Documents
  import opened Headers
  import opened QueryHandler

  /** A header in front of the enriched rows: one item more than rows, the k-th
      row enriched at position k + 1. */
  lemma HeaderThenCards(h: ResponseItem, rows: seq<Record>)
    ensures var items := [h] + EnrichAll(rows);
      && |items| == |rows| + 1 && items[0] == h
      && forall k :: 0 <= k < |rows| ==> items[k + 1] == Enriched(rows[k])
  {
    var e := EnrichAll(rows);
    var items := [h] + e;
    forall k | 0 <= k < |rows|
      ensures items[k + 1] == Enriched(rows[k])
    {
      assert items[k + 1] == e[k];
    }
  }

  /** The three shapes of the answer: a lone greeting, a lone "no results" message,
      or a header followed by one enriched item per retrieved row, in order. */
  lemma Outcomes(intent: Intent, query: string, topK: int, locs: seq<string>, store: Store, index: Index)
    ensures intent == Greeting ==> Answer(intent, query, topK, locs, store, index) == [GreetingItem]
    ensures intent != Greeting && Retrieved(intent, query, topK, locs, store, index) == [] ==>
      Answer(intent, query, topK, locs, store, index) == [NoResultsItem]
    ensures intent != Greeting && Retrieved(intent, query, topK, locs, store, index) != [] ==>
      var items, rows := Answer(intent, query, topK, locs, store, index), Retrieved(intent, query, topK, locs, store, index);
      && |items| == |rows| + 1
      && items[0] == HeaderItem(Header(intent, ExtractLocation(query, locs)))
      && forall k :: 0 <= k < |rows| ==> items[k + 1] == Enriched(rows[k])
  {
    if intent != Greeting {
      var rows := Retrieved(intent, query, topK, locs, store, index);
      HeaderThenCards(HeaderItem(Header(intent, ExtractLocation(query, locs))), rows);
    }
  }

  /** A typed item without a score in front of the enriched rows: only the first
      item has a `type`, and no item has a score. */
  lemma CardsShape(h: ResponseItem, rows: seq<Record>)
    requires h.kind.Some? && h.summary.Some? && h.similarityScore.None?
    ensures var items := [h] + EnrichAll(rows);
      && items[0].kind.Some?
      && (forall k :: 1 <= k < |items| ==> items[k].kind.None? && items[k].details.Some?)
      && (forall k :: 0 <= k < |items| ==> items[k].summary.Some? && items[k].similarityScore.None?)
  {
    var items := [h] + EnrichAll(rows);
    HeaderThenCards(h, rows);
    forall k | 1 <= k < |items|
      ensures items[k].kind.None? && items[k].details.Some? && items[k].summary.Some? && items[k].similarityScore.None?
    {
      assert items[k] == Enriched(rows[k - 1]);
    }
  }

  /** The answer is never empty, only its first item has a `type`, and no item
      carries a `similarity_score` key. */
  lemma ItemsShape(intent: Intent, query: string, topK: int, locs: seq<string>, store: Store, index: Index)
    ensures var items := Answer(intent, query, topK, locs, store, index);
      && items != []
      && items[0].kind.Some?
      && (forall k :: 1 <= k < |items| ==> items[k].kind.None? && items[k].details.Some?)
      && (forall k :: 0 <= k < |items| ==> items[k].summary.Some? && items[k].similarityScore.None?)
  {
    var items := Answer(intent, query, topK, locs, store, index);
    if intent == Greeting {
      assert items == [GreetingItem];
    } else {
      var rows := Retrieved(intent, query, topK, locs, store, index);
      if rows == [] {
        assert items == [NoResultsItem];
      } else {
        var h := HeaderItem(Header(intent, ExtractLocation(query, locs)));
        assert items == [h] + EnrichAll(rows);
        CardsShape(h, rows);
      }
    }
  }

  /** The first item is typed "greeting" exactly when the query is a greeting. */
  lemma GreetingIffFirstTyped(intent: Intent, query: string, topK: int, locs: seq<string>, store: Store, index: Index)
    ensures Answer(intent, query, topK, locs, store, index)[0].kind == Some("greeting") <==> intent == Greeting
  {
    var items := Answer(intent, query, topK, locs, store, index);
    if intent == Greeting {
      assert items == [GreetingItem];
    } else {
      assert "no_results"[0] != "greeting"[0] && "header"[0] != "greeting"[0];
      var rows := Retrieved(intent, query, topK, locs, store, index);
      if rows == [] {
        assert items == [NoResultsItem];
      } else {
        var h := HeaderItem(Header(intent, ExtractLocation(query, locs)));
        assert items == [h] + EnrichAll(rows);
        assert items[0] == h;
      }
    }
  }

  /** A located sort answers with a header that names the very location the
      store query was restricted to. */
  lemma LocatedHeaderNamesFilter(query: string, topK: int, locs: seq<string>, store: Store, index: Index, key: SortKey)
    requires store(LocationSortQuery(query, key, locs, topK)) != []
    ensures var l := LocationSortQuery(query, key, locs, topK).filter.location;
      l.Some? ==>
        Answer(Sort(key, true), query, topK, locs, store, index)[0]
        == HeaderItem("Here are the " + Superlative(key) + " apartments in " + l.value + ":")
  {
    var l := LocationSortQuery(query, key, locs, topK).filter.location;
    Outcomes(Sort(key, true), query, topK, locs, store, index);
    if l.Some? {
      SortHeaderIn(key, true, ExtractLocation(query, locs));
    }
  }

  /** Semantic-search cards carry the hit's score as their relevance line, and
      their details are the hit's metadata. */
  lemma SemanticCardsShowScore(h: Hit)
    ensures CardOf(RowOf(h)).relevance == Some(h.score)
    ensures DetailsOf(RowOf(h)) == Details(h.meta.bedrooms, h.meta.location, h.meta.price, h.meta.areaSqft, Str(h.meta.amenities))
  {
  }

  /** A record with a list of amenities shows the same amenities line whether it is
      found in the document store or through its embedded document. */
  lemma AmenitiesAgreeAcrossRoutes(r: Record, score: Score)
    requires Loadable(r) && r.amenities.Some? && r.amenities.value.StrList?
    ensures AmenitiesText(RowOf(Hit(MetadataFor(r), score)).amenities) == AmenitiesText(r.amenities)
  {
  }
}

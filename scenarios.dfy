/**
 * One query followed through the whole handler: "cheapest apartment in Mumbai"
 * with "Mumbai" as the only known location is a located price-ascending sort,
 * the store is asked for the Mumbai records sorted by price and limited to
 * `top_k`, and the answer opens with the "most affordable apartments in Mumbai"
 * header.  Each fact about the literal query is proved in a lemma of its own.
 */
module QueryScenarios {
  import opened Wrappers
  import opened Strings
  import opened Records
  import opened LocationResolver
  import opened LocationResolverProperties
  import opened IntentClassifier
  import opened FilterSpecs
  import opened Headers
  import opened QueryHandler
  import opened QueryHandlerProperties

  const MumbaiQuery := "cheapest apartment in Mumbai"
  const MumbaiLower := "cheapest apartment in mumbai"
  const MumbaiLetters: set<char> := {' ', 'a', 'b', 'c', 'e', 'h', 'i', 'm', 'n', 'p', 'r', 's', 't', 'u'}

  /** With no greeting phrase, a superlative and a resolved location give the
      located sort of that superlative. */
  lemma ClassifiesAsLocatedSort(query: string, locs: seq<string>, key: SortKey)
    requires !ContainsAny(Normalize(query), Greetings)
    requires SortKeyOf(Normalize(query)) == Some(key)
    requires Present(ExtractLocation(Normalize(query), locs))
    ensures Classify(query, locs) == Sort(key, true)
  {
  }

  lemma MumbaiQueryLower()
    ensures Lower(MumbaiQuery) == MumbaiLower
  {
  }

  lemma MumbaiLowerStripped()
    ensures Strip(MumbaiLower) == MumbaiLower
  {
    StripUnchanged(MumbaiLower);
  }

  lemma MumbaiNormal()
    ensures Normalize(MumbaiQuery) == MumbaiLower
  {
    MumbaiQueryLower();
    MumbaiLowerStripped();
  }

  lemma MumbaiLowerLetters()
    ensures forall i :: 0 <= i < |MumbaiLower| ==> MumbaiLower[i] in MumbaiLetters
  {
  }

  lemma MumbaiLowerLacksHi()
    ensures !Contains(MumbaiLower, "hi")
  {
    NoPairAt(MumbaiLower, "hi", 0);
  }

  lemma MumbaiNoGreeting()
    ensures !ContainsAny(MumbaiLower, Greetings)
  {
    MumbaiLowerLacksHi();
    MumbaiLowerLetters();
    NoCharOf(MumbaiLower, MumbaiLetters, "hello", 2);
    NoCharOf(MumbaiLower, MumbaiLetters, "hey", 2);
    NoCharOf(MumbaiLower, MumbaiLetters, "how are you", 1);
    NoCharOf(MumbaiLower, MumbaiLetters, "good morning", 0);
    NoCharOf(MumbaiLower, MumbaiLetters, "good evening", 0);
  }

  lemma MumbaiNoPriceDesc()
    ensures !ContainsAny(MumbaiLower, SortWords(PriceDesc))
  {
    MumbaiLowerLetters();
    NoCharOf(MumbaiLower, MumbaiLetters, "most expensive", 1);
    NoCharOf(MumbaiLower, MumbaiLetters, "highest price", 2);
    NoCharOf(MumbaiLower, MumbaiLetters, "most costly", 1);
  }

  lemma MumbaiHasCheapest()
    ensures ContainsAny(MumbaiLower, SortWords(PriceAsc))
  {
    assert MatchAt(MumbaiLower, "cheapest", 0);
    assert Contains(MumbaiLower, "cheapest");
  }

  lemma MumbaiSortKey()
    ensures SortKeyOf(MumbaiLower) == Some(PriceAsc)
  {
    MumbaiNoPriceDesc();
    MumbaiHasCheapest();
  }

  lemma MumbaiKey()
    ensures Lower("Mumbai") == "mumbai"
  {
  }

  lemma MumbaiLowerNamesMumbai()
    ensures Contains(MumbaiLower, "mumbai")
  {
    assert MatchAt(MumbaiLower, "mumbai", 22);
  }

  lemma MumbaiLowerIsLower()
    ensures Lower(MumbaiLower) == MumbaiLower
  {
    MumbaiLowerLetters();
    LowerUnchanged(MumbaiLower);
  }

  /** The only known location is found at the whole-location stage. */
  lemma MumbaiResolved()
    ensures ExtractLocation(MumbaiLower, ["Mumbai"]) == Some("Mumbai")
    ensures ExtractLocation(MumbaiQuery, ["Mumbai"]) == Some("Mumbai")
  {
    MumbaiKey();
    MumbaiLowerNamesMumbai();
    MumbaiLowerIsLower();
    DirectStageWins(MumbaiLower, ["Mumbai"], "Mumbai");
    MumbaiQueryLower();
    ExtractIgnoresQueryCase(MumbaiQuery, ["Mumbai"]);
  }

  /** "cheapest apartment in Mumbai" is `sort_by_price_asc_location`. */
  lemma MumbaiIntent()
    ensures Classify(MumbaiQuery, ["Mumbai"]) == Sort(PriceAsc, true)
  {
    MumbaiNormal();
    MumbaiNoGreeting();
    MumbaiSortKey();
    MumbaiResolved();
    assert Present(Some("Mumbai"));
    ClassifiesAsLocatedSort(MumbaiQuery, ["Mumbai"], PriceAsc);
  }

  /** The store is asked for the Mumbai records by ascending price, `top_k` of them. */
  lemma MumbaiStoreQuery(topK: int)
    ensures LocationSortQuery(MumbaiQuery, PriceAsc, ["Mumbai"], topK)
         == StoreQuery(FilterSpec(None, Some("Mumbai"), None, None), Some((PriceField, 1)), Some(topK))
  {
    MumbaiResolved();
    assert Present(Some("Mumbai"));
  }

  lemma MumbaiHeaderText()
    ensures "Here are the " + Superlative(PriceAsc) + " apartments in " + "Mumbai" + ":"
         == "Here are the most affordable apartments in Mumbai:"
  {
    assert "Here are the " + "most affordable" == "Here are the most affordable";
    assert "Here are the most affordable" + " apartments in " == "Here are the most affordable apartments in ";
    assert "Here are the most affordable apartments in " + "Mumbai" + ":" == "Here are the most affordable apartments in Mumbai:";
  }

  /** When the store has Mumbai records, the answer opens with the header naming
      the most affordable apartments in Mumbai. */
  lemma MumbaiEndToEnd(topK: int, store: Store, index: Index)
    requires store(StoreQuery(FilterSpec(None, Some("Mumbai"), None, None), Some((PriceField, 1)), Some(topK))) != []
    ensures var items := HandleSpec(MumbaiQuery, topK, ["Mumbai"], store, index);
      items != [] && items[0] == HeaderItem("Here are the most affordable apartments in Mumbai:")
  {
    MumbaiIntent();
    MumbaiStoreQuery(topK);
    LocatedHeaderNamesFilter(MumbaiQuery, topK, ["Mumbai"], store, index, PriceAsc);
    MumbaiHeaderText();
  }
}

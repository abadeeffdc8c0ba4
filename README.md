# Apartment chatbot query pipeline, modelled in Dafny

This project models the query pipeline of an apartment-search chatbot (app/data_loader.py and
app/chatbot.py). A free-text query goes through these stages:

- the **location resolver** names one of the known locations, trying a whole-location match, then
  the area name before the first comma, then a fixed city-alias table;
- the **intent classifier** picks one of ten intents: a greeting, four sorts each optionally
  restricted to a location, a filter search or a semantic search;
- the **filter builder** reads a bedroom count, a price bound and required amenities out of the
  text;
- the **retrieval dispatch** runs a sorted store query, the filter query or a deduplicated
  similarity search;
- the **response formatter** turns every row into a listing card with its details, preceded by a
  header naming the intent, or answers with a greeting or a "no results" message;
- the **chat endpoint** wraps that list in a status envelope.

The document loader is modelled too. It turns stored records into embeddable documents, with a
descriptive text and a metadata dict whose `city` entry comes from the location.

The model is written in the source's own form:

- Pure decisions are functions, for example `LocationResolver.ExtractLocation`,
  `IntentClassifier.Classify` and `FilterSpecs.FilterFor`.
- The source's loops and statement sequences are methods. Each method is proved equal to the
  function that specifies it:
  - the deduplication loop (`SemanticDedup.DedupHits`);
  - the document loop (`Documents.BuildDocuments`);
  - the enrichment loop (`QueryHandler.EnrichResults`);
  - the filter-dict statements (`FilterSpecs.BuildFilterSpec`);
  - the handler (`QueryHandler.HandleUserQuery`);
  - the endpoint (`Chatbot.GetChatResponse`).
- The document store and the vector store are function-valued parameters (`QueryHandler.Store`,
  `QueryHandler.Index`), and so is the list of known locations.

Modules, leaf first: `Wrappers`, `Strings` (the Python `str` operations used, ASCII only),
`Records`, `LocationResolver`, `IntentClassifier`, `FilterSpecs`, `SemanticDedup`, `Documents`,
`Headers`, `QueryHandler`, `Chatbot`, `QueryScenarios`. Each `...Properties` module beside them
holds the lemmas about that stage.

Behaviours of the code as written that the lemmas make explicit:

- Greeting phrases are matched as substrings anywhere in the query, so a query holding "within"
  is answered with the greeting (`IntentClassifierProperties.WithinIsGreeting`).
- "with" alone routes a query to the filter search, even when no filter clause parses
  (`IntentClassifierProperties.ViewQueryIsFilterSearch`).
- Once "under" or "below" occurs, the floor pattern is never tried
  (`FilterSpecProperties.CeilingWordBlocksFloor`).
- The semantic deduplication loop tests its stop condition after every hit, so a `top_k` of zero
  or less still keeps one hit (`SemanticDedup.DedupHits`).
- The enriched items carry no `similarity_score` key. So the chat endpoint reports a score of 0
  for every result, and its "no results" branch never fires behind the handler, which always
  returns at least one item (`ChatbotProperties.ReplyToAnswer`).
- The header's location is resolved again from the raw query, while the classifier resolves it
  from the lower-cased, stripped query. Both lower-case before matching. The located sorts and
  the filter search restrict the store query to that location; the unlocated sorts and the
  semantic search do not (`QueryHandler.LocationSortQuery`, `QueryHandler.FilterQuery`,
  `QueryHandlerProperties.LocatedHeaderNamesFilter`).
- With the locations "Koregaon Park, Pune" and "Baner, Pune", the query "apartments in pune"
  misses the city-part stage ("koregaon park", "baner") and is resolved at the alias stage to the
  first location (`LocationResolverProperties.SameCityPicksFirstLocation`).
- The alias stage tries the aliases in table order, and within one alias the locations in map
  order. So the first alias in table order that occurs in the query and in some location picks the
  location, even when a later alias names a location earlier in the map (`LocationResolver.AliasScan`).
- The price search returns the leftmost match, so of two amounts written after "under" the
  first is read (`FilterSpecs.FirstMatch`, `FilterSpecs.FirstNumber`).

## Model

| member | source | states |
|---|---|---|
| LocationResolver.IndexOfKey | app/data_loader.py:68 | the position of a key in the insertion-ordered dict, or `None` exactly when the key is absent |
| LocationResolver.Put | app/data_loader.py:68 | dict assignment: an existing key keeps its place and takes the new value, a new key goes last, keys stay distinct |
| LocationResolver.LocationMap | app/data_loader.py:68 | the lower-case map: distinct keys, every entry's key is the lower case of a known location, every known location's lower case is a key, and each key holds the last location with that spelling |
| LocationResolverProperties.LocationMapKeepsFirstAppearance | app/data_loader.py:68 | the keys are in order of first appearance: an earlier entry's spelling occurs in the locations before any later entry's spelling |
| LocationResolverProperties.LocationMapOfDistinct | app/data_loader.py:68 | locations with pairwise distinct lower-case spellings give one entry each, in the order given |
| LocationResolver.FirstHit | app/data_loader.py:71-79 | the first entry in map order that passes a stage; no earlier entry passes; `None` exactly when no entry passes |
| LocationResolver.AliasScan | app/data_loader.py:82-95 | the hit is the first entry, in map order, containing the first alias in table order that occurs in the query and in some key; no earlier occurring alias is in any key; `None` means no occurring alias is in any key |
| LocationResolver.ExtractLocation | app/data_loader.py:65-96 | the resolved location is one of the known locations |
| LocationResolver.ResolvedLocationMatches | app/data_loader.py:65-96 | a resolved location matched at one of the three stages |
| LocationResolver.UnresolvedMissesLocation | app/data_loader.py:65-96 | when nothing is resolved, no stage matches any given known location |
| LocationResolver.UnresolvedIffNothingMatches | app/data_loader.py:65-96 | the resolver returns `None` exactly when no stage matches any known location |
| LocationResolverProperties.DirectStageWins | app/data_loader.py:70-73 | a whole-location match wins, and the result occurs whole in the query |
| LocationResolverProperties.NoDirectHit | app/data_loader.py:70-73 | with no location occurring whole, the first stage finds nothing |
| LocationResolverProperties.CityPartStageWins | app/data_loader.py:75-79 | with no whole match, a city-part match wins over the alias stage |
| LocationResolverProperties.ExtractIgnoresQueryCase | app/data_loader.py:66 | lower-casing the query first changes nothing |
| LocationResolverProperties.LocationMapOfTwo | app/data_loader.py:68 | two locations with different lower-case forms give two entries, in order |
| LocationResolverProperties.CityPartIs | app/data_loader.py:77 | the city part of a key is the text before its first comma when that text has clean ends |
| LocationResolverProperties.CityPartHit | app/data_loader.py:77-78 | a city part written in the query is found |
| LocationResolverProperties.CityPartMissByPair | app/data_loader.py:77-78 | a city part whose first two characters never occur together in the query is not found |
| LocationResolverProperties.SameCityMap | app/data_loader.py:68 | the map of "Koregaon Park, Pune" and "Baner, Pune" |
| LocationResolverProperties.SameCityAlias | app/data_loader.py:89-95 | the alias "pune" picks the first entry |
| LocationResolverProperties.SameCityPicksFirstLocation | app/data_loader.py:65-96 | "apartments in pune" resolves to "Koregaon Park, Pune", the first location in map order |
| IntentClassifier.SortKeyOf | app/data_loader.py:111-118 | the superlative group chosen is the first, in test order, with a keyword in the query; none exactly when no group has one |
| IntentClassifier.Classify | app/data_loader.py:99-125 | greeting exactly when a greeting phrase occurs; a sort exactly when there is no greeting and some superlative occurs; the `_location` suffix exactly when the resolved location is truthy; the filter search exactly when there is no greeting, no superlative and a trigger word occurs |
| IntentClassifierProperties.NamesAreDistinct | app/data_loader.py:105-125 | the ten intent names are pairwise distinct |
| IntentClassifierProperties.GreetingWins | app/data_loader.py:101-105 | any greeting phrase in the normalised query makes it a greeting |
| IntentClassifierProperties.WithinIsGreeting | app/data_loader.py:101-105 | a query holding "within" is a greeting, because "within" contains "hi" |
| IntentClassifierProperties.LocatedIffResolved | app/data_loader.py:108-118 | with no empty known location, a sort is located exactly when a location is resolved |
| IntentClassifierProperties.ClassifyIgnoresCase | app/data_loader.py:100 | the classifier does not see case |
| IntentClassifierProperties.ClassifiesAsFilter | app/data_loader.py:120-122 | no greeting, no superlative and one trigger word give the filter search |
| IntentClassifierProperties.ViewQueryIsFilterSearch | app/data_loader.py:120-122 | "tell me about apartments with a view" is a filter search |
| IntentClassifierProperties.GreetingNormal | app/data_loader.py:100 | the normal form of "hi, show cheapest 2 bhk in Pune" is its lower-case text |
| IntentClassifierProperties.GreetingBeatsKeywords | app/data_loader.py:103-105 | a greeting phrase wins over the sort and filter keywords |
| FilterSpecs.FirstBhk | app/data_loader.py:133 | the leftmost match of `(\d)\s?bhk`: it matches, no earlier position does, `None` when none does |
| FilterSpecs.Bedrooms | app/data_loader.py:133-135 | a bedroom count exists exactly when the pattern matches, and it is the digit of the leftmost match |
| FilterSpecs.DigitRunEnd | app/data_loader.py:145 | `\d+` is greedy: digits up to the end, then a non-digit or the end of the text |
| FilterSpecs.NumberAt | app/data_loader.py:145 | `\s?(\d+)` matches exactly at a digit or at one blank followed by a digit, and reads the digit run after the optional blank |
| FilterSpecs.AltNumberAt | app/data_loader.py:145 | an amount at a position comes from an alternative that matches there followed by a number |
| FilterSpecs.FirstMatch | app/data_loader.py:145 | `re.search` finds the leftmost start where the pattern matches: it matches there, at no earlier start, and `None` means it matches nowhere |
| FilterSpecs.FirstNumber | app/data_loader.py:145 | the amount read is the one at the leftmost match, and there is none when nothing matches |
| FilterSpecs.PriceFor | app/data_loader.py:143-154 | a ceiling exactly when "under"/"below" occurs and its search succeeds; a floor exactly when neither occurs, "above"/"over" does and its search succeeds; a failed search sets no price |
| FilterSpecs.Selected | app/data_loader.py:157-163 | every selected name belongs to a row whose keyword occurs, and every such row's name is selected |
| FilterSpecs.FilterFor | app/data_loader.py:128-165 | each of the four keys of the filter dict, present exactly when the source sets it |
| FilterSpecs.BuildFilterSpec | app/data_loader.py:129-165 | the statements build exactly that filter dict |
| FilterSpecs.ReadPrice | app/data_loader.py:143-154 | the `if`/`elif` with its `try` blocks yields the price of `PriceFor` |
| FilterSpecs.CollectAmenities | app/data_loader.py:157-163 | the three appends yield the amenity list |
| FilterSpecs.PairTest | app/data_loader.py:143 | `a in q or b in q` is the test over the two words |
| FilterSpecProperties.AmenityListFollowsTable | app/data_loader.py:157-163 | the three tests select the table rows whose keyword occurs, in table order |
| FilterSpecProperties.AmenityRequiredIffMentioned | app/data_loader.py:157-165 | an amenity is required exactly when its keyword occurs |
| FilterSpecProperties.CeilingMatchHasTrigger | app/data_loader.py:143-146 | a successful ceiling search implies a trigger word, so it sets the ceiling |
| FilterSpecProperties.CeilingWordBlocksFloor | app/data_loader.py:143-154 | once a ceiling word occurs, the price is a ceiling or nothing |
| FilterSpecProperties.RunEndsAt | app/data_loader.py:145 | the digit run ends at the first non-digit |
| FilterSpecProperties.ReadsAmount | app/data_loader.py:145 | a written amount after one blank is read back exactly |
| FilterSpecProperties.LeftmostNumber | app/data_loader.py:145 | the search returns the match at the first position where a trigger word occurs, when the number follows there |
| FilterSpecProperties.NoWordNoNumber | app/data_loader.py:145 | where no alternative occurs, the pattern does not match |
| FilterSpecProperties.WrittenCeilingIsRead | app/data_loader.py:143-146 | "under N..." sets exactly the ceiling N |
| FilterSpecProperties.WrittenFloorIsRead | app/data_loader.py:149-152 | "over N..." with no ceiling word sets exactly the floor N |
| FilterSpecProperties.BanerBedrooms | app/data_loader.py:133-135 | "3 bhk in baner under 50000 with pool" asks for 3 bedrooms |
| FilterSpecProperties.BanerPrice | app/data_loader.py:143-146 | the same query sets the ceiling 50000 |
| FilterSpecProperties.BanerAmenities | app/data_loader.py:157-163 | the same query requires only "Swimming Pool" |
| FilterSpecProperties.BanerLocation | app/data_loader.py:138-140 | the same query resolves to "Baner, Pune" at the city-part stage |
| FilterSpecProperties.BanerFilter | app/data_loader.py:128-165 | the same query yields all four constraints |
| SemanticDedup.FirstOccurrences | app/data_loader.py:175-186 | the first hit of each key, never more hits than given |
| SemanticDedup.Cap | app/data_loader.py:188-189 | the number of hits kept at most: `top_k`, but at least one |
| SemanticDedup.DedupHits | app/data_loader.py:172-191 | the loop keeps the first `top_k` (at least one) first occurrences, and exactly one hit when `top_k` is zero or less and there are hits |
| SemanticDedup.FirstOccurrencesPrefix | app/data_loader.py:188-189 | stopping early keeps a prefix of the first occurrences |
| SemanticDedup.RowOf | app/data_loader.py:176-185 | a kept hit's row is its metadata with the score attached |
| SemanticDedup.SemanticSearch | app/data_loader.py:170-191 | twice `top_k` hits are asked for, deduplicated and turned into rows |
| SemanticDedupProperties.FirstOccurrencesDistinct | app/data_loader.py:177-186 | no two kept hits share a key |
| SemanticDedupProperties.FirstOccurrencesKeys | app/data_loader.py:177-186 | the kept hits cover exactly the keys of all hits |
| SemanticDedupProperties.FirstOccurrencesOrigin | app/data_loader.py:175-186 | each kept hit is the first hit with its key, and the kept hits keep the hits' order |
| SemanticDedupProperties.DeduplicatedBound | app/data_loader.py:188-189 | with a positive `top_k`, at most `top_k` hits, a prefix of the first occurrences |
| SemanticDedupProperties.DeduplicatedUnique | app/data_loader.py:172-191 | no two rows of a semantic search share a key |
| Documents.MetadataFor | app/data_loader.py:30-49 | each metadata field is the record's own value or its default, and the amenities are joined |
| Documents.DocumentsFor | app/data_loader.py:27-52 | one document per record |
| Documents.BuildDocuments | app/data_loader.py:27-52 | the loop builds exactly the documents of the records, in order |
| DocumentProperties.DocumentsAreInOrder | app/data_loader.py:29-51 | the i-th document is the document of the i-th record |
| DocumentProperties.CityShape | app/data_loader.py:48 | a city holds no comma and no capital, and has no surrounding whitespace |
| DocumentProperties.AfterLastAt | app/data_loader.py:48 | the last comma-separated piece starts after the last comma |
| DocumentProperties.CityWithoutComma | app/data_loader.py:48 | a location without a comma is its own city, stripped and lower-cased |
| DocumentProperties.CleanCity | app/data_loader.py:48 | a clean lower-case location without a comma is its own city |
| DocumentProperties.DefaultCityIsItself | app/data_loader.py:31-48 | the default location "an unknown location" is its own city |
| DocumentProperties.MetadataCityFromLocation | app/data_loader.py:31-48 | the city entry is computed from the defaulted location exactly as the source does |
| DocumentProperties.CityAfterComma | app/data_loader.py:48 | the city comes from the piece after the last comma |
| DocumentProperties.CityOfLastPiece | app/data_loader.py:48 | the city of `prefix,piece` comes from `piece` alone |
| DocumentProperties.PuneLocations | app/data_loader.py:48 | every location ending in ", Pune" is filed under "pune" |
| DocumentProperties.KoregaonParkCity | app/data_loader.py:48 | "Koregaon Park, Pune" is filed under "pune" |
| DocumentProperties.MetadataKeepsFields | app/data_loader.py:42-46 | the deduplication fields of the metadata are the record's own fields |
| Headers.SortHeaderIn | app/data_loader.py:280-287 | a sort header with a truthy location reads "Here are the ... apartments in <location>:" |
| Headers.PrefixMatch | app/data_loader.py:280-287 | a name contains its own prefix |
| Headers.NoSortFamily | app/data_loader.py:280-287 | a name without "so" holds no sort family |
| Headers.SortNameFamily | app/data_loader.py:280-287 | each sort intent's name contains its family's name |
| Headers.PriceAscName | app/data_loader.py:280-282 | the price-ascending names do not pass the price-descending test |
| Headers.AreaDescName | app/data_loader.py:280-284 | the area-descending names pass neither price test |
| Headers.AreaAscName | app/data_loader.py:280-286 | the area-ascending names pass none of the three earlier tests |
| Headers.SortHeader | app/data_loader.py:280-287 | every sort intent gets the header of its own family |
| Headers.FilterHeader | app/data_loader.py:288-289 | the filter search gets the filter header |
| Headers.SemanticHeader | app/data_loader.py:290-291 | the semantic search gets the default header |
| Headers.GreetingHeader | app/data_loader.py:290-291 | the greeting name passes no test |
| Headers.HeaderFollowsIntent | app/data_loader.py:280-291 | the substring tests on the intent name pick the header of that intent |
| QueryHandler.SortOf | app/data_loader.py:218-234 | the sort field is the price exactly for the price intents, and the order is descending exactly for the `desc` intents |
| QueryHandler.LocationSortQuery | app/data_loader.py:194-201 | only the location key, present exactly when the location is truthy, re-resolved from the raw query; sorted and limited to `top_k` |
| QueryHandler.SortQuery | app/data_loader.py:227-234 | the empty filter, sorted and limited to `top_k` |
| QueryHandler.FilterQuery | app/data_loader.py:128-167 | the filter dict, unsorted and unlimited |
| QueryHandler.AmenitiesText | app/data_loader.py:250 | a list is comma-joined, a string is shown as it is, and an absent key shows "None" |
| QueryHandler.CardOf | app/data_loader.py:245-254 | every card field is the row's value or its default, and the relevance line appears exactly when the row has a score |
| QueryHandler.DetailsOf | app/data_loader.py:258-264 | each detail is the row's value, or `None` when it is absent |
| QueryHandler.EnrichAll | app/data_loader.py:243-266 | one enriched item per row, in order |
| QueryHandler.FilterBasedSearch | app/data_loader.py:128-167 | the store is queried with exactly the filter dict |
| QueryHandler.Retrieve | app/data_loader.py:217-240 | the `if`/`elif` chain runs the route of the intent |
| QueryHandler.EnrichResults | app/data_loader.py:243-266 | the loop builds exactly the enriched items |
| QueryHandler.HandleUserQuery | app/data_loader.py:204-298 | the handler returns exactly the answer the intent selects |
| QueryHandlerProperties.HeaderThenCards | app/data_loader.py:293-296 | the header goes first and the k-th row's item at position k + 1 |
| QueryHandlerProperties.Outcomes | app/data_loader.py:211-298 | a lone greeting, a lone "no results" item, or a header followed by one item per row, in order |
| QueryHandlerProperties.CardsShape | app/data_loader.py:256-266 | behind a typed header, the items are untyped, hold details and carry no score |
| QueryHandlerProperties.ItemsShape | app/data_loader.py:211-298 | the answer is never empty, only its first item is typed, every item has a summary and none has a score |
| QueryHandlerProperties.GreetingIffFirstTyped | app/data_loader.py:211-215 | the first item is typed "greeting" exactly for the greeting intent |
| QueryHandlerProperties.LocatedHeaderNamesFilter | app/data_loader.py:278-287 | a located sort's header names the very location the store query was restricted to |
| QueryHandlerProperties.SemanticCardsShowScore | app/data_loader.py:253-254 | semantic cards show the hit's score, and their details are the hit's metadata |
| QueryHandlerProperties.AmenitiesAgreeAcrossRoutes | app/data_loader.py:250 | a list of amenities is shown the same whether found in the store or through its document |
| QueryScenarios.ClassifiesAsLocatedSort | app/data_loader.py:108-118 | no greeting, a superlative and a resolved location give the located sort |
| QueryScenarios.MumbaiIntent | app/data_loader.py:99-125 | "cheapest apartment in Mumbai" is `sort_by_price_asc_location` |
| QueryScenarios.MumbaiStoreQuery | app/data_loader.py:194-201 | its store query is the Mumbai records by ascending price, `top_k` of them |
| QueryScenarios.MumbaiEndToEnd | app/data_loader.py:204-298 | its answer opens with "Here are the most affordable apartments in Mumbai:" |
| Chatbot.ResultOf | app/chatbot.py:23-26 | a result is the item's summary and score, or the defaults when absent |
| Chatbot.ChatFor | app/chatbot.py:6-32 | "no_results" exactly for an empty list, "greeting" exactly when the first item is typed greeting, otherwise success with one result per item |
| Chatbot.Respond | app/chatbot.py:6-32 | the early returns and the loop build exactly that reply |
| Chatbot.GetChatResponse | app/chatbot.py:3-32 | the reply to the handler's answer with `top_k` 5 |
| ChatbotProperties.ReplyToAnswer | app/chatbot.py:3-32 | behind the handler the reply is never "no_results", it is the greeting exactly for greetings, and a success reply leads with the header message and scores every result 0 |

## Left out

- Document store and vector store: MongoDB's `find`/`sort`/`limit` and Chroma's
  `similarity_search_with_score` are parameters. The rows they return are not modelled, so
  neither are pymongo's `limit` semantics for zero or negative values.
- `get_unique_locations` (the aggregation over the store) is not modelled. The known locations
  are a parameter.
- The embedding model, `Chroma.from_documents` and the module-level start-up code are not
  modelled. They are I/O.
- Emoji and markdown decoration of the messages and cards are not modelled. Cards are a
  structured `Summary.Card`, with the fixed message texts kept.
- Floating point is not modelled. Prices and areas are integers or strings.
- SemanticDedup.RowOf: the score is carried unrounded. `round(float(score), 4)` is not
  modelled.
- QueryHandler.CardOf: the relevance line carries the score itself. The `:.2f` formatting is
  not modelled.
- Chatbot.ResultOf: `round(float(...), 3)` of the score is not modelled.
- SemanticDedup.RowOf: the row keeps only the record fields. The `city` entry and the `summary`
  key written into the metadata dict are dropped, since the formatter overwrites the summary
  and never reads the city. The in-place mutation of the vector store's metadata dicts is not
  modelled either.
- FilterSpecs.PriceFor: a matched amount is always converted. CPython 3.11 and later refuse to
  convert a digit string longer than 4300 digits (the default `int_max_str_digits`, which can be
  changed at run time); the bare `except` would then leave the price key out. That limit depends
  on the interpreter's version and settings, so it is not modelled.
- `str.lower()`, `str.strip()`, `str.isspace()` and `\d` are their ASCII versions. There is no
  Unicode case mapping and no Unicode digits.
- A stored location that is truthy but not a string, such as a number, would make `split`
  raise. `Documents.Loadable` excludes such records, and `Documents.BuildDocuments` requires
  it. The same holds for amenities that are neither a list nor a string, where `join` raises.
- app/data_mongo.py, app/routes.py and app/__init__.py are not part of this model. They hold
  seeding, HTTP transport and app set-up.

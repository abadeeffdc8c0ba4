/**
 * The location resolver of app/data_loader.py (`extract_location_from_query`):
 * maps a free-text query to one of the known locations by a direct substring
 * match, then by the part of a location before its first comma, then by a fixed
 * city-alias table.  The first hit wins; locations are scanned in the order of
 * the lower-case map built from them.
 */
module LocationResolver {
  import opened Wrappers
  import opened Strings

  /** One entry of `location_map`: a lower-cased location and the spelling it maps to. */
  datatype Entry = Entry(key: string, location: string)

  function KeySeq(entries: seq<Entry>): (ks: seq<string>)
    ensures |ks| == |entries|
    ensures forall i :: 0 <= i < |entries| ==> ks[i] == entries[i].key
  {
    seq(|entries|, i requires 0 <= i < |entries| => entries[i].key)
  }

  predicate DistinctKeys(entries: seq<Entry>) {
    forall i, j :: 0 <= i < j < |entries| ==> entries[i].key != entries[j].key
  }

  /** The position of key `k`, if the dict has it. */
  function IndexOfKey(entries: seq<Entry>, k: string): (r: Option<nat>)
    ensures r.Some? ==> r.value < |entries| && entries[r.value].key == k
    ensures r.None? ==> k !in KeySeq(entries)
  {
    if entries == [] then None
    else if entries[0].key == k then Some(0)
    else match IndexOfKey(entries[1..], k)
      case Some(i) => Some(i + 1)
      case None => assert KeySeq(entries) == [entries[0].key] + KeySeq(entries[1..]); None
  }

  /** `m[k] = v` on an insertion-ordered dict: an existing key keeps its place and
      takes the new value; a new key goes last. */
  function Put(entries: seq<Entry>, k: string, v: string): (r: seq<Entry>)
    requires DistinctKeys(entries)
    ensures KeySeq(r) == if k in KeySeq(entries) then KeySeq(entries) else KeySeq(entries) + [k]
    ensures |r| == if k in KeySeq(entries) then |entries| else |entries| + 1
    ensures forall i :: 0 <= i < |entries| ==> r[i] == if entries[i].key == k then Entry(k, v) else entries[i]
    ensures k !in KeySeq(entries) ==> r[|entries|] == Entry(k, v)
    ensures Entry(k, v) in r
    ensures forall e :: e in r && e.key != k ==> e in entries
    ensures forall e :: e in entries && e.key != k ==> e in r
    ensures DistinctKeys(r)
  {
    match IndexOfKey(entries, k)
    case Some(i) =>
      var r := entries[i := Entry(k, v)];
      assert KeySeq(r) == KeySeq(entries);
      assert r[i] in r;
      r
    case None =>
      var r := entries + [Entry(k, v)];
      assert KeySeq(r) == KeySeq(entries) + [k];
      assert r[|entries|] in r;
      r
  }

  /** `{loc.lower(): loc for loc in available_locations}`: one entry per distinct
      lower-case spelling, in order of first appearance, holding the last location
      with that spelling. */
  function LocationMap(locs: seq<string>): (r: seq<Entry>)
    ensures DistinctKeys(r)
    ensures forall e :: e in r ==> e.location in locs && e.key == Lower(e.location)
    ensures forall l :: l in locs ==> Lower(l) in KeySeq(r)
    ensures forall j :: 0 <= j < |locs| && LastSpelling(locs, j) ==> Entry(Lower(locs[j]), locs[j]) in r
  {
    if locs == [] then []
    else
      var last := locs[|locs| - 1];
      var init := locs[..|locs| - 1];
      assert locs == init + [last];
      var m := LocationMap(init);
      LocationMapStep(init, last, m);
      Put(m, Lower(last), last)
  }

  /** The step of `LocationMap`: storing `last` under its lower-case spelling
      keeps every property of the map of the locations before it. */
  lemma LocationMapStep(init: seq<string>, last: string, m: seq<Entry>)
    requires DistinctKeys(m)
    requires forall e :: e in m ==> e.location in init && e.key == Lower(e.location)
    requires forall l :: l in init ==> Lower(l) in KeySeq(m)
    requires forall j :: 0 <= j < |init| && LastSpelling(init, j) ==> Entry(Lower(init[j]), init[j]) in m
    ensures var locs, r := init + [last], Put(m, Lower(last), last);
      && DistinctKeys(r)
      && (forall e :: e in r ==> e.location in locs && e.key == Lower(e.location))
      && (forall l :: l in locs ==> Lower(l) in KeySeq(r))
      && (forall j :: 0 <= j < |locs| && LastSpelling(locs, j) ==> Entry(Lower(locs[j]), locs[j]) in r)
  {
    var locs := init + [last];
    var r := Put(m, Lower(last), last);
    forall l | l in locs
      ensures Lower(l) in KeySeq(r)
    {
      if l != last {
        assert l in init;
      }
    }
    forall j | 0 <= j < |locs| && LastSpelling(locs, j)
      ensures Entry(Lower(locs[j]), locs[j]) in r
    {
      if j < |init| {
        forall k | j < k < |init|
          ensures Lower(init[k]) != Lower(init[j])
        {
          assert locs[k] == init[k] && locs[j] == init[j];
        }
        assert locs[|init|] == last;
      }
    }
  }

  /** No location after position `j` has the same lower-case spelling. */
  predicate LastSpelling(locs: seq<string>, j: nat)
    requires j < |locs|
  {
    forall k :: j < k < |locs| ==> Lower(locs[k]) != Lower(locs[j])
  }

  /** The lower-case spelling `a` occurs in `locs` before `b` does. */
  predicate AppearsBefore(locs: seq<string>, a: string, b: string) {
    exists p :: 0 <= p < |locs| && Lower(locs[p]) == a && forall q :: 0 <= q <= p ==> Lower(locs[q]) != b
  }

  /** The three tests the resolver applies to a map entry. */
  datatype Stage =
    | Direct     // the whole lower-case location occurs in the query
    | CityPart   // the part before the first comma, stripped, occurs in the query
    | HasAlias   // the lower-case location contains the alias (here `s` is the alias)

  /** `loc_lower.split(",")[0].strip()` */
  function CityPartOf(key: string): string {
    Strip(BeforeFirst(key, ','))
  }

  predicate Hits(stage: Stage, e: Entry, s: string) {
    match stage
    case Direct => Contains(s, e.key)
    case CityPart => Contains(s, CityPartOf(e.key))
    case HasAlias => Contains(e.key, s)
  }

  /** The index of the first entry that passes `stage`, scanning in map order. */
  function FirstHit(stage: Stage, entries: seq<Entry>, s: string): (r: Option<nat>)
    ensures r.Some? ==> r.value < |entries| && Hits(stage, entries[r.value], s)
    ensures r.Some? ==> forall j :: 0 <= j < r.value ==> !Hits(stage, entries[j], s)
    ensures r.None? ==> forall j :: 0 <= j < |entries| ==> !Hits(stage, entries[j], s)
  {
    if entries == [] then None
    else if Hits(stage, entries[0], s) then Some(0)
    else match FirstHit(stage, entries[1..], s)
      case Some(k) => Some(k + 1)
      case None => None
  }

  /** `city_aliases`, in declaration order. */
  const CityAliases: seq<(string, seq<string>)> := [
    ("pune", ["pune", "puna"]),
    ("mumbai", ["mumbai", "bombay"]),
    ("bangalore", ["bangalore", "bengaluru"]),
    ("delhi", ["delhi", "new delhi", "dilli"])
  ]

  function Flatten(table: seq<(string, seq<string>)>): seq<string> {
    if table == [] then [] else table[0].1 + Flatten(table[1..])
  }

  /** The order in which the nested loop over `city_aliases.values()` tries aliases. */
  function AliasOrder(): seq<string> {
    Flatten(CityAliases)
  }

  /** The alias stage: for each alias in order that occurs in the query, the first
      entry whose key contains it; an alias with no such entry passes to the next. */
  function AliasScan(aliases: seq<string>, entries: seq<Entry>, q: string): (r: Option<nat>)
    ensures r.Some? ==> r.value < |entries|
    ensures r.Some? ==> exists a :: a in aliases && Contains(q, a) && Contains(entries[r.value].key, a)
    ensures r.Some? ==> exists k :: AliasDecides(aliases, entries, q, k) && r == FirstHit(HasAlias, entries, aliases[k])
    ensures r.None? ==> forall a, j :: a in aliases && Contains(q, a) && 0 <= j < |entries| ==> !Contains(entries[j].key, a)
  {
    if aliases == [] then None
    else if Contains(q, aliases[0]) && FirstHit(HasAlias, entries, aliases[0]).Some? then
      assert AliasDecides(aliases, entries, q, 0);
      FirstHit(HasAlias, entries, aliases[0])
    else
      var rest := AliasScan(aliases[1..], entries, q);
      if rest.Some? then
        AliasDecidesLater(aliases, entries, q, rest);
        rest
      else rest
  }

  /** The `k`-th alias decides the alias stage: it occurs in the query and in some
      key, and no earlier alias that occurs in the query occurs in any key. */
  predicate AliasDecides(aliases: seq<string>, entries: seq<Entry>, q: string, k: int) {
    && 0 <= k < |aliases|
    && Contains(q, aliases[k])
    && FirstHit(HasAlias, entries, aliases[k]).Some?
    && forall k' :: 0 <= k' < k && Contains(q, aliases[k']) ==> FirstHit(HasAlias, entries, aliases[k']).None?
  }

  /** An alias that decides the scan of the later aliases decides the whole scan
      when the first alias does not. */
  lemma AliasDecidesLater(aliases: seq<string>, entries: seq<Entry>, q: string, r: Option<nat>)
    requires aliases != []
    requires !(Contains(q, aliases[0]) && FirstHit(HasAlias, entries, aliases[0]).Some?)
    requires exists k :: AliasDecides(aliases[1..], entries, q, k) && r == FirstHit(HasAlias, entries, aliases[1..][k])
    ensures exists k :: AliasDecides(aliases, entries, q, k) && r == FirstHit(HasAlias, entries, aliases[k])
  {
    var k :| AliasDecides(aliases[1..], entries, q, k) && r == FirstHit(HasAlias, entries, aliases[1..][k]);
    assert aliases[k + 1] == aliases[1..][k];
    forall k' | 0 <= k' < k + 1 && Contains(q, aliases[k'])
      ensures FirstHit(HasAlias, entries, aliases[k']).None?
    {
      if k' > 0 {
        assert aliases[k'] == aliases[1..][k' - 1];
      }
    }
    assert AliasDecides(aliases, entries, q, k + 1);
  }

  /** No stage matches: no lower-case location and no city part occurs in the
      (lower-case) query, and no alias occurring in it occurs in a lower-case location. */
  predicate NothingMatches(q: string, locs: seq<string>) {
    forall l :: l in locs ==>
      && !Contains(q, Lower(l))
      && !Contains(q, CityPartOf(Lower(l)))
      && forall a :: a in AliasOrder() && Contains(q, a) ==> !Contains(Lower(l), a)
  }

  /** The three stages in priority order: the index of the map entry that wins. */
  function StageScan(m: seq<Entry>, q: string): (r: Option<nat>)
    ensures r.Some? ==> r.value < |m|
  {
    match FirstHit(Direct, m, q)
    case Some(k) => Some(k)
    case None =>
      match FirstHit(CityPart, m, q)
      case Some(k) => Some(k)
      case None => AliasScan(AliasOrder(), m, q)
  }

  /** `extract_location_from_query(query, available_locations)` */
  function ExtractLocation(query: string, locs: seq<string>): (r: Option<string>)
    ensures r.Some? ==> r.value in locs
  {
    var m := LocationMap(locs);
    match StageScan(m, Lower(query))
    case Some(k) => assert m[k] in m; Some(m[k].location)
    case None => None
  }

  /** Every known location has an entry in the map, under its lower-case spelling. */
  lemma EntryOf(locs: seq<string>, l: string) returns (k: nat)
    requires l in locs
    ensures k < |LocationMap(locs)| && LocationMap(locs)[k].key == Lower(l)
  {
    var m := LocationMap(locs);
    k :| 0 <= k < |KeySeq(m)| && KeySeq(m)[k] == Lower(l);
  }

  /** A resolved location matched the query at one of the three stages. */
  lemma ResolvedLocationMatches(query: string, locs: seq<string>)
    requires ExtractLocation(query, locs).Some?
    ensures
      var q, v := Lower(query), Lower(ExtractLocation(query, locs).value);
      || Contains(q, v)
      || Contains(q, CityPartOf(v))
      || exists a :: a in AliasOrder() && Contains(q, a) && Contains(v, a)
  {
    var m := LocationMap(locs);
    var q := Lower(query);
    var k: nat;
    if FirstHit(Direct, m, q).Some? {
      k := FirstHit(Direct, m, q).value;
    } else if FirstHit(CityPart, m, q).Some? {
      k := FirstHit(CityPart, m, q).value;
    } else {
      k := AliasScan(AliasOrder(), m, q).value;
    }
    assert m[k] in m;
  }

  /** When the resolver returns `None`, no stage matched the entry of `l`. */
  lemma UnresolvedMissesLocation(query: string, locs: seq<string>, l: string)
    requires ExtractLocation(query, locs).None? && l in locs
    ensures !Contains(Lower(query), Lower(l)) && !Contains(Lower(query), CityPartOf(Lower(l)))
    ensures forall a :: a in AliasOrder() && Contains(Lower(query), a) ==> !Contains(Lower(l), a)
  {
    var m := LocationMap(locs);
    var k := EntryOf(locs, l);
    assert !Hits(Direct, m[k], Lower(query)) && !Hits(CityPart, m[k], Lower(query));
  }

  /** The resolver returns `None` exactly when no stage matches any known location. */
  lemma UnresolvedIffNothingMatches(query: string, locs: seq<string>)
    ensures ExtractLocation(query, locs).None? <==> NothingMatches(Lower(query), locs)
  {
    if ExtractLocation(query, locs).None? {
      forall l | l in locs
        ensures !Contains(Lower(query), Lower(l)) && !Contains(Lower(query), CityPartOf(Lower(l)))
        ensures forall a :: a in AliasOrder() && Contains(Lower(query), a) ==> !Contains(Lower(l), a)
      {
        UnresolvedMissesLocation(query, locs, l);
      }
    } else {
      var l := ExtractLocation(query, locs).value;
      ResolvedLocationMatches(query, locs);
      assert l in locs;
    }
  }
}

module LocationResolverProperties {
  import opened Wrappers
  import opened Strings
  import opened LocationResolver

  /** Stage 1 has priority: when some known location occurs whole in the query, the
      resolver returns the first such location in map order, whatever the later
      stages would have found. */
  lemma DirectStageWins(query: string, locs: seq<string>, l: string)
    requires l in locs && Contains(Lower(query), Lower(l))
    ensures
      var m, r := LocationMap(locs), ExtractLocation(query, locs);
      && FirstHit(Direct, m, Lower(query)).Some?
      && r == Some(m[FirstHit(Direct, m, Lower(query)).value].location)
      && Contains(Lower(query), Lower(r.value))
  {
    var m := LocationMap(locs);
    var k := EntryOf(locs, l);
    assert Hits(Direct, m[k], Lower(query));
    var w := FirstHit(Direct, m, Lower(query)).value;
    assert m[w] in m;
  }

  /** With no whole-location match in the query, stage 1 finds nothing. */
  lemma NoDirectHit(query: string, locs: seq<string>)
    requires forall l' :: l' in locs ==> !Contains(Lower(query), Lower(l'))
    ensures FirstHit(Direct, LocationMap(locs), Lower(query)).None?
  {
    var m := LocationMap(locs);
    forall j | 0 <= j < |m|
      ensures !Hits(Direct, m[j], Lower(query))
    {
      assert m[j] in m;
    }
  }

  /** Stage 2 beats stage 3: with no whole-location match, a location whose part
      before the first comma occurs in the query is found at stage 2. */
  lemma CityPartStageWins(query: string, locs: seq<string>, l: string)
    requires forall l' :: l' in locs ==> !Contains(Lower(query), Lower(l'))
    requires l in locs && Contains(Lower(query), CityPartOf(Lower(l)))
    ensures
      var m, r := LocationMap(locs), ExtractLocation(query, locs);
      && FirstHit(Direct, m, Lower(query)).None?
      && FirstHit(CityPart, m, Lower(query)).Some?
      && r == Some(m[FirstHit(CityPart, m, Lower(query)).value].location)
      && Contains(Lower(query), CityPartOf(Lower(r.value)))
  {
    var m := LocationMap(locs);
    NoDirectHit(query, locs);
    var k := EntryOf(locs, l);
    assert Hits(CityPart, m[k], Lower(query));
    var w := FirstHit(CityPart, m, Lower(query)).value;
    assert m[w] in m;
  }

  /** Matching ignores the case of the query: it is lower-cased before any test. */
  lemma ExtractIgnoresQueryCase(query: string, locs: seq<string>)
    ensures ExtractLocation(Lower(query), locs) == ExtractLocation(query, locs)
  {
    LowerIdempotent(query);
  }

  /** Two locations whose lower-case forms differ get one entry each, in order. */
  lemma LocationMapOfTwo(a: string, b: string)
    requires Lower(a) != Lower(b)
    ensures LocationMap([a, b]) == [Entry(Lower(a), a), Entry(Lower(b), b)]
  {
    LocationMapOfDistinct([a, b]);
  }

  /** Locations whose lower-case spellings are pairwise distinct get one entry
      each, in the order given. */
  lemma {:induction false} LocationMapOfDistinct(locs: seq<string>)
    requires forall i, j :: 0 <= i < j < |locs| ==> Lower(locs[i]) != Lower(locs[j])
    ensures LocationMap(locs) == seq(|locs|, i requires 0 <= i < |locs| => Entry(Lower(locs[i]), locs[i]))
  {
    if locs != [] {
      var last := locs[|locs| - 1];
      var init := locs[..|locs| - 1];
      assert locs == init + [last];
      LocationMapOfDistinct(init);
      assert LocationMap(locs) == Put(LocationMap(init), Lower(last), last);
      DistinctStep(init, last, LocationMap(init));
    }
  }

  /** The step of `LocationMapOfDistinct`: a spelling new to the map is appended. */
  lemma DistinctStep(init: seq<string>, last: string, m: seq<Entry>)
    requires forall i, j :: 0 <= i < j < |init| ==> Lower(init[i]) != Lower(init[j])
    requires forall i :: 0 <= i < |init| ==> Lower(init[i]) != Lower(last)
    requires m == seq(|init|, i requires 0 <= i < |init| => Entry(Lower(init[i]), init[i]))
    ensures DistinctKeys(m)
    ensures var locs := init + [last];
      Put(m, Lower(last), last) == seq(|locs|, i requires 0 <= i < |locs| => Entry(Lower(locs[i]), locs[i]))
  {
    assert Lower(last) !in KeySeq(m) by {
      forall i | 0 <= i < |m|
        ensures KeySeq(m)[i] != Lower(last)
      {
        assert KeySeq(m)[i] == Lower(init[i]);
      }
    }
    assert Put(m, Lower(last), last) == m + [Entry(Lower(last), last)];
  }

  /** The map keeps the keys in order of first appearance: an earlier entry's
      spelling occurs in `locs` before any location with a later entry's spelling. */
  lemma {:induction false} LocationMapKeepsFirstAppearance(locs: seq<string>)
    ensures FirstAppearanceOrder(locs, LocationMap(locs))
  {
    if locs != [] {
      var last := locs[|locs| - 1];
      var init := locs[..|locs| - 1];
      assert locs == init + [last];
      var m := LocationMap(init);
      assert LocationMap(locs) == Put(m, Lower(last), last);
      LocationMapKeepsFirstAppearance(init);
      FirstAppearanceStep(init, last, m);
    }
  }

  /** The step of `LocationMapKeepsFirstAppearance`: storing `last` keeps the order. */
  lemma FirstAppearanceStep(init: seq<string>, last: string, m: seq<Entry>)
    requires DistinctKeys(m)
    requires forall e :: e in m ==> e.location in init && e.key == Lower(e.location)
    requires forall l :: l in init ==> Lower(l) in KeySeq(m)
    requires FirstAppearanceOrder(init, m)
    ensures FirstAppearanceOrder(init + [last], Put(m, Lower(last), last))
  {
    var r := Put(m, Lower(last), last);
    var isNew := Lower(last) !in KeySeq(m);
    forall i, j | 0 <= i < j < |r|
      ensures AppearsBefore(init + [last], r[i].key, r[j].key)
    {
      if j < |m| {
        assert r[i].key == KeySeq(r)[i] == KeySeq(m)[i] == m[i].key;
        assert r[j].key == KeySeq(r)[j] == KeySeq(m)[j] == m[j].key;
        AppearsBeforeExtend(init, last, m[i].key, m[j].key);
      } else {
        assert isNew && r[i] == m[i] && r[j].key == Lower(last);
        assert m[i] in m;
        NewKeyAppearsLast(init, last, KeySeq(m), m[i]);
      }
    }
  }

  /** Each entry's spelling occurs in `locs` before any later entry's spelling. */
  predicate FirstAppearanceOrder(locs: seq<string>, r: seq<Entry>) {
    forall i, j :: 0 <= i < j < |r| ==> AppearsBefore(locs, r[i].key, r[j].key)
  }

  lemma AppearsBeforeExtend(init: seq<string>, last: string, a: string, b: string)
    requires AppearsBefore(init, a, b)
    ensures AppearsBefore(init + [last], a, b)
  {
    var p :| 0 <= p < |init| && Lower(init[p]) == a && forall q :: 0 <= q <= p ==> Lower(init[q]) != b;
    var locs := init + [last];
    assert forall q :: 0 <= q <= p ==> locs[q] == init[q];
  }

  /** A spelling new to the map goes after every key already in it. */
  lemma NewKeyAppearsLast(init: seq<string>, last: string, keys: seq<string>, e: Entry)
    requires forall l :: l in init ==> Lower(l) in keys
    requires Lower(last) !in keys
    requires e.location in init && e.key == Lower(e.location)
    ensures AppearsBefore(init + [last], e.key, Lower(last))
  {
    var locs := init + [last];
    var p :| 0 <= p < |init| && init[p] == e.location;
    forall q | 0 <= q <= p
      ensures Lower(locs[q]) != Lower(last)
    {
      assert locs[q] == init[q];
      assert init[q] in init;
    }
    assert Lower(locs[p]) == e.key;
  }

  lemma KoregaonParkLower()
    ensures Lower("Koregaon Park, Pune") == "koregaon park, pune"
  {
  }

  lemma BanerLower()
    ensures Lower("Baner, Pune") == "baner, pune"
  {
  }

  lemma SameCityMap()
    ensures LocationMap(["Koregaon Park, Pune", "Baner, Pune"])
         == [Entry("koregaon park, pune", "Koregaon Park, Pune"), Entry("baner, pune", "Baner, Pune")]
  {
    KoregaonParkLower();
    BanerLower();
    LocationMapOfTwo("Koregaon Park, Pune", "Baner, Pune");
  }

  /** A key whose part before the first comma starts with a character pair that
      never occurs in `q` misses the city-part stage. */
  lemma CityPartMissByPair(q: string, e: Entry, i: nat)
    requires 2 <= i < |e.key| && e.key[i] == ','
    requires forall j :: 0 <= j < i ==> e.key[j] != ','
    requires !IsSpace(e.key[0]) && !IsSpace(e.key[i - 1])
    requires forall j :: 0 <= j < |q| - 1 ==> !(q[j] == e.key[0] && q[j + 1] == e.key[1])
    ensures !Hits(CityPart, e, q)
  {
    CityPartIs(e.key, i);
    NoPairAt(q, e.key[..i], 0);
  }

  /** A key whose city part, the piece before its first comma, is written at `j`
      in `q` hits the city-part stage. */
  lemma CityPartHit(q: string, key: string, i: nat, j: nat)
    requires 0 < i < |key| && key[i] == ','
    requires forall k :: 0 <= k < i ==> key[k] != ','
    requires !IsSpace(key[0]) && !IsSpace(key[i - 1])
    requires j + i <= |q| && forall k :: 0 <= k < i ==> q[j + k] == key[k]
    ensures Contains(q, CityPartOf(key))
  {
    CityPartIs(key, i);
    MatchAtByChars(q, key[..i], j);
  }

  /** The city part of a key whose first comma is at `i` and whose piece before it
      has no surrounding whitespace. */
  lemma CityPartIs(key: string, i: nat)
    requires 0 < i < |key| && key[i] == ','
    requires forall j :: 0 <= j < i ==> key[j] != ','
    requires !IsSpace(key[0]) && !IsSpace(key[i - 1])
    ensures CityPartOf(key) == key[..i]
  {
    BeforeFirstAt(key, ',', i);
    StripUnchanged(key[..i]);
  }

  lemma MissesBoth(stage: Stage, m: seq<Entry>, s: string)
    requires |m| == 2 && !Hits(stage, m[0], s) && !Hits(stage, m[1], s)
    ensures FirstHit(stage, m, s).None?
  {
  }

  /** With both locations in the same city, "apartments in pune" matches neither
      whole location nor either area name, and the alias "pune" picks the first
      location in map order. */
  lemma SameCityPicksFirstLocation()
    ensures ExtractLocation("apartments in pune", ["Koregaon Park, Pune", "Baner, Pune"])
         == Some("Koregaon Park, Pune")
  {
    SameCityMap();
    SameCityQueryLower();
    SameCityStages();
  }

  lemma SameCityQueryLower()
    ensures Lower("apartments in pune") == "apartments in pune"
  {
  }

  /** Neither whole location occurs in "apartments in pune". */
  lemma SameCityNoDirect()
    ensures FirstHit(Direct, [Entry("koregaon park, pune", "Koregaon Park, Pune"), Entry("baner, pune", "Baner, Pune")],
                     "apartments in pune").None?
  {
    NoPairAt("apartments in pune", "koregaon park, pune", 0);
    NoPairAt("apartments in pune", "baner, pune", 0);
    MissesBoth(Direct, [Entry("koregaon park, pune", "Koregaon Park, Pune"), Entry("baner, pune", "Baner, Pune")],
               "apartments in pune");
  }

  lemma KoregaonMissesCityPart()
    ensures !Hits(CityPart, Entry("koregaon park, pune", "Koregaon Park, Pune"), "apartments in pune")
  {
    CityPartMissByPair("apartments in pune", Entry("koregaon park, pune", "Koregaon Park, Pune"), 13);
  }

  lemma BanerMissesCityPart()
    ensures !Hits(CityPart, Entry("baner, pune", "Baner, Pune"), "apartments in pune")
  {
    CityPartMissByPair("apartments in pune", Entry("baner, pune", "Baner, Pune"), 5);
  }

  /** Neither area name ("koregaon park", "baner") occurs in "apartments in pune". */
  lemma SameCityNoCityPart()
    ensures FirstHit(CityPart, [Entry("koregaon park, pune", "Koregaon Park, Pune"), Entry("baner, pune", "Baner, Pune")],
                     "apartments in pune").None?
  {
    KoregaonMissesCityPart();
    BanerMissesCityPart();
    MissesBoth(CityPart, [Entry("koregaon park, pune", "Koregaon Park, Pune"), Entry("baner, pune", "Baner, Pune")],
               "apartments in pune");
  }

  /** The first alias tried, "pune", occurs in the query and in the first key. */
  lemma SameCityAlias()
    ensures AliasScan(AliasOrder(), [Entry("koregaon park, pune", "Koregaon Park, Pune"), Entry("baner, pune", "Baner, Pune")],
                      "apartments in pune") == Some(0)
  {
    assert MatchAt("apartments in pune", "pune", 14);
    assert MatchAt("koregaon park, pune", "pune", 15);
    assert AliasOrder()[0] == "pune";
  }

  lemma SameCityStages()
    ensures StageScan([Entry("koregaon park, pune", "Koregaon Park, Pune"), Entry("baner, pune", "Baner, Pune")],
                      "apartments in pune") == Some(0)
  {
    SameCityNoDirect();
    SameCityNoCityPart();
    SameCityAlias();
  }
}

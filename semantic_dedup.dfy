/**
 * The deduplicating loop of `chromadb_semantic_search` in app/data_loader.py:
 * the vector store is asked for twice as many hits as wanted, and the hits are
 * scanned in order, keeping the first one for each (bedrooms, location, price,
 * area) key until `top_k` have been kept.  The stop test runs after every hit,
 * so a `top_k` of zero or less still lets the first hit through.
 */
module SemanticDedup {
  import opened Wrappers
  import opened Records

  /** `(meta['bedrooms'], meta['location'], meta['price'], meta['area_sqft'])` */
  datatype DedupKey = DedupKey(bedrooms: Value, location: Value, price: Value, areaSqft: Value)

  function KeyOf(h: Hit): DedupKey {
    DedupKey(h.meta.bedrooms, h.meta.location, h.meta.price, h.meta.areaSqft)
  }

  function Keys(hs: seq<Hit>): set<DedupKey> {
    set h | h in hs :: KeyOf(h)
  }

  /** The first hit of each key, in the order of the hits. */
  function FirstOccurrences(hits: seq<Hit>): (r: seq<Hit>)
    ensures |r| <= |hits|
    decreases |hits|
  {
    if hits == [] then []
    else
      var kept := FirstOccurrences(hits[..|hits| - 1]);
      var h := hits[|hits| - 1];
      if KeyOf(h) in Keys(kept) then kept else kept + [h]
  }

  /** The number of hits the loop keeps at most: `top_k`, but at least one. */
  function Cap(topK: int): (n: nat)
    ensures n >= 1
    ensures topK >= 1 ==> n == topK
  {
    if topK >= 1 then topK else 1
  }

  /** The first `n` elements of `s`, or all of them. */
  function Take<T>(s: seq<T>, n: nat): (r: seq<T>)
    ensures |r| == if n <= |s| then n else |s|
    ensures r <= s
  {
    if n <= |s| then s[..n] else s
  }

  /** The hits that the loop keeps. */
  function Deduplicated(hits: seq<Hit>, topK: int): seq<Hit> {
    Take(FirstOccurrences(hits), Cap(topK))
  }

  /** The loop over the hits with its `unique` set, its `filtered` list and its
      `break` once `top_k` hits are kept. */
  method DedupHits(hits: seq<Hit>, topK: int) returns (kept: seq<Hit>)
    ensures kept == Deduplicated(hits, topK)
    ensures |kept| <= Cap(topK)
    ensures topK <= 0 && hits != [] ==> |kept| == 1
  {
    var unique: set<DedupKey> := {};
    kept := [];
    var i := 0;
    while i < |hits|
      invariant 0 <= i <= |hits|
      invariant kept == FirstOccurrences(hits[..i])
      invariant unique == Keys(kept)
      invariant |kept| < Cap(topK)
    {
      var h := hits[i];
      assert hits[..i + 1][..i] == hits[..i];
      if KeyOf(h) !in unique {
        kept := kept + [h];
        unique := unique + {KeyOf(h)};
      }
      i := i + 1;
      if |kept| >= topK {
        FirstOccurrencesPrefix(hits, i);
        return;
      }
    }
    assert hits[..i] == hits;
  }

  /** The first occurrences in a prefix of the hits are a prefix of the first
      occurrences in all of them. */
  lemma {:induction false} FirstOccurrencesPrefix(hits: seq<Hit>, i: nat)
    requires i <= |hits|
    ensures FirstOccurrences(hits[..i]) <= FirstOccurrences(hits)
    decreases |hits| - i
  {
    if i < |hits| {
      FirstOccurrencesPrefix(hits[..|hits| - 1], i);
      assert hits[..|hits| - 1][..i] == hits[..i];
    } else {
      assert hits[..i] == hits;
    }
  }

  /** The rows the semantic search returns: each kept metadata dict with its score
      attached under `similarity_score`. */
  function RowOf(h: Hit): (r: Record)
    ensures r.similarityScore == Some(h.score)
    ensures r.amenities == Some(Str(h.meta.amenities))
  {
    Record(Some(h.meta.bedrooms), Some(h.meta.location), Some(h.meta.price), Some(h.meta.areaSqft),
           Some(Str(h.meta.amenities)), Some(h.score))
  }

  function RowsOf(hs: seq<Hit>): (rs: seq<Record>)
    ensures |rs| == |hs|
    ensures forall i :: 0 <= i < |hs| ==> rs[i] == RowOf(hs[i])
  {
    seq(|hs|, i requires 0 <= i < |hs| => RowOf(hs[i]))
  }

  /** `chromadb_semantic_search(query, top_k)` with the vector store's
      `similarity_search_with_score(query, k)` given as `index`. */
  function SemanticRows(index: (string, int) -> seq<Hit>, query: string, topK: int): seq<Record> {
    RowsOf(Deduplicated(index(query, topK * 2), topK))
  }

  method SemanticSearch(index: (string, int) -> seq<Hit>, query: string, topK: int) returns (rows: seq<Record>)
    ensures rows == SemanticRows(index, query, topK)
  {
    var hits := index(query, topK * 2);
    var kept := DedupHits(hits, topK);
    rows := RowsOf(kept);
  }
}

module SemanticDedupProperties {
  import opened Wrappers
  import opened Records
  import opened SemanticDedup

  predicate UniqueKeys(r: seq<Hit>) {
    forall i, j :: 0 <= i < j < |r| ==> KeyOf(r[i]) != KeyOf(r[j])
  }

  /** No two kept hits share a key. */
  lemma {:induction false} FirstOccurrencesDistinct(hits: seq<Hit>)
    ensures UniqueKeys(FirstOccurrences(hits))
  {
    if hits != [] {
      var kept := FirstOccurrences(hits[..|hits| - 1]);
      FirstOccurrencesDistinct(hits[..|hits| - 1]);
      var h := hits[|hits| - 1];
      if KeyOf(h) !in Keys(kept) {
        var r := kept + [h];
        assert FirstOccurrences(hits) == r;
        forall i, j | 0 <= i < j < |r|
          ensures KeyOf(r[i]) != KeyOf(r[j])
        {
          if j == |kept| {
            assert r[i] == kept[i] && kept[i] in kept && r[j] == h;
            assert KeyOf(kept[i]) in Keys(kept);
          } else {
            assert r[i] == kept[i] && r[j] == kept[j];
          }
        }
      }
    }
  }

  /** Every key among the hits is represented among the first occurrences, and
      no other. */
  lemma {:induction false} FirstOccurrencesKeys(hits: seq<Hit>)
    ensures Keys(FirstOccurrences(hits)) == Keys(hits)
  {
    if hits != [] {
      var init := hits[..|hits| - 1];
      FirstOccurrencesKeys(init);
      assert hits == init + [hits[|hits| - 1]];
      assert Keys(hits) == Keys(init) + {KeyOf(hits[|hits| - 1])};
      var kept := FirstOccurrences(init);
      assert Keys(kept + [hits[|hits| - 1]]) == Keys(kept) + {KeyOf(hits[|hits| - 1])};
    }
  }

  /** Each kept hit is the first hit with its key, and the kept hits appear in the
      order of the hits: `idx` gives their increasing positions. */
  lemma {:induction false} FirstOccurrencesOrigin(hits: seq<Hit>) returns (idx: seq<nat>)
    ensures var r := FirstOccurrences(hits);
      && |idx| == |r|
      && (forall k :: 0 <= k < |idx| ==> idx[k] < |hits| && r[k] == hits[idx[k]])
      && (forall k, l :: 0 <= k < l < |idx| ==> idx[k] < idx[l])
      && (forall k, j :: 0 <= k < |idx| && 0 <= j < idx[k] ==> KeyOf(hits[j]) != KeyOf(hits[idx[k]]))
  {
    if hits == [] {
      idx := [];
    } else {
      var init := hits[..|hits| - 1];
      var h := hits[|hits| - 1];
      var kept := FirstOccurrences(init);
      idx := FirstOccurrencesOrigin(init);
      if KeyOf(h) !in Keys(kept) {
        FirstOccurrencesKeys(init);
        forall j | 0 <= j < |init|
          ensures KeyOf(hits[j]) != KeyOf(h)
        {
          assert init[j] in init;
        }
        idx := idx + [|hits| - 1];
      }
    }
  }

  /** The deduplicated hits are the kept first occurrences, at most `top_k` of
      them when `top_k` is positive. */
  lemma DeduplicatedBound(hits: seq<Hit>, topK: int)
    requires topK >= 1
    ensures |Deduplicated(hits, topK)| <= topK
    ensures Deduplicated(hits, topK) <= FirstOccurrences(hits)
  {
  }

  /** No two rows of a semantic search share a key. */
  lemma DeduplicatedUnique(hits: seq<Hit>, topK: int)
    ensures UniqueKeys(Deduplicated(hits, topK))
  {
    FirstOccurrencesDistinct(hits);
  }
}

/**
 * The Chroma-backed `VectorStore` and `HybridRetriever` of src/storage/vector_store_simple.py.
 * The collection itself is outside the model: a query is a function from the requested
 * number of results and the where-clause to the collection's answer (`None` when the call
 * raises), and `count` is the collection's size.
 */
module VectorStore {
  import opened Common
  import opened Text
  import opened Documents
  import opened Sorting
  import opened Fusion
  import Settings

  // ---------------------------------------------------------------------------------------
  // Relevance: per-query min-max normalisation, then a clamp into a band chosen by distance.

  /** Dividing by a positive number keeps the order. */
  lemma DivMonotone(a1: real, a2: real, c: real)
    requires a1 <= a2 && c > 0.0
    ensures a1 / c <= a2 / c
  {
    var q1, q2 := a1 / c, a2 / c;
    assert q1 * c == a1 && q2 * c == a2;
  }

  /** Relevance before the clamp: 1 for the nearest candidate, 0 for the farthest, 0.5 if all tie. */
  function Normalise(d: real, lo: real, hi: real): (r: real)
    ensures hi > lo && lo <= d <= hi ==> 0.0 <= r <= 1.0
    ensures hi > lo && d == lo ==> r == 1.0
    ensures hi > lo && d == hi ==> r == 0.0
    ensures hi <= lo ==> r == 0.5
  {
    if hi > lo then NormaliseBounds(d, lo, hi); 1.0 - (d - lo) / (hi - lo)
    else 0.5
  }

  lemma NormaliseBounds(d: real, lo: real, hi: real)
    requires hi > lo
    ensures lo <= d <= hi ==> 0.0 <= 1.0 - (d - lo) / (hi - lo) <= 1.0
    ensures d == hi ==> (d - lo) / (hi - lo) == 1.0
  {
    if lo <= d <= hi {
      DivMonotone(0.0, d - lo, hi - lo);
      DivMonotone(d - lo, hi - lo, hi - lo);
    }
  }

  /** Lower end of the band a distance falls in. */
  function TierLow(d: real): real {
    if d > 2.0 then 0.0 else if d > 1.5 then 0.1 else if d < 0.3 then 0.7 else 0.2
  }

  /** Upper end of the band a distance falls in. */
  function TierHigh(d: real): real {
    if d > 2.0 then 0.3 else if d > 1.5 then 0.5 else if d < 0.3 then 1.0 else 0.8
  }

  /** `max(lo, min(hi, x))`. */
  function Clamp(x: real, lo: real, hi: real): real {
    MaxReal(lo, MinReal(hi, x))
  }

  /** The four-band clamp keyed on the absolute distance. */
  function TierClamp(d: real, rel: real): (r: real)
    ensures d > 2.0 ==> 0.0 <= r <= 0.3
    ensures 1.5 < d <= 2.0 ==> 0.1 <= r <= 0.5
    ensures d < 0.3 ==> 0.7 <= r <= 1.0
    ensures 0.3 <= d <= 1.5 ==> 0.2 <= r <= 0.8
    ensures 0.0 <= r <= 1.0
    ensures TierLow(d) <= rel <= TierHigh(d) ==> r == rel
  {
    Clamp(rel, TierLow(d), TierHigh(d))
  }

  /** The relevance score of a candidate at distance `d` among candidates spanning `[lo, hi]`. */
  function Relevance(d: real, lo: real, hi: real): real {
    TierClamp(d, Normalise(d, lo, hi))
  }

  /** Within one query, a nearer candidate never gets a lower relevance than a farther one. */
  lemma RelevanceAntitone(d1: real, d2: real, lo: real, hi: real)
    requires d1 <= d2
    ensures Relevance(d2, lo, hi) <= Relevance(d1, lo, hi)
  {
    if hi > lo {
      DivMonotone(d1 - lo, d2 - lo, hi - lo);
    }
    assert Normalise(d2, lo, hi) <= Normalise(d1, lo, hi);
    assert TierLow(d2) <= TierLow(d1) && TierHigh(d2) <= TierHigh(d1);
  }

  // ---------------------------------------------------------------------------------------
  // Query results and their conversion into documents.

  /**
   * The first row of a Chroma query answer. A missing or empty `metadatas`/`ids` list is the
   * empty sequence; `distances` is `None` when the answer has no distance list at all.
   */
  datatype QueryResult = QueryResult(documents: seq<String>, metadatas: seq<Metadata>,
                                     ids: seq<String>, distances: Option<seq<real>>)

  /** `all_distances`: the distance row, or one 0.0 per document when there is none. */
  function AllDistances(q: QueryResult): seq<real> {
    if q.distances.Some? then q.distances.value else seq(|q.documents|, _ => 0.0)
  }

  function MinOf(s: seq<real>): (r: real)
    requires s != []
    ensures r in s && forall i :: 0 <= i < |s| ==> r <= s[i]
  {
    if |s| == 1 then s[0] else MinReal(s[0], MinOf(s[1..]))
  }

  function MaxOf(s: seq<real>): (r: real)
    requires s != []
    ensures r in s && forall i :: 0 <= i < |s| ==> s[i] <= r
  {
    if |s| == 1 then s[0] else MaxReal(s[0], MaxOf(s[1..]))
  }

  /** `min_distance`, 0.0 without distances. */
  function Lo(q: QueryResult): real {
    var all := AllDistances(q); if all == [] then 0.0 else MinOf(all)
  }

  /** `max_distance`, 1.0 without distances. */
  function Hi(q: QueryResult): real {
    var all := AllDistances(q); if all == [] then 1.0 else MaxOf(all)
  }

  /** Number of rows `zip(documents, metadatas, ids)` produces. */
  function HitCount(q: QueryResult): nat {
    Min(Min(|q.documents|, |q.metadatas|), |q.ids|)
  }

  /** The distance of row `i`, 0.0 past the end of the distance row. */
  function DistanceAt(q: QueryResult, i: nat): real {
    var all := AllDistances(q); if i < |all| then all[i] else 0.0
  }

  /** Row `i` as a document: its metadata extended with search score, relevance and id. */
  function Hit(q: QueryResult, i: nat): Document
    requires i < HitCount(q)
  {
    var d := DistanceAt(q, i);
    Document(q.documents[i], q.metadatas[i]["search_score" := Num(d)]
                                          ["relevance_score" := Num(Relevance(d, Lo(q), Hi(q)))]
                                          ["doc_id" := Str(q.ids[i])])
  }

  /** All rows of an answer as documents, in the collection's order. */
  function Hits(q: QueryResult): (r: seq<Document>)
    ensures |r| == HitCount(q)
    ensures forall i :: 0 <= i < |r| ==> r[i] == Hit(q, i)
  {
    seq(HitCount(q), i requires 0 <= i < HitCount(q) => Hit(q, i))
  }

  /** A document's relevance score is a number in [0, 1]. */
  predicate RelevanceInRange(d: Document) {
    "relevance_score" in d.metadata && d.metadata["relevance_score"].Num?
    && 0.0 <= d.metadata["relevance_score"].r <= 1.0
  }

  /**
   * What each converted row carries: its text, its id, its distance as search score, and a
   * relevance in [0, 1]; among the rows of one answer, relevance never increases with distance,
   * and before the clamp every row with a listed distance has its normalised score in [0, 1].
   */
  lemma HitsProperties(q: QueryResult)
    ensures forall i :: 0 <= i < HitCount(q) ==>
              Hits(q)[i].content == q.documents[i]
              && Hits(q)[i].metadata["doc_id"] == Str(q.ids[i])
              && Hits(q)[i].metadata["search_score"] == Num(DistanceAt(q, i))
              && RelevanceInRange(Hits(q)[i])
    ensures forall i :: 0 <= i < HitCount(q) && i < |AllDistances(q)| ==>
              0.0 <= Normalise(DistanceAt(q, i), Lo(q), Hi(q)) <= 1.0
    ensures forall i, j :: 0 <= i < HitCount(q) && 0 <= j < HitCount(q) && DistanceAt(q, i) <= DistanceAt(q, j) ==>
              Hits(q)[j].metadata["relevance_score"].r <= Hits(q)[i].metadata["relevance_score"].r
  {
    forall i, j | 0 <= i < HitCount(q) && 0 <= j < HitCount(q) && DistanceAt(q, i) <= DistanceAt(q, j)
      ensures Hits(q)[j].metadata["relevance_score"].r <= Hits(q)[i].metadata["relevance_score"].r
    {
      RelevanceAntitone(DistanceAt(q, i), DistanceAt(q, j), Lo(q), Hi(q));
    }
  }

  /** The conversion loop of `search` over one query answer. */
  method ConvertHits(q: QueryResult) returns (docs: seq<Document>)
    ensures docs == Hits(q)
  {
    var all := AllDistances(q);
    var lo := if all == [] then 0.0 else MinOf(all);
    var hi := if all == [] then 1.0 else MaxOf(all);
    docs := [];
    var i := 0;
    while i < HitCount(q)
      invariant 0 <= i <= HitCount(q) && |docs| == i
      invariant forall j :: 0 <= j < i ==> docs[j] == Hit(q, j)
    {
      var distance := if i < |all| then all[i] else 0.0;
      var relevance := TierClamp(distance, Normalise(distance, lo, hi));
      docs := docs + [Document(q.documents[i], q.metadatas[i]["search_score" := Num(distance)]
                                                             ["relevance_score" := Num(relevance)]
                                                             ["doc_id" := Str(q.ids[i])])];
      i := i + 1;
    }
  }

  // ---------------------------------------------------------------------------------------
  // Where-clauses.

  datatype Condition = Eq(value: Value)

  type WhereClause = map<String, Condition>

  /** The where-clause of a metadata filter: the same keys, each mapped to `{"$eq": value}`. */
  function WhereOf(filter: map<String, Value>): (w: WhereClause)
    ensures w.Keys == filter.Keys
    ensures forall key :: key in w ==> w[key] == Eq(filter[key])
  {
    map key | key in filter :: Eq(filter[key])
  }

  /** The loop filling `where_clause` from `filter_dict`. */
  method BuildWhere(filter: map<String, Value>) returns (w: WhereClause)
    ensures w == WhereOf(filter)
  {
    w := map[];
    var keys := filter.Keys;
    while keys != {}
      invariant keys <= filter.Keys
      invariant w.Keys == filter.Keys - keys
      invariant forall key :: key in w ==> w[key] == Eq(filter[key])
      decreases keys
    {
      var key :| key in keys;
      w := w[key := Eq(filter[key])];
      keys := keys - {key};
    }
  }

  /** The where-clause `search` sends: none for a missing or empty filter. */
  function SearchWhere(filter: Option<map<String, Value>>): (w: Option<WhereClause>)
    ensures w.None? <==> filter.None? || filter.value == map[]
    ensures w.Some? ==> w.value.Keys == filter.value.Keys
  {
    if filter.None? || filter.value == map[] then None else Some(WhereOf(filter.value))
  }

  /**
   * `delete_documents`: the where-clause is always built, even from an empty filter, and handed
   * to the collection; `delete` says whether the collection's delete call returns normally, and
   * the method reports that as its result.
   */
  method DeleteDocuments(filter: map<String, Value>, delete: WhereClause -> bool) returns (w: WhereClause, ok: bool)
    ensures w.Keys == filter.Keys
    ensures forall key :: key in w ==> w[key] == Eq(filter[key])
    ensures filter == map[] ==> w == map[]
    ensures ok == delete(WhereOf(filter))
  {
    w := BuildWhere(filter);
    ok := delete(w);
  }

  // ---------------------------------------------------------------------------------------
  // Search.

  /** The collection's answer to a query for `n` results under a where-clause; `None` if it raises. */
  type Collection = (nat, Option<WhereClause>) -> Option<QueryResult>

  /** `n_results` of the first query. */
  function FirstPassSize(k: nat): nat { Min(k, Settings.TOP_K * 2) }

  /** `n_results` of the broadening query. */
  function BroadenSize(count: nat, k: nat): nat { Min(count, k * 3) }

  /** "The text of `d` is not among the texts of `first`." */
  function NewText(first: seq<Document>): Document -> bool {
    (d: Document) => d.content !in Contents(first)
  }

  lemma FilterSnoc<T>(s: seq<T>, x: T, p: T -> bool)
    ensures Filter(s + [x], p) == Filter(s, p) + (if p(x) then [x] else [])
  {
    FilterAppend(s, [x], p);
    assert Filter([x], p) == (if p(x) then [x] else []) + Filter([x][1..], p);
  }

  /** The documents of `more` whose text differs from every first-pass document's text. */
  function Fresh(first: seq<Document>, more: seq<Document>): (r: seq<Document>)
    ensures forall i :: 0 <= i < |r| ==> r[i] in more && r[i].content !in Contents(first)
  {
    Filter(more, NewText(first))
  }

  /** The value `search` returns. */
  function SearchResult(query: Collection, count: nat, k: nat, filter: Option<map<String, Value>>): seq<Document> {
    var w := SearchWhere(filter);
    match query(FirstPassSize(k), w)
    case None => []
    case Some(q1) =>
      var first := Hits(q1);
      if |first| < k && count > 0 then
        match query(BroadenSize(count, k), w)
        case None => []
        case Some(q2) => Take(first + Fresh(first, Hits(q2)), k)
      else Take(first, k)
  }

  /**
   * The broadening loop: a second-pass row is kept when its text is not the text of a
   * first-pass document.
   */
  method Broaden(first: seq<Document>, q: QueryResult) returns (extra: seq<Document>)
    ensures extra == Fresh(first, Hits(q))
  {
    var hits := Hits(q);
    var texts := Contents(first);
    extra := [];
    var i := 0;
    while i < |hits|
      invariant 0 <= i <= |hits|
      invariant extra == Filter(hits[..i], NewText(first))
    {
      BroadenStep(first, hits, i);
      if hits[i].content !in texts {
        extra := extra + [hits[i]];
      }
      i := i + 1;
    }
    assert hits[..i] == hits;
  }

  /** One step of the broadening loop: row `i` is kept exactly when its text is new. */
  lemma BroadenStep(first: seq<Document>, hits: seq<Document>, i: nat)
    requires i < |hits|
    ensures Filter(hits[..i + 1], NewText(first))
            == Filter(hits[..i], NewText(first)) + (if hits[i].content !in Contents(first) then [hits[i]] else [])
  {
    FilterSnoc(hits[..i], hits[i], NewText(first));
    assert hits[..i + 1] == hits[..i] + [hits[i]];
  }

  /**
   * `VectorStore.search`: at most `k` documents; the first-pass documents come first and in the
   * collection's order; every later document comes from the broadening pass and repeats no
   * first-pass text; every relevance score is a number in [0, 1]. If either query raises, the
   * result is empty.
   */
  method Search(query: Collection, count: nat, k: nat, filter: Option<map<String, Value>>)
    returns (r: seq<Document>)
    ensures r == SearchResult(query, count, k, filter)
    ensures |r| <= k
    ensures forall i :: 0 <= i < |r| ==> RelevanceInRange(r[i]) && Scorable(r[i])
    ensures query(FirstPassSize(k), SearchWhere(filter)).None? ==> r == []
    ensures query(FirstPassSize(k), SearchWhere(filter)).Some? ==>
              var first := Hits(query(FirstPassSize(k), SearchWhere(filter)).value);
              && (forall i :: 0 <= i < |r| && i < |first| ==> r[i] == first[i])
              && (forall i :: |first| <= i < |r| ==> r[i].content !in Contents(first))
  {
    var w := SearchWhere(filter);
    var documents: seq<Document> := [];
    var q1 := query(FirstPassSize(k), w);
    if q1.None? {
      return [];
    }
    documents := ConvertHits(q1.value);
    HitsProperties(q1.value);
    var first := documents;
    if |documents| < k && count > 0 {
      var q2 := query(BroadenSize(count, k), w);
      if q2.None? {
        return [];
      }
      var extra := Broaden(documents, q2.value);
      documents := documents + extra;
    }
    r := Take(documents, k);
    SearchResultShape(query, count, k, filter);
  }

  /** The first `k` of `first + extra`: a prefix of `first`, then documents of `extra`. */
  lemma TakeAppend(first: seq<Document>, extra: seq<Document>, k: nat)
    ensures var r := Take(first + extra, k);
            && (forall i :: 0 <= i < |r| && i < |first| ==> r[i] == first[i])
            && (forall i :: |first| <= i < |r| ==> r[i] == extra[i - |first|])
  {
  }

  /** What `SearchResult` promises, case by case. */
  lemma SearchResultShape(query: Collection, count: nat, k: nat, filter: Option<map<String, Value>>)
    ensures var r := SearchResult(query, count, k, filter);
            && |r| <= k
            && (forall i :: 0 <= i < |r| ==> RelevanceInRange(r[i]) && Scorable(r[i]))
            && (query(FirstPassSize(k), SearchWhere(filter)).None? ==> r == [])
            && (query(FirstPassSize(k), SearchWhere(filter)).Some? ==>
                 var first := Hits(query(FirstPassSize(k), SearchWhere(filter)).value);
                 && (forall i :: 0 <= i < |r| && i < |first| ==> r[i] == first[i])
                 && (forall i :: |first| <= i < |r| ==> r[i].content !in Contents(first)))
  {
    var w := SearchWhere(filter);
    var r := SearchResult(query, count, k, filter);
    if query(FirstPassSize(k), w).Some? {
      var q1 := query(FirstPassSize(k), w).value;
      var first := Hits(q1);
      HitsProperties(q1);
      if |first| < k && count > 0 && query(BroadenSize(count, k), w).Some? {
        var q2 := query(BroadenSize(count, k), w).value;
        var extra := Fresh(first, Hits(q2));
        HitsProperties(q2);
        assert r == Take(first + extra, k);
        TakeAppend(first, extra, k);
        forall i | 0 <= i < |r| ensures RelevanceInRange(r[i]) && Scorable(r[i]) {
          if i >= |first| {
            assert r[i] in Hits(q2);
          }
        }
      }
    }
  }

  // ---------------------------------------------------------------------------------------
  // Adding documents.

  /** `f"doc_{hash(content)}_{i}"`. */
  function DocId(h: int, i: nat): String {
    "doc_" + IntToString(h) + "_" + NatToString(i)
  }

  /** Position of the last `c` in `s`, -1 if there is none. */
  function LastIndex(s: String, c: char): int {
    if s == [] then -1 else if s[|s| - 1] == c then |s| - 1 else LastIndex(s[..|s| - 1], c)
  }

  lemma {:induction false} LastUnderscore(x: String, d: String)
    requires '_' !in d
    ensures LastIndex(x + "_" + d, '_') == |x|
    decreases |d|
  {
    if d == [] {
      assert x + "_" + d == x + "_";
    } else {
      var t := d[..|d| - 1];
      assert (x + "_" + d)[..|x + "_" + d| - 1] == x + "_" + t;
      LastUnderscore(x, t);
    }
  }

  /** Two strings ending in `_` followed by an underscore-free tail have the same tail when equal. */
  lemma SameTail(a: String, d: String, b: String, e: String)
    requires '_' !in d && '_' !in e
    requires a + "_" + d == b + "_" + e
    ensures d == e
  {
    LastUnderscore(a, d);
    LastUnderscore(b, e);
    var s := a + "_" + d;
    assert d == s[|a| + 1..] == e;
  }

  /** The ids of one batch are pairwise different, whatever the content hashes. */
  lemma DocIdsDistinct(h1: int, h2: int, i: nat, j: nat)
    requires i != j
    ensures DocId(h1, i) != DocId(h2, j)
  {
    if DocId(h1, i) == DocId(h2, j) {
      assert "doc_" + IntToString(h1) + "_" + NatToString(i) == ("doc_" + IntToString(h1)) + "_" + NatToString(i);
      assert "doc_" + IntToString(h2) + "_" + NatToString(j) == ("doc_" + IntToString(h2)) + "_" + NatToString(j);
      SameTail("doc_" + IntToString(h1), NatToString(i), "doc_" + IntToString(h2), NatToString(j));
      NatToStringInjective(i, j);
    }
  }

  /** What one `collection.add` call writes. */
  datatype Batch = Batch(texts: seq<String>, metadatas: seq<Metadata>, ids: seq<String>)

  /**
   * `add_documents`: `None` (the `False` return) for an empty list or when the store raises
   * (`accepted` false); otherwise the batch written, one id per document, all ids distinct.
   */
  function AddDocuments(docs: seq<Document>, hash: String -> int, accepted: bool): (r: Option<Batch>)
    ensures docs == [] ==> r == None
    ensures r.Some? <==> docs != [] && accepted
    ensures r.Some? ==> |r.value.texts| == |r.value.metadatas| == |r.value.ids| == |docs|
    ensures r.Some? ==> forall i :: 0 <= i < |docs| ==>
              r.value.texts[i] == docs[i].content && r.value.metadatas[i] == docs[i].metadata
              && r.value.ids[i] == DocId(hash(docs[i].content), i)
    ensures r.Some? ==> Distinct(r.value.ids)
  {
    if docs == [] || !accepted then None
    else
      var b := Batch(Contents(docs), seq(|docs|, i requires 0 <= i < |docs| => docs[i].metadata),
                     seq(|docs|, i requires 0 <= i < |docs| => DocId(hash(docs[i].content), i)));
      assert Distinct(b.ids) by {
        forall i, j | 0 <= i < j < |b.ids| ensures b.ids[i] != b.ids[j] {
          DocIdsDistinct(hash(docs[i].content), hash(docs[j].content), i, j);
        }
      }
      Some(b)
  }

  // ---------------------------------------------------------------------------------------
  // Hybrid retrieval.

  /**
   * `HybridRetriever.hybrid_search`: searches for `2k` candidates, fuses them with the (always
   * empty) keyword hits and keeps `k`. Search results always carry a numeric relevance, so the
   * fallback to a plain search is never taken: the result is at most `k` re-weighted vector hits
   * in non-increasing combined score, one per content hash.
   */
  method HybridSearch(query: Collection, text: String, count: nat, k: nat,
                      vectorWeight: real, keywordWeight: real,
                      filter: Option<map<String, Value>>, hash: String -> int)
    returns (r: seq<Document>)
    ensures var hits := SearchResult(query, count, k * 2, filter);
            && (forall i :: 0 <= i < |hits| ==> Scorable(hits[i]))
            && r == Take(Dedup(SortDesc(Weighted(hits, [], vectorWeight, keywordWeight), CombinedScore), hash), k)
    ensures |r| <= k
    ensures NonIncreasing(r, CombinedScore) && DistinctHashes(r, hash)
    ensures forall i :: 0 <= i < |r| ==> "keyword_score" in r[i].metadata && r[i].metadata["keyword_score"] == Num(0.0)
  {
    var vectorResults := Search(query, count, k * 2, filter);
    var keywordResults := KeywordSearch(text, k * 2);
    var fused := FusionResults(vectorResults, keywordResults, vectorWeight, keywordWeight, hash);
    if fused.Err? {
      r := Search(query, count, k, filter);
      assert false;
    }
    r := Take(fused.value, k);
    TakeKeepsFusion(vectorResults, fused.value, vectorWeight, keywordWeight, k, hash);
  }

  /** The first `k` fused vector hits keep the fusion's order, hashes and keyword score. */
  lemma TakeKeepsFusion(hits: seq<Document>, fused: seq<Document>, vectorWeight: real, keywordWeight: real,
                        k: nat, hash: String -> int)
    requires forall i :: 0 <= i < |hits| ==> Scorable(hits[i])
    requires fused == Dedup(SortDesc(Weighted(hits, [], vectorWeight, keywordWeight), CombinedScore), hash)
    requires NonIncreasing(fused, CombinedScore) && DistinctHashes(fused, hash)
    ensures var r := Take(fused, k);
            NonIncreasing(r, CombinedScore) && DistinctHashes(r, hash)
            && forall i :: 0 <= i < |r| ==> "keyword_score" in r[i].metadata && r[i].metadata["keyword_score"] == Num(0.0)
  {
    assert Weighted(hits, [], vectorWeight, keywordWeight) == Weighted(hits, [], vectorWeight, 0.0);
    FusionOfVectorHitsOnly(hits, vectorWeight, hash);
    var r := Take(fused, k);
    forall i | 0 <= i < |r| ensures "keyword_score" in r[i].metadata && r[i].metadata["keyword_score"] == Num(0.0) {
      assert r[i] == fused[i];
      var j :| 0 <= j < |hits| && fused[i] == VectorHit(hits[j], vectorWeight);
    }
  }
}

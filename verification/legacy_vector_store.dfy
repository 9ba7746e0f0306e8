/**
 * The older LangChain-Chroma `VectorStore.search` and `HybridRetriever.hybrid_search` of
 * src/storage/vector_store.py. Its relevance is the unclamped `1 - distance`, a short answer is
 * topped up by `similarity_search`, and the filter is passed through as the where-clause.
 * Adding documents uses the same id scheme as `VectorStore.AddDocuments`, and fusion is
 * `Fusion.FusionResults`.
 */
module LegacyVectorStore {
  import opened Common
  import opened Text
  import opened Documents
  import opened Sorting
  import opened Fusion
  import opened VectorStore
  import Settings

  /** The collection's answer to `query(n_results, where)`; `None` if it raises. */
  type LegacyCollection = (nat, Option<map<String, Value>>) -> Option<QueryResult>

  /** `similarity_search(query, k=n, filter=...)`; `None` if it raises. */
  type SimilaritySearch = nat -> Option<seq<Document>>

  /** The filter passed as `where` only when it is non-empty. */
  function LegacyWhere(filter: Option<map<String, Value>>): Option<map<String, Value>> {
    if filter.None? || filter.value == map[] then None else filter
  }

  /** Reading `distances[0][i]` fails for a row past the end of a present distance row. */
  predicate DistancesCover(q: QueryResult) {
    q.distances.None? || HitCount(q) <= |q.distances.value|
  }

  /** Row `i` as a document, relevance `1 - distance` without any clamp. */
  function LegacyHit(q: QueryResult, i: nat): (r: Document)
    requires i < HitCount(q) && (q.distances.None? || i < |q.distances.value|)
    ensures r.content == q.documents[i]
    ensures "relevance_score" in r.metadata && r.metadata["relevance_score"] == Num(1.0 - DistanceAt(q, i))
  {
    var d := if q.distances.Some? then q.distances.value[i] else 0.0;
    Document(q.documents[i], q.metadatas[i]["search_score" := Num(d)]["relevance_score" := Num(1.0 - d)])
  }

  /** The conversion of a query answer, `None` for the `IndexError` case. */
  function LegacyHits(q: QueryResult): (r: Option<seq<Document>>)
    ensures r.Some? <==> DistancesCover(q)
    ensures r.Some? ==> |r.value| == HitCount(q) && forall i :: 0 <= i < HitCount(q) ==> r.value[i] == LegacyHit(q, i)
  {
    if DistancesCover(q) then Some(seq(HitCount(q), i requires 0 <= i < HitCount(q) => LegacyHit(q, i))) else None
  }

  /** The relevance of a distance above 1 is negative: the score is not confined to [0, 1]. */
  lemma LegacyRelevanceCanBeNegative()
    ensures var q := QueryResult(["a"], [map[]], ["x"], Some([1.5]));
            LegacyHits(q).Some? && LegacyHits(q).value[0].metadata["relevance_score"] == Num(-0.5)
  {
    var q := QueryResult(["a"], [map[]], ["x"], Some([1.5]));
    assert HitCount(q) == 1;
    assert DistanceAt(q, 0) == 1.5;
  }

  /** The value the legacy `search` returns. */
  function LegacySearchResult(query: LegacyCollection, similar: SimilaritySearch, k: nat,
                              filter: Option<map<String, Value>>): (r: seq<Document>)
    ensures |r| <= k
  {
    match query(FirstPassSize(k), LegacyWhere(filter))
    case None => []
    case Some(q) =>
      match LegacyHits(q)
      case None => []
      case Some(docs) =>
        if |docs| < k then
          match similar(k - |docs|)
          case None => []
          case Some(more) => Take(docs + more, k)
        else Take(docs, k)
  }

  /**
   * `VectorStore.search` (legacy): the converted rows, topped up by a similarity search when
   * there are fewer than `k`, cut to `k`; empty when any call raises or a distance is missing.
   */
  method LegacySearch(query: LegacyCollection, similar: SimilaritySearch, k: nat,
                      filter: Option<map<String, Value>>) returns (r: seq<Document>)
    ensures r == LegacySearchResult(query, similar, k, filter)
    ensures |r| <= k
    ensures forall i :: 0 <= i < |r| && query(FirstPassSize(k), LegacyWhere(filter)).Some?
                        && i < HitCount(query(FirstPassSize(k), LegacyWhere(filter)).value) ==>
              "relevance_score" in r[i].metadata && r[i].metadata["relevance_score"] == Num(1.0 - DistanceAt(query(FirstPassSize(k), LegacyWhere(filter)).value, i))
  {
    var answer := query(FirstPassSize(k), LegacyWhere(filter));
    if answer.None? {
      return [];
    }
    var q := answer.value;
    var documents: seq<Document> := [];
    var i := 0;
    while i < HitCount(q)
      invariant 0 <= i <= HitCount(q) && |documents| == i
      invariant DistancesCover(q) || i <= |q.distances.value|
      invariant forall j :: 0 <= j < i ==> documents[j] == LegacyHit(q, j)
    {
      if q.distances.Some? && i >= |q.distances.value| {
        return [];  // IndexError
      }
      var d := if q.distances.Some? then q.distances.value[i] else 0.0;
      documents := documents + [Document(q.documents[i], q.metadatas[i]["search_score" := Num(d)]
                                                                       ["relevance_score" := Num(1.0 - d)])];
      i := i + 1;
    }
    assert documents == LegacyHits(q).value;
    if |documents| < k {
      var more := similar(k - |documents|);
      if more.None? {
        return [];
      }
      documents := documents + more.value;
    }
    r := Take(documents, k);
  }

  /**
   * `HybridRetriever.hybrid_search` over the legacy store: at most `k` fused results. Rows topped
   * up by the similarity search may carry a non-numeric relevance score; fusion then raises and
   * the result is a plain search for `k`.
   */
  method LegacyHybridSearch(query: LegacyCollection, similar: SimilaritySearch, text: String, k: nat,
                            vectorWeight: real, keywordWeight: real,
                            filter: Option<map<String, Value>>, hash: String -> int)
    returns (r: seq<Document>)
    ensures var hits := LegacySearchResult(query, similar, k * 2, filter);
            if forall i :: 0 <= i < |hits| ==> Scorable(hits[i])
            then r == Take(Dedup(SortDesc(Weighted(hits, [], vectorWeight, keywordWeight), CombinedScore), hash), k)
                 && NonIncreasing(r, CombinedScore) && DistinctHashes(r, hash)
            else r == LegacySearchResult(query, similar, k, filter)
    ensures |r| <= k
  {
    var vectorResults := LegacySearch(query, similar, k * 2, filter);
    var keywordResults := KeywordSearch(text, k * 2);
    var fused := FusionResults(vectorResults, keywordResults, vectorWeight, keywordWeight, hash);
    if fused.Err? {
      r := LegacySearch(query, similar, k, filter);
    } else {
      r := Take(fused.value, k);
      TakePrefixSorted(fused.value, k, hash);
    }
  }

  /** A prefix of a sorted list with distinct hashes is still sorted with distinct hashes. */
  lemma TakePrefixSorted(s: seq<Document>, k: nat, hash: String -> int)
    requires NonIncreasing(s, CombinedScore) && DistinctHashes(s, hash)
    ensures NonIncreasing(Take(s, k), CombinedScore) && DistinctHashes(Take(s, k), hash)
  {
  }
}

/**
 * `HybridRetriever._fusion_results` and `_keyword_search`, which are written identically in
 * src/storage/vector_store_simple.py and src/storage/vector_store.py: every hit is given a
 * vector, keyword and combined score, the hits are sorted by combined score (stable,
 * descending), and only the first hit of each content hash is kept.
 */
module Fusion {
  import opened Common
  import opened Text
  import opened Documents
  import opened Sorting

  /** `metadata.get('combined_score', 0)`, the sort key. */
  function CombinedScore(d: Document): real {
    if "combined_score" in d.metadata && d.metadata["combined_score"].Num?
    then d.metadata["combined_score"].r else 0.0
  }

  /** `metadata.get('relevance_score', 0.5)`, the stored vector score. */
  function VectorScore(d: Document): Value {
    if "relevance_score" in d.metadata then d.metadata["relevance_score"] else Num(0.5)
  }

  /** A vector hit can be weighted: its vector score is a number (a string raises `TypeError`). */
  predicate Scorable(d: Document) { AsNumber(VectorScore(d)).Some? }

  /** The metadata keys the fusion writes. */
  predicate IsScoreKey(key: String) {
    key == "vector_score" || key == "keyword_score" || key == "combined_score"
  }

  /** A vector hit after weighting. */
  function VectorHit(d: Document, vectorWeight: real): (r: Document)
    requires Scorable(d)
    ensures r.content == d.content
    ensures r.metadata.Keys == d.metadata.Keys + {"vector_score", "keyword_score", "combined_score"}
    ensures r.metadata["vector_score"] == VectorScore(d)
    ensures r.metadata["keyword_score"] == Num(0.0)
    ensures CombinedScore(r) == vectorWeight * NumberOr(d.metadata, "relevance_score", 0.5).value
    ensures forall key :: key in d.metadata && !IsScoreKey(key) ==> r.metadata[key] == d.metadata[key]
  {
    var vs := VectorScore(d);
    Document(d.content, d.metadata["vector_score" := vs]["keyword_score" := Num(0.0)]
                                  ["combined_score" := Num(vectorWeight * AsNumber(vs).value)])
  }

  /** A keyword hit after weighting: a fixed keyword score of 0.5. */
  function KeywordHit(d: Document, keywordWeight: real): (r: Document)
    ensures r.content == d.content
    ensures r.metadata.Keys == d.metadata.Keys + {"vector_score", "keyword_score", "combined_score"}
    ensures r.metadata["vector_score"] == Num(0.0) && r.metadata["keyword_score"] == Num(0.5)
    ensures CombinedScore(r) == keywordWeight * 0.5
    ensures forall key :: key in d.metadata && !IsScoreKey(key) ==> r.metadata[key] == d.metadata[key]
  {
    Document(d.content, d.metadata["vector_score" := Num(0.0)]["keyword_score" := Num(0.5)]
                                  ["combined_score" := Num(keywordWeight * 0.5)])
  }

  /** The weighted vector hits followed by the weighted keyword hits, before sorting. */
  function Weighted(vectorHits: seq<Document>, keywordHits: seq<Document>,
                    vectorWeight: real, keywordWeight: real): (r: seq<Document>)
    requires forall i :: 0 <= i < |vectorHits| ==> Scorable(vectorHits[i])
    ensures |r| == |vectorHits| + |keywordHits|
    ensures forall i :: 0 <= i < |vectorHits| ==> r[i] == VectorHit(vectorHits[i], vectorWeight)
    ensures forall i :: 0 <= i < |keywordHits| ==> r[|vectorHits| + i] == KeywordHit(keywordHits[i], keywordWeight)
  {
    seq(|vectorHits|, i requires 0 <= i < |vectorHits| => VectorHit(vectorHits[i], vectorWeight))
    + seq(|keywordHits|, i requires 0 <= i < |keywordHits| => KeywordHit(keywordHits[i], keywordWeight))
  }

  /** The content hashes of the documents of `s`. */
  function Hashes(s: seq<Document>, hash: String -> int): set<int> {
    if s == [] then {} else Hashes(s[..|s| - 1], hash) + {hash(s[|s| - 1].content)}
  }

  lemma HashesMember(s: seq<Document>, hash: String -> int, i: nat)
    requires i < |s|
    ensures hash(s[i].content) in Hashes(s, hash)
  {
    if i < |s| - 1 {
      HashesMember(s[..|s| - 1], hash, i);
    }
  }

  /** No two documents of `s` have the same content hash. */
  ghost predicate DistinctHashes(s: seq<Document>, hash: String -> int) {
    forall i, j :: 0 <= i < j < |s| ==> hash(s[i].content) != hash(s[j].content)
  }

  /**
   * The documents of `s` whose content hash has not been seen before, left to right:
   * the `seen` set and `unique_results` list of the de-duplication loop.
   */
  function Dedup(s: seq<Document>, hash: String -> int): seq<Document> {
    if s == [] then []
    else
      var p := Dedup(s[..|s| - 1], hash);
      if hash(s[|s| - 1].content) in Hashes(s[..|s| - 1], hash) then p else p + [s[|s| - 1]]
  }

  /** De-duplication keeps exactly the hashes of its input. */
  lemma {:induction false} DedupHashes(s: seq<Document>, hash: String -> int)
    ensures Hashes(Dedup(s, hash), hash) == Hashes(s, hash)
  {
    if s != [] {
      var t := s[..|s| - 1];
      DedupHashes(t, hash);
      var p := Dedup(t, hash);
      if hash(s[|s| - 1].content) !in Hashes(t, hash) {
        assert (p + [s[|s| - 1]])[..|p|] == p;
      }
    }
  }

  /** Every kept document is a document of the input. */
  lemma {:induction false} DedupMembers(s: seq<Document>, hash: String -> int)
    ensures forall i :: 0 <= i < |Dedup(s, hash)| ==> Dedup(s, hash)[i] in s
  {
    if s != [] {
      var t := s[..|s| - 1];
      DedupMembers(t, hash);
      assert forall x :: x in t ==> x in s;
    }
  }

  /** The output has no two documents with the same content hash. */
  lemma {:induction false} DedupDistinct(s: seq<Document>, hash: String -> int)
    ensures DistinctHashes(Dedup(s, hash), hash)
  {
    if s != [] {
      var t := s[..|s| - 1];
      var p := Dedup(t, hash);
      DedupDistinct(t, hash);
      DedupHashes(t, hash);
      var x := s[|s| - 1];
      if hash(x.content) !in Hashes(t, hash) {
        var r := p + [x];
        forall i, j | 0 <= i < j < |r| ensures hash(r[i].content) != hash(r[j].content) {
          if j == |p| {
            HashesMember(p, hash, i);
          }
        }
      }
    }
  }

  /** The first document of each content hash is kept: together with `DedupDistinct`, it is the only one. */
  lemma {:induction false} DedupKeepsFirst(s: seq<Document>, hash: String -> int, j: nat)
    requires j < |s| && hash(s[j].content) !in Hashes(s[..j], hash)
    ensures s[j] in Dedup(s, hash)
  {
    var t := s[..|s| - 1];
    if j < |s| - 1 {
      assert t[..j] == s[..j];
      DedupKeepsFirst(t, hash, j);
    } else {
      assert t == s[..j];
    }
  }

  /** De-duplication keeps a non-increasing order. */
  lemma {:induction false} DedupSorted(s: seq<Document>, hash: String -> int, key: Document -> real)
    requires NonIncreasing(s, key)
    ensures NonIncreasing(Dedup(s, hash), key)
  {
    if s != [] {
      var t := s[..|s| - 1];
      assert NonIncreasing(t, key);
      DedupSorted(t, hash, key);
      DedupMembers(t, hash);
      var p := Dedup(t, hash);
      var x := s[|s| - 1];
      if hash(x.content) !in Hashes(t, hash) {
        var r := p + [x];
        forall i, j | 0 <= i < j < |r| ensures key(r[i]) >= key(r[j]) {
          if j == |p| {
            var m :| 0 <= m < |t| && t[m] == p[i];
          }
        }
      }
    }
  }

  /** The two scoring loops of `_fusion_results`, filling `all_results`. */
  method WeighHits(vectorHits: seq<Document>, keywordHits: seq<Document>,
                   vectorWeight: real, keywordWeight: real)
    returns (r: Result<seq<Document>>)
    ensures r.Err? <==> exists i :: 0 <= i < |vectorHits| && !Scorable(vectorHits[i])
    ensures r.Ok? ==> r.value == Weighted(vectorHits, keywordHits, vectorWeight, keywordWeight)
  {
    var weighed := WeighVectorHits(vectorHits, vectorWeight);
    if weighed.None? {
      return Err("TypeError");
    }
    var all := WeighKeywordHits(weighed.value, keywordHits, keywordWeight);
    r := Ok(all);
  }

  /** The first loop of `_fusion_results`: it stops at the first vector hit without a numeric relevance. */
  method WeighVectorHits(vectorHits: seq<Document>, vectorWeight: real) returns (r: Option<seq<Document>>)
    ensures r.None? <==> exists i :: 0 <= i < |vectorHits| && !Scorable(vectorHits[i])
    ensures r.Some? ==> |r.value| == |vectorHits|
                        && forall j :: 0 <= j < |vectorHits| ==> r.value[j] == VectorHit(vectorHits[j], vectorWeight)
  {
    var all: seq<Document> := [];
    var i := 0;
    while i < |vectorHits|
      invariant 0 <= i <= |vectorHits| && |all| == i
      invariant forall j :: 0 <= j < i ==> Scorable(vectorHits[j]) && all[j] == VectorHit(vectorHits[j], vectorWeight)
    {
      if !Scorable(vectorHits[i]) {
        return None;
      }
      all := all + [VectorHit(vectorHits[i], vectorWeight)];
      i := i + 1;
    }
    r := Some(all);
  }

  /** The second loop of `_fusion_results`: every keyword hit, weighed, after the vector hits. */
  method WeighKeywordHits(weighed: seq<Document>, keywordHits: seq<Document>, keywordWeight: real)
    returns (all: seq<Document>)
    ensures |all| == |weighed| + |keywordHits| && all[..|weighed|] == weighed
    ensures forall j :: 0 <= j < |keywordHits| ==> all[|weighed| + j] == KeywordHit(keywordHits[j], keywordWeight)
  {
    all := weighed;
    var i := 0;
    while i < |keywordHits|
      invariant 0 <= i <= |keywordHits| && |all| == |weighed| + i && all[..|weighed|] == weighed
      invariant forall j :: 0 <= j < i ==> all[|weighed| + j] == KeywordHit(keywordHits[j], keywordWeight)
    {
      all := all + [KeywordHit(keywordHits[i], keywordWeight)];
      i := i + 1;
    }
  }

  /** The `seen`-set loop of `_fusion_results`: keeps the first document of each content hash. */
  method DedupByHash(s: seq<Document>, hash: String -> int) returns (unique: seq<Document>)
    ensures unique == Dedup(s, hash)
    ensures DistinctHashes(unique, hash) && Hashes(unique, hash) == Hashes(s, hash)
  {
    var seen: set<int> := {};
    unique := [];
    var i := 0;
    while i < |s|
      invariant 0 <= i <= |s|
      invariant seen == Hashes(s[..i], hash)
      invariant unique == Dedup(s[..i], hash)
    {
      assert s[..i + 1][..i] == s[..i];
      var h := hash(s[i].content);
      if h !in seen {
        seen := seen + {h};
        unique := unique + [s[i]];
      }
      i := i + 1;
    }
    assert s[..i] == s;
    DedupDistinct(s, hash);
    DedupHashes(s, hash);
  }

  /**
   * `_fusion_results`: `Err` is the `TypeError` raised when a vector hit's relevance score is a
   * string. Otherwise the result is the de-duplicated stable descending sort of the weighted
   * hits, ordered by combined score, with one document per content hash.
   */
  method FusionResults(vectorHits: seq<Document>, keywordHits: seq<Document>,
                       vectorWeight: real, keywordWeight: real, hash: String -> int)
    returns (r: Result<seq<Document>>)
    ensures r.Err? <==> exists i :: 0 <= i < |vectorHits| && !Scorable(vectorHits[i])
    ensures r.Ok? ==> r.value == Dedup(SortDesc(Weighted(vectorHits, keywordHits, vectorWeight, keywordWeight), CombinedScore), hash)
    ensures r.Ok? ==> NonIncreasing(r.value, CombinedScore) && DistinctHashes(r.value, hash)
    ensures r.Ok? ==> Hashes(r.value, hash) == Hashes(Weighted(vectorHits, keywordHits, vectorWeight, keywordWeight), hash)
  {
    var all := WeighHits(vectorHits, keywordHits, vectorWeight, keywordWeight);
    if all.Err? {
      return Err(all.error);
    }
    var sorted := SortDesc(all.value, CombinedScore);
    var unique := DedupByHash(sorted, hash);
    SortDescSorted(all.value, CombinedScore);
    DedupSorted(sorted, hash, CombinedScore);
    SortDescHashes(all.value, hash);
    r := Ok(unique);
  }

  /** Sorting does not change the set of content hashes. */
  lemma SortDescHashes(s: seq<Document>, hash: String -> int)
    ensures Hashes(SortDesc(s, CombinedScore), hash) == Hashes(s, hash)
  {
    SortDescPermutation(s, CombinedScore);
    var t := SortDesc(s, CombinedScore);
    forall h | h in Hashes(t, hash) ensures h in Hashes(s, hash) {
      var i := HashIndex(t, hash, h);
      assert t[i] in multiset(s);
      var j :| 0 <= j < |s| && s[j] == t[i];
      HashesMember(s, hash, j);
    }
    forall h | h in Hashes(s, hash) ensures h in Hashes(t, hash) {
      var i := HashIndex(s, hash, h);
      assert s[i] in multiset(t);
      var j :| 0 <= j < |t| && t[j] == s[i];
      HashesMember(t, hash, j);
    }
  }

  /** A position holding a given hash. */
  lemma HashIndex(s: seq<Document>, hash: String -> int, h: int) returns (i: nat)
    requires h in Hashes(s, hash)
    ensures i < |s| && hash(s[i].content) == h
  {
    if hash(s[|s| - 1].content) == h {
      i := |s| - 1;
    } else {
      i := HashIndex(s[..|s| - 1], hash, h);
    }
  }

  /** `_keyword_search`: not implemented in the source, it returns no hits. */
  function KeywordSearch(query: String, k: nat): (r: seq<Document>)
    ensures r == []
  {
    []
  }

  /** With no keyword hits, every fused result is a weighted vector hit. */
  lemma FusionOfVectorHitsOnly(vectorHits: seq<Document>, vectorWeight: real, hash: String -> int)
    requires forall i :: 0 <= i < |vectorHits| ==> Scorable(vectorHits[i])
    ensures var r := Dedup(SortDesc(Weighted(vectorHits, [], vectorWeight, 0.0), CombinedScore), hash);
            |r| <= |vectorHits|
            && forall i :: 0 <= i < |r| ==> exists j :: 0 <= j < |vectorHits| && r[i] == VectorHit(vectorHits[j], vectorWeight)
  {
    var w := Weighted(vectorHits, [], vectorWeight, 0.0);
    var s := SortDesc(w, CombinedScore);
    var r := Dedup(s, hash);
    SortDescPermutation(w, CombinedScore);
    DedupMembers(s, hash);
    DedupLength(s, hash);
    forall i | 0 <= i < |r| ensures exists j :: 0 <= j < |vectorHits| && r[i] == VectorHit(vectorHits[j], vectorWeight) {
      assert r[i] in multiset(w);
      var j :| 0 <= j < |w| && w[j] == r[i];
    }
  }

  lemma {:induction false} DedupLength(s: seq<Document>, hash: String -> int)
    ensures |Dedup(s, hash)| <= |s|
  {
    if s != [] { DedupLength(s[..|s| - 1], hash); }
  }
}

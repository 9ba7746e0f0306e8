/**
 * `EmbeddingManager` of src/storage/embedding_manager.py: the choice of embedding method,
 * the deterministic text-hash embedding and the query cache with "drop the oldest half"
 * eviction. MD5 is a parameter `md5` standing for `int(hashlib.md5(s).hexdigest(), 16)`;
 * the cache is keyed by that number, which the hex digest represents one-to-one.
 */
module Embeddings {
  import opened Common
  import opened Text

  /** Component `i` of the text-hash embedding of `text`. */
  function HashComponent(md5: String -> nat, text: String, i: nat): (r: real)
    ensures 0.0 <= r <= 0.999
  {
    (md5(text + "_" + NatToString(i)) % 1000) as real / 1000.0
  }

  /** The text-hash embedding of one text: `dim` components, component `i` from `f"{text}_{i}"`. */
  function HashVector(md5: String -> nat, text: String, dim: nat): (r: seq<real>)
    ensures |r| == dim
    ensures forall i :: 0 <= i < dim ==> r[i] == HashComponent(md5, text, i)
  {
    seq(dim, i requires 0 <= i < dim => HashComponent(md5, text, i))
  }

  /** The text-hash embeddings of a batch: one vector per text. */
  function HashVectors(md5: String -> nat, texts: seq<String>, dim: nat): (r: seq<seq<real>>)
    ensures |r| == |texts|
    ensures forall t :: 0 <= t < |texts| ==> r[t] == HashVector(md5, texts[t], dim)
  {
    seq(|texts|, t requires 0 <= t < |texts| => HashVector(md5, texts[t], dim))
  }

  /**
   * Every text-hash vector already has `dim` components, so the length correction after the
   * feature loop never changes a vector, and every component lies in [0, 0.999].
   */
  lemma {:induction false} HashVectorsInRange(md5: String -> nat, texts: seq<String>, dim: nat)
    ensures forall t :: 0 <= t < |texts| ==> |HashVectors(md5, texts, dim)[t]| == dim
    ensures forall t, i :: 0 <= t < |texts| && 0 <= i < dim ==> 0.0 <= HashVectors(md5, texts, dim)[t][i] <= 0.999
  {
    var r := HashVectors(md5, texts, dim);
    forall t, i | 0 <= t < |texts| && 0 <= i < dim ensures 0.0 <= r[t][i] <= 0.999 {
      assert r[t][i] == HashComponent(md5, texts[t], i);
    }
  }

  const SENTENCE_TRANSFORMERS: String := "sentence-transformers"
  const TEXT_HASH: String := "text-hash"
  const BOW_TFIDF: String := "bow-tfidf"

  /** The cache is full at this many entries. */
  const MAX_CACHE_SIZE: nat := 1000

  /** One cache entry: the MD5 key of a query text and its vector. */
  datatype Entry = Entry(key: nat, vector: seq<real>)

  /** The vector stored under `key` in an insertion-ordered dictionary, if any. */
  function Lookup(entries: seq<Entry>, key: nat): (r: Option<seq<real>>)
    ensures r.None? <==> forall i :: 0 <= i < |entries| ==> entries[i].key != key
    ensures r.Some? ==> exists i :: 0 <= i < |entries| && entries[i] == Entry(key, r.value)
  {
    if entries == [] then None
    else if entries[0].key == key then Some(entries[0].vector)
    else Lookup(entries[1..], key)
  }

  /** No key occurs twice. */
  ghost predicate DistinctKeys(entries: seq<Entry>) {
    forall i, j :: 0 <= i < j < |entries| ==> entries[i].key != entries[j].key
  }

  /** A new key appended to the dictionary is found with its vector. */
  lemma {:induction false} LookupAppended(entries: seq<Entry>, key: nat, v: seq<real>)
    ensures Lookup(entries + [Entry(key, v)], key) == (if Lookup(entries, key).Some? then Lookup(entries, key) else Some(v))
  {
    if entries != [] {
      assert (entries + [Entry(key, v)])[1..] == entries[1..] + [Entry(key, v)];
      LookupAppended(entries[1..], key, v);
    }
  }

  /** The entries left after eviction: the oldest `MAX_CACHE_SIZE / 2` of a full cache are dropped. */
  function AfterEviction(entries: seq<Entry>): (r: seq<Entry>)
    ensures |entries| >= MAX_CACHE_SIZE ==> r == entries[MAX_CACHE_SIZE / 2..]
    ensures |entries| < MAX_CACHE_SIZE ==> r == entries
  {
    if |entries| >= MAX_CACHE_SIZE then entries[MAX_CACHE_SIZE / 2..] else entries
  }

  /** Eviction keeps the keys distinct, makes room for one entry and brings back no key. */
  lemma FreshAfterEviction(entries: seq<Entry>, key: nat)
    requires DistinctKeys(entries) && |entries| <= MAX_CACHE_SIZE && Lookup(entries, key).None?
    ensures DistinctKeys(AfterEviction(entries)) && |AfterEviction(entries)| < MAX_CACHE_SIZE
    ensures Lookup(AfterEviction(entries), key).None?
  {
    var r := AfterEviction(entries);
    if |entries| >= MAX_CACHE_SIZE {
      forall i | 0 <= i < |r| ensures r[i] == entries[MAX_CACHE_SIZE / 2 + i] { }
    }
  }

  /** A key not yet stored can be appended: keys stay distinct and the key finds the new vector. */
  lemma AppendFresh(entries: seq<Entry>, key: nat, v: seq<real>)
    requires DistinctKeys(entries) && Lookup(entries, key).None?
    ensures DistinctKeys(entries + [Entry(key, v)])
    ensures Lookup(entries + [Entry(key, v)], key) == Some(v)
  {
    LookupAppended(entries, key, v);
  }

  class EmbeddingManager {
    var embeddingMethod: String
    var embeddingDim: nat
    /** `embedding_cache`, a dictionary kept in insertion order. */
    var cache: seq<Entry>
    var cacheEnabled: bool
    const md5: String -> nat

    /** Keys are unique and the cache is within its bound. */
    ghost predicate Valid()
      reads this
    {
      DistinctKeys(cache) && |cache| <= MAX_CACHE_SIZE
    }

    /**
     * `__init__` with `_initialize_embedding_method`: the local model is used when the network
     * probe and the model load succeed (`localModelLoads`); otherwise `_try_text_hash`, which
     * always succeeds, so the bag-of-words method is never chosen. Either way the dimension is 384.
     */
    constructor(localModelLoads: bool, md5: String -> nat)
      ensures Valid()
      ensures embeddingMethod == (if localModelLoads then SENTENCE_TRANSFORMERS else TEXT_HASH)
      ensures embeddingDim == 384
      ensures cache == [] && cacheEnabled
      ensures this.md5 == md5
    {
      this.md5 := md5;
      cache := [];
      cacheEnabled := true;
      if localModelLoads {
        embeddingMethod := SENTENCE_TRANSFORMERS;
        embeddingDim := 384;
      } else {
        embeddingMethod := TEXT_HASH;
        embeddingDim := 384;
      }
    }

    /** `_try_text_hash`: selects the 384-dimensional text-hash embedding and reports success. */
    method TryTextHash() returns (ok: bool)
      modifies this
      ensures ok && embeddingMethod == TEXT_HASH && embeddingDim == 384
      ensures cache == old(cache) && cacheEnabled == old(cacheEnabled)
    {
      embeddingMethod := TEXT_HASH;
      embeddingDim := 384;
      ok := true;
    }

    /** `_embed_text_hash`: one vector per text, each of `embeddingDim` hashed components. */
    method EmbedTextHash(texts: seq<String>) returns (embeddings: seq<seq<real>>)
      ensures embeddings == HashVectors(md5, texts, embeddingDim)
    {
      embeddings := [];
      var t := 0;
      while t < |texts|
        invariant 0 <= t <= |texts| && |embeddings| == t
        invariant forall s :: 0 <= s < t ==> embeddings[s] == HashVector(md5, texts[s], embeddingDim)
      {
        var features: seq<real> := [];
        var i := 0;
        while i < embeddingDim
          invariant 0 <= i <= embeddingDim && |features| == i
          invariant forall j :: 0 <= j < i ==> features[j] == HashComponent(md5, texts[t], j)
        {
          var h := md5(texts[t] + "_" + NatToString(i)) % 1000;
          features := features + [h as real / 1000.0];
          i := i + 1;
        }
        embeddings := embeddings + [features];
        t := t + 1;
      }
    }

    /** The vectors `embed_documents` returns; `encoded` is the local model's output, `None` if it raises. */
    function Embedded(texts: seq<String>, encoded: Option<seq<seq<real>>>): seq<seq<real>>
      reads this
    {
      if embeddingMethod == SENTENCE_TRANSFORMERS && encoded.Some? then encoded.value
      else HashVectors(md5, texts, embeddingDim)
    }

    /**
     * `embed_documents`: the local model's vectors when it is the method and does not raise;
     * every other method, an unknown one, or a failure gives the text-hash embedding.
     */
    method EmbedDocuments(texts: seq<String>, encoded: Option<seq<seq<real>>>) returns (r: seq<seq<real>>)
      ensures r == Embedded(texts, encoded)
      ensures embeddingMethod != SENTENCE_TRANSFORMERS || encoded.None? ==>
                |r| == |texts| && forall t :: 0 <= t < |texts| ==> |r[t]| == embeddingDim
    {
      if embeddingMethod == SENTENCE_TRANSFORMERS {
        if encoded.Some? {
          r := encoded.value;
        } else {
          r := EmbedTextHash(texts);
        }
      } else if embeddingMethod == TEXT_HASH {
        r := EmbedTextHash(texts);
      } else if embeddingMethod == BOW_TFIDF {
        r := EmbedTextHash(texts);
      } else {
        r := EmbedTextHash(texts);
      }
    }

    /** The vector computed for a cache miss: the first embedding, or zeros when there is none. */
    function Computed(text: String, encoded: Option<seq<seq<real>>>): (r: seq<real>)
      reads this
      ensures Embedded([text], encoded) == [] ==> r == seq(embeddingDim, _ => 0.0)
    {
      var e := Embedded([text], encoded);
      if e != [] then e[0] else seq(embeddingDim, _ => 0.0)
    }

    /**
     * `embed_query`. With the cache on, a known key returns the stored vector and changes
     * nothing; a new key is computed, the oldest `MAX_CACHE_SIZE / 2` entries are dropped first
     * if the cache is full, and the new entry is stored last. With the cache off, the vector
     * is computed and the cache is neither read nor changed.
     */
    method EmbedQuery(text: String, encoded: Option<seq<seq<real>>>) returns (r: seq<real>)
      requires Valid()
      modifies this
      ensures Valid()
      ensures embeddingMethod == old(embeddingMethod) && embeddingDim == old(embeddingDim)
      ensures cacheEnabled == old(cacheEnabled)
      ensures old(cacheEnabled) && Lookup(old(cache), md5(text)).Some? ==>
                r == Lookup(old(cache), md5(text)).value && cache == old(cache)
      ensures !old(cacheEnabled) ==> r == Computed(text, encoded) && cache == old(cache)
      ensures old(cacheEnabled) && Lookup(old(cache), md5(text)).None? ==>
                r == Computed(text, encoded) && cache == AfterEviction(old(cache)) + [Entry(md5(text), r)]
      ensures cacheEnabled ==> Lookup(cache, md5(text)) == Some(r)
    {
      var key := md5(text);
      if cacheEnabled {
        var hit := Lookup(cache, key);
        if hit.Some? {
          return hit.value;
        }
      }
      var embeddings := EmbedDocuments([text], encoded);
      r := if embeddings != [] then embeddings[0] else seq(embeddingDim, _ => 0.0);
      if cacheEnabled {
        ghost var before := cache;
        if |cache| >= MAX_CACHE_SIZE {
          Evict();
        }
        FreshAfterEviction(before, key);
        AppendFresh(cache, key, r);
        cache := cache + [Entry(key, r)];
      }
    }

    /** The eviction loop: deletes the `MAX_CACHE_SIZE / 2` oldest entries, oldest first. */
    method Evict()
      requires |cache| >= MAX_CACHE_SIZE
      modifies this
      ensures cache == old(cache)[MAX_CACHE_SIZE / 2..]
      ensures embeddingMethod == old(embeddingMethod) && embeddingDim == old(embeddingDim)
      ensures cacheEnabled == old(cacheEnabled)
    {
      var removed := 0;
      while removed < MAX_CACHE_SIZE / 2
        invariant 0 <= removed <= MAX_CACHE_SIZE / 2
        invariant cache == old(cache)[removed..]
        invariant embeddingMethod == old(embeddingMethod) && embeddingDim == old(embeddingDim)
        invariant cacheEnabled == old(cacheEnabled)
      {
        cache := cache[1..];
        removed := removed + 1;
      }
    }

    /** `clear_cache`: the cache is empty afterwards. */
    method ClearCache()
      modifies this
      ensures Valid() && cache == []
      ensures embeddingMethod == old(embeddingMethod) && embeddingDim == old(embeddingDim) && cacheEnabled == old(cacheEnabled)
    {
      cache := [];
    }

    /** `set_cache_enabled`: switches caching, keeping the stored entries. */
    method SetCacheEnabled(enabled: bool)
      modifies this
      ensures cacheEnabled == enabled
      ensures cache == old(cache)
      ensures embeddingMethod == old(embeddingMethod) && embeddingDim == old(embeddingDim)
    {
      cacheEnabled := enabled;
    }
  }

  /**
   * Asking twice for the same text with the cache on returns the same vector, whatever the
   * embedding backend returns the second time (the second answer is the stored one).
   */
  method QueryTwice(m: EmbeddingManager, text: String, first: Option<seq<seq<real>>>, second: Option<seq<seq<real>>>)
    returns (a: seq<real>, b: seq<real>)
    requires m.Valid() && m.cacheEnabled
    modifies m
    ensures a == b
  {
    a := m.EmbedQuery(text, first);
    b := m.EmbedQuery(text, second);
  }
}

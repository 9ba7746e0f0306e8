/**
 * `simple_text_splitter` of src/ingestion/document_loader_simple.py and the chunk-metadata
 * loop of `DocumentLoader.load_file` (both loaders). The splitter works in two passes: it packs
 * whole paragraphs into chunks, carrying the last `overlap` characters of a full chunk into the
 * next one, then re-splits every chunk longer than `size` at sentence punctuation.
 */
module Splitter {
  import opened Common
  import opened Text
  import opened Documents

  /** The characters of the sentence pattern `[.!?。！？]`. */
  predicate IsSentenceEnd(c: char) {
    c in ".!?。！？"
  }

  /** Every part stripped of surrounding whitespace. */
  function StripAll(parts: seq<String>): (r: seq<String>)
    ensures |r| == |parts|
    ensures forall i :: 0 <= i < |parts| ==> r[i] == Strip(parts[i])
  {
    seq(|parts|, i requires 0 <= i < |parts| => Strip(parts[i]))
  }

  predicate NonEmpty(s: String) { s != [] }

  /** `[p.strip() for p in text.split('\n\n') if p.strip()]`. */
  function Paragraphs(text: String): (r: seq<String>)
    ensures forall i :: 0 <= i < |r| ==> r[i] != []
  {
    Filter(StripAll(SplitOn(text, "\n\n")), NonEmpty)
  }

  /** `current[max(0, len(current) - overlap):]`: the part of a chunk carried into the next. */
  function Overlap(current: String, overlap: int): (r: String)
    ensures |r| <= |current| && r == current[|current| - |r|..]
  {
    SliceFrom(current, Max(0, |current| - overlap))
  }

  /** What the paragraph loop holds: the finished chunks and `current_chunk`. */
  datatype Packing = Packing(chunks: seq<String>, current: String)

  /** One iteration of the paragraph loop. */
  function PackStep(st: Packing, p: String, size: int, overlap: int): Packing {
    if |st.current| + |p| + 2 > size then
      if st.current != [] then Packing(st.chunks + [st.current], Overlap(st.current, overlap) + " " + p)
      else Packing(st.chunks, p)
    else if st.current != [] then Packing(st.chunks, st.current + "\n\n" + p)
    else Packing(st.chunks, p)
  }

  /** The paragraph loop after the given paragraphs. */
  function Pack(ps: seq<String>, size: int, overlap: int): Packing {
    if ps == [] then Packing([], [])
    else PackStep(Pack(ps[..|ps| - 1], size, overlap), ps[|ps| - 1], size, overlap)
  }

  /** The first pass: the packed chunks, then the last `current_chunk` if it is non-empty. */
  function FirstPass(ps: seq<String>, size: int, overlap: int): seq<String> {
    var st := Pack(ps, size, overlap);
    if st.current != [] then st.chunks + [st.current] else st.chunks
  }

  /** One iteration of the sentence loop; it may emit a chunk and updates `current_sentence`. */
  function SentenceStep(st: Packing, s: String, size: int, overlap: int): Packing {
    if |st.current| + |s| + 1 > size then
      if st.current != [] then Packing(st.chunks + [st.current], Overlap(st.current, overlap) + s)
      else Packing(st.chunks + [s], st.current)
    else if st.current != [] then Packing(st.chunks, st.current + "." + s)
    else Packing(st.chunks, s)
  }

  /** The sentence loop after the given sentences. */
  function Sentences(ss: seq<String>, size: int, overlap: int): Packing {
    if ss == [] then Packing([], [])
    else SentenceStep(Sentences(ss[..|ss| - 1], size, overlap), ss[|ss| - 1], size, overlap)
  }

  /** What the second pass makes of one first-pass chunk. */
  function Refine(chunk: String, size: int, overlap: int): seq<String> {
    if |chunk| <= size then [chunk]
    else
      var st := Sentences(SplitChars(chunk, IsSentenceEnd), size, overlap);
      if st.current != [] then st.chunks + [st.current] else st.chunks
  }

  /** The second pass over the first-pass chunks. */
  function SecondPass(chunks: seq<String>, size: int, overlap: int): seq<String> {
    if chunks == [] then []
    else SecondPass(chunks[..|chunks| - 1], size, overlap) + Refine(chunks[|chunks| - 1], size, overlap)
  }

  /** The chunks `simple_text_splitter(text, size, overlap)` returns. */
  function Split(text: String, size: int, overlap: int): seq<String> {
    if text == [] then [] else SecondPass(FirstPass(Paragraphs(Strip(text)), size, overlap), size, overlap)
  }

  /** `simple_text_splitter`. */
  method SimpleTextSplitter(text: String, size: int, overlap: int) returns (r: seq<String>)
    ensures r == Split(text, size, overlap)
    ensures text == [] ==> r == []
    ensures size >= 1 ==> AllNonEmpty(r)
  {
    if text == [] {
      return [];
    }
    var chunks := PackParagraphs(Paragraphs(Strip(text)), size, overlap);
    r := RefineChunks(chunks, size, overlap);
    if size >= 1 {
      SplitNonEmpty(text, size, overlap);
    }
  }

  /** The second-pass loop of `simple_text_splitter`: every chunk refined, in order. */
  method RefineChunks(chunks: seq<String>, size: int, overlap: int) returns (r: seq<String>)
    ensures r == SecondPass(chunks, size, overlap)
  {
    r := [];
    var k := 0;
    while k < |chunks|
      invariant 0 <= k <= |chunks|
      invariant r == SecondPass(chunks[..k], size, overlap)
    {
      assert chunks[..k + 1][..k] == chunks[..k];
      var refined := RefineChunk(chunks[k], size, overlap);
      r := r + refined;
      k := k + 1;
    }
    assert chunks[..k] == chunks;
  }

  /** The paragraph loop of `simple_text_splitter` and the flush of the last chunk. */
  method PackParagraphs(paragraphs: seq<String>, size: int, overlap: int) returns (chunks: seq<String>)
    ensures chunks == FirstPass(paragraphs, size, overlap)
  {
    chunks := [];
    var current: String := [];
    var i := 0;
    while i < |paragraphs|
      invariant 0 <= i <= |paragraphs|
      invariant Packing(chunks, current) == Pack(paragraphs[..i], size, overlap)
    {
      assert paragraphs[..i + 1][..i] == paragraphs[..i];
      var p := paragraphs[i];
      if |current| + |p| + 2 > size {
        if current != [] {
          chunks := chunks + [current];
          current := Overlap(current, overlap) + " " + p;
        } else {
          current := p;
        }
      } else {
        if current != [] {
          current := current + "\n\n" + p;
        } else {
          current := p;
        }
      }
      i := i + 1;
    }
    assert paragraphs[..i] == paragraphs;
    if current != [] {
      chunks := chunks + [current];
    }
  }

  /** The body of the second pass for one chunk: the sentence loop when the chunk is too long. */
  method RefineChunk(chunk: String, size: int, overlap: int) returns (out: seq<String>)
    ensures out == Refine(chunk, size, overlap)
  {
    if |chunk| <= size {
      return [chunk];
    }
    var sentences := SplitChars(chunk, IsSentenceEnd);
    out := [];
    var current: String := [];
    var j := 0;
    while j < |sentences|
      invariant 0 <= j <= |sentences|
      invariant Packing(out, current) == Sentences(sentences[..j], size, overlap)
    {
      assert sentences[..j + 1][..j] == sentences[..j];
      var s := sentences[j];
      if |current| + |s| + 1 > size {
        if current != [] {
          out := out + [current];
          current := Overlap(current, overlap) + s;
        } else {
          out := out + [s];
        }
      } else {
        if current != [] {
          current := current + "." + s;
        } else {
          current := s;
        }
      }
      j := j + 1;
    }
    assert sentences[..j] == sentences;
    if current != [] {
      out := out + [current];
    }
  }

  /** No chunk is the empty string. */
  predicate AllNonEmpty(chunks: seq<String>) {
    forall i :: 0 <= i < |chunks| ==> chunks[i] != []
  }

  /** The paragraph loop only ever emits non-empty chunks. */
  lemma {:induction false} PackNonEmpty(ps: seq<String>, size: int, overlap: int)
    ensures AllNonEmpty(Pack(ps, size, overlap).chunks)
  {
    if ps != [] {
      PackNonEmpty(ps[..|ps| - 1], size, overlap);
    }
  }

  /**
   * For a positive `size`, the sentence loop emits no empty chunk: a sentence emitted on its
   * own is at least `size` characters long.
   */
  lemma {:induction false} SentencesNonEmpty(ss: seq<String>, size: int, overlap: int)
    requires size >= 1
    ensures AllNonEmpty(Sentences(ss, size, overlap).chunks)
  {
    if ss != [] {
      SentencesNonEmpty(ss[..|ss| - 1], size, overlap);
    }
  }

  lemma {:induction false} SecondPassNonEmpty(chunks: seq<String>, size: int, overlap: int)
    requires size >= 1 && AllNonEmpty(chunks)
    ensures AllNonEmpty(SecondPass(chunks, size, overlap))
  {
    if chunks != [] {
      SecondPassNonEmpty(chunks[..|chunks| - 1], size, overlap);
      var last := chunks[|chunks| - 1];
      if |last| > size {
        SentencesNonEmpty(SplitChars(last, IsSentenceEnd), size, overlap);
      }
    }
  }

  lemma FirstPassNonEmpty(ps: seq<String>, size: int, overlap: int)
    ensures AllNonEmpty(FirstPass(ps, size, overlap))
  {
    PackNonEmpty(ps, size, overlap);
  }

  /** For `size >= 1` every chunk the splitter returns is non-empty. */
  lemma SplitNonEmpty(text: String, size: int, overlap: int)
    requires size >= 1
    ensures AllNonEmpty(Split(text, size, overlap))
  {
    if text != [] {
      var first := FirstPass(Paragraphs(Strip(text)), size, overlap);
      FirstPassNonEmpty(Paragraphs(Strip(text)), size, overlap);
      SecondPassNonEmpty(first, size, overlap);
    }
  }

  /** The second pass of one more chunk appends that chunk's refinement. */
  lemma SecondPassSnoc(s: seq<String>, x: String, size: int, overlap: int)
    ensures SecondPass(s + [x], size, overlap) == SecondPass(s, size, overlap) + Refine(x, size, overlap)
  {
    assert (s + [x])[..|s|] == s;
  }

  /** A function on chunk lists built one chunk at a time maps concatenation to concatenation. */
  lemma {:induction false} SnocAppend(f: seq<String> -> seq<String>, g: String -> seq<String>,
                                      a: seq<String>, b: seq<String>)
    requires f([]) == []
    requires forall s, x :: f(s + [x]) == f(s) + g(x)
    ensures f(a + b) == f(a) + f(b)
    decreases |b|
  {
    if b == [] {
      assert a + b == a;
    } else {
      var b0, last := b[..|b| - 1], b[|b| - 1];
      assert b == b0 + [last];
      assert a + b == (a + b0) + [last];
      SnocAppend(f, g, a, b0);
    }
  }

  /** The second pass treats the chunks one by one, in order. */
  lemma SecondPassAppend(a: seq<String>, b: seq<String>, size: int, overlap: int)
    ensures SecondPass(a + b, size, overlap) == SecondPass(a, size, overlap) + SecondPass(b, size, overlap)
  {
    var f := (s: seq<String>) => SecondPass(s, size, overlap);
    var g := (x: String) => Refine(x, size, overlap);
    forall s, x ensures f(s + [x]) == f(s) + g(x) {
      SecondPassSnoc(s, x, size, overlap);
    }
    SnocAppend(f, g, a, b);
  }

  /**
   * A first-pass chunk of at most `size` characters comes out of the second pass unchanged, in
   * its place among the chunks emitted for its neighbours.
   */
  lemma ShortChunkKept(before: seq<String>, chunk: String, after: seq<String>, size: int, overlap: int)
    requires |chunk| <= size
    ensures SecondPass(before + [chunk] + after, size, overlap)
            == SecondPass(before, size, overlap) + [chunk] + SecondPass(after, size, overlap)
  {
    SecondPassAppend(before + [chunk], after, size, overlap);
    SecondPassAppend(before, [chunk], size, overlap);
    assert SecondPass([chunk], size, overlap) == SecondPass([], size, overlap) + [chunk] by {
      assert [chunk][..0] == [];
    }
  }

  /** When no first-pass chunk is too long, the second pass changes nothing. */
  lemma {:induction false} SecondPassShort(chunks: seq<String>, size: int, overlap: int)
    requires forall i :: 0 <= i < |chunks| ==> |chunks[i]| <= size
    ensures SecondPass(chunks, size, overlap) == chunks
  {
    if chunks != [] {
      SecondPassShort(chunks[..|chunks| - 1], size, overlap);
    }
  }

  /**
   * A text that is one paragraph (no blank line after stripping) and fits in a chunk comes back
   * as exactly one chunk, the stripped text.
   */
  lemma SingleParagraph(text: String, size: int, overlap: int)
    requires Strip(text) != [] && |Strip(text)| <= size
    requires !Contains(Strip(text), "\n\n")
    ensures Split(text, size, overlap) == [Strip(text)]
  {
    var t := Strip(text);
    SplitOnAbsent(t, "\n\n");
    StripIdempotent(text);
    assert Paragraphs(t) == [t];
    assert [t][..0] == [];
    assert Pack([t], size, overlap) == Packing([], t);
    SecondPassShort([t], size, overlap);
  }

  /** The metadata of chunk `i` of `n` in `load_file`. */
  function ChunkMetadata(source: String, filename: String, i: nat, n: nat, fileType: String,
                         fileSize: real, contentHash: Option<int>): (r: Metadata)
    ensures r.Keys == {"source", "filename", "chunk_id", "total_chunks", "file_type", "file_size"}
                      + (if contentHash.Some? then {"content_hash"} else {})
    ensures r["chunk_id"] == Num(i as real) && r["total_chunks"] == Num(n as real)
    ensures contentHash.Some? ==> r["content_hash"] == Str(IntToString(contentHash.value))
  {
    var md := map["source" := Str(source), "filename" := Str(filename), "chunk_id" := Num(i as real),
                  "total_chunks" := Num(n as real), "file_type" := Str(fileType), "file_size" := Num(fileSize)];
    if contentHash.Some? then md["content_hash" := Str(IntToString(contentHash.value))] else md
  }

  /**
   * The loop of `load_file` turning chunks into documents. `hash` is Python's `hash()`, whose
   * value is stored as `content_hash` by src/ingestion/document_loader_simple.py only
   * (`withHash`); src/ingestion/document_loader.py stores no hash.
   */
  method ChunkDocuments(chunks: seq<String>, source: String, filename: String, fileType: String,
                        fileSize: real, hash: String -> int, withHash: bool)
    returns (docs: seq<Document>)
    ensures |docs| == |chunks|
    ensures forall i :: 0 <= i < |chunks| ==>
              docs[i] == Document(chunks[i], ChunkMetadata(source, filename, i, |chunks|, fileType, fileSize,
                                                           if withHash then Some(hash(chunks[i])) else None))
    ensures forall i :: 0 <= i < |docs| ==>
              "chunk_id" in docs[i].metadata && docs[i].metadata["chunk_id"] == Num(i as real)
              && "total_chunks" in docs[i].metadata && docs[i].metadata["total_chunks"] == Num(|docs| as real)
  {
    docs := [];
    var i := 0;
    while i < |chunks|
      invariant 0 <= i <= |chunks| && |docs| == i
      invariant forall j :: 0 <= j < i ==>
                  docs[j] == Document(chunks[j], ChunkMetadata(source, filename, j, |chunks|, fileType, fileSize,
                                                               if withHash then Some(hash(chunks[j])) else None))
    {
      var h := if withHash then Some(hash(chunks[i])) else None;
      docs := docs + [Document(chunks[i], ChunkMetadata(source, filename, i, |chunks|, fileType, fileSize, h))];
      i := i + 1;
    }
  }
}

/**
 * `RAGGenerator` of src/generation/llm_manager.py: answering a question from retrieved
 * documents (the context block, the confidence estimate and the source list) and the
 * normalisation of a model-made classification. The model is a parameter: its reply text, or
 * `None` when the call raises; `json.loads` is a parameter too.
 */
module Rag {
  import opened Common
  import opened Text
  import opened Sorting
  import opened Documents
  import Settings
  import Classify
  import Helpers

  /** `metadata.get(key, default)`. */
  function Get(md: Metadata, key: String, default: Value): (r: Value)
    ensures key in md ==> r == md[key]
    ensures key !in md ==> r == default
  {
    if key in md then md[key] else default
  }

  /** `str(v)` for a metadata value; numbers in metadata are whole (chunk ids, sizes). */
  function Render(v: Value): String {
    match v
    case Str(s) => s
    case Num(x) => IntToString(x.Floor)
    case Bool(b) => if b then "True" else "False"
  }

  // ---------------------------------------------------------------- _build_context

  /** `metadata.get('chunk_id', 0) + 1` as a whole number; a string raises `TypeError`. */
  function NextChunkNumber(md: Metadata): (r: Option<int>)
    ensures r.None? <==> "chunk_id" in md && md["chunk_id"].Str?
  {
    match Get(md, "chunk_id", Num(0.0))
    case Str(_) => None
    case Num(x) => Some(x.Floor + 1)
    case Bool(b) => Some(if b then 2 else 1)
  }

  /** The `[i] ` tag that opens the `i`-th part. */
  function Tag(i: nat): String {
    "[" + NatToString(i) + "] "
  }

  /** The source line of the `i`-th document: file name and one-based chunk number. */
  function SourceLine(i: nat, md: Metadata): Option<String> {
    match NextChunkNumber(md)
    case None => None
    case Some(n) =>
      Some("\n来源 [" + NatToString(i) + "]: " + Render(Get(md, "filename", Str("未知文件")))
           + " (第" + IntToString(n) + "部分)")
  }

  /** Whether the `i`-th part carries a source line. */
  predicate WithSource(doc: Document, includeSources: bool) {
    includeSources && doc.metadata != map[]
  }

  /** The `i`-th part (counted from 1); `None` when its source line raises. */
  function Part(i: nat, doc: Document, includeSources: bool): Option<String> {
    if WithSource(doc, includeSources) then
      match SourceLine(i, doc.metadata)
      case None => None
      case Some(line) => Some(Tag(i) + doc.content + line)
    else Some(Tag(i) + doc.content)
  }

  /** The parts of all documents, `None` if any part raises. */
  function Parts(docs: seq<Document>, includeSources: bool): Option<seq<String>> {
    if docs == [] then Some([])
    else
      match Parts(docs[..|docs| - 1], includeSources)
      case None => None
      case Some(ps) =>
        match Part(|docs|, docs[|docs| - 1], includeSources)
        case None => None
        case Some(p) => Some(ps + [p])
  }

  /** The context: the parts separated by blank lines. */
  function Context(docs: seq<Document>, includeSources: bool): Option<String> {
    match Parts(docs, includeSources)
    case None => None
    case Some(ps) => Some(Join(ps, "\n\n"))
  }

  /** A document whose source line would raise. */
  predicate BadChunkId(doc: Document, includeSources: bool) {
    WithSource(doc, includeSources) && "chunk_id" in doc.metadata && doc.metadata["chunk_id"].Str?
  }

  /** The parts exist exactly when no document's chunk id is a string (with sources on). */
  lemma {:induction false} PartsFail(docs: seq<Document>, includeSources: bool)
    ensures Parts(docs, includeSources).None? <==> exists i :: 0 <= i < |docs| && BadChunkId(docs[i], includeSources)
  {
    if docs != [] {
      var init := docs[..|docs| - 1];
      PartsFail(init, includeSources);
      if Parts(init, includeSources).None? {
        var i :| 0 <= i < |init| && BadChunkId(init[i], includeSources);
        assert docs[i] == init[i];
      } else if Part(|docs|, docs[|docs| - 1], includeSources).Some? {
        forall i | 0 <= i < |docs| ensures !BadChunkId(docs[i], includeSources) {
          if i < |init| {
            assert docs[i] == init[i];
          }
        }
      }
    }
  }

  /**
   * When the parts exist there is one per document; the `i`-th opens with `[i] ` and the
   * document's text, and it is exactly that unless a source line is due.
   */
  lemma {:induction false} PartsShape(docs: seq<Document>, includeSources: bool)
    requires Parts(docs, includeSources).Some?
    ensures var ps := Parts(docs, includeSources).value;
            && |ps| == |docs|
            && (forall i :: 0 <= i < |docs| ==> Tag(i + 1) + docs[i].content <= ps[i])
            && (forall i :: 0 <= i < |docs| && !WithSource(docs[i], includeSources) ==> ps[i] == Tag(i + 1) + docs[i].content)
  {
    if docs != [] {
      var init := docs[..|docs| - 1];
      PartsShape(init, includeSources);
      var ps := Parts(init, includeSources).value;
      var p := Part(|docs|, docs[|docs| - 1], includeSources).value;
      assert Tag(|docs|) + docs[|docs| - 1].content <= p;
      var all := Parts(docs, includeSources).value;
      assert all == ps + [p];
      forall i | 0 <= i < |docs|
        ensures Tag(i + 1) + docs[i].content <= all[i]
        ensures !WithSource(docs[i], includeSources) ==> all[i] == Tag(i + 1) + docs[i].content
      {
        if i < |init| {
          assert all[i] == ps[i] && docs[i] == init[i];
        }
      }
    }
  }

  /** Every document's text occurs in the context. */
  lemma ContextMentionsEveryDocument(docs: seq<Document>, includeSources: bool, i: nat)
    requires i < |docs| && Context(docs, includeSources).Some?
    ensures Contains(Context(docs, includeSources).value, docs[i].content)
  {
    PartsShape(docs, includeSources);
    var ps := Parts(docs, includeSources).value;
    var tag := Tag(i + 1);
    var rest := ps[i][|tag|..];
    assert ps[i] == tag + rest;
    assert docs[i].content <= rest;
    ContainsShift(tag, rest, docs[i].content);
    JoinContains(ps, "\n\n", i);
    ContainsOfContains(Join(ps, "\n\n"), ps[i], docs[i].content);
  }

  /** An occurrence inside an occurrence is an occurrence. */
  lemma {:induction false} ContainsOfContains(hay: String, mid: String, x: String)
    requires Contains(hay, mid) && Contains(mid, x)
    ensures Contains(hay, x)
    decreases |hay|
  {
    if mid <= hay {
      var k := |mid|;
      assert hay == mid + hay[k..];
      ContainsExtend(mid, hay[k..], x);
    } else {
      ContainsOfContains(hay[1..], mid, x);
    }
  }

  /** `_build_context`. */
  method BuildContext(docs: seq<Document>, includeSources: bool) returns (r: Option<String>)
    ensures r == Context(docs, includeSources)
    ensures r.None? <==> exists i :: 0 <= i < |docs| && BadChunkId(docs[i], includeSources)
  {
    PartsFail(docs, includeSources);
    var parts: seq<String> := [];
    var i := 0;
    while i < |docs|
      invariant 0 <= i <= |docs|
      invariant Parts(docs[..i], includeSources) == Some(parts)
    {
      assert docs[..i + 1][..i] == docs[..i];
      var part := Part(i + 1, docs[i], includeSources);
      if part.None? {
        assert Parts(docs[..i + 1], includeSources).None?;
        PrefixFails(docs, i + 1, includeSources);
        return None;
      }
      parts := parts + [part.value];
      i := i + 1;
    }
    assert docs[..i] == docs;
    r := Some(Join(parts, "\n\n"));
  }

  /** Once a prefix fails, the whole list fails. */
  lemma {:induction false} PrefixFails(docs: seq<Document>, n: nat, includeSources: bool)
    requires n <= |docs| && Parts(docs[..n], includeSources).None?
    ensures Parts(docs, includeSources).None?
    decreases |docs| - n
  {
    if n < |docs| {
      assert docs[..n + 1][..n] == docs[..n];
      PrefixFails(docs, n + 1, includeSources);
    } else {
      assert docs[..n] == docs;
    }
  }

  // ---------------------------------------------------------------- _estimate_confidence

  /** `min(len(documents) / 3, 1.0)`. */
  function DocCountFactor(n: nat): (r: real)
    ensures 0.0 <= r <= 1.0
    ensures n >= 3 ==> r == 1.0
    ensures n < 3 ==> r == n as real / 3.0
  {
    MinReal(n as real / 3.0, 1.0)
  }

  /** A reply that admits not finding or not knowing. */
  predicate Refusal(answer: String) {
    answer == [] || Contains(answer, "没有找到") || Contains(answer, "不清楚")
  }

  /** `min(len(answer) / 200, 1.0)`, or 0.3 for an empty or refusing answer. */
  function AnswerFactor(answer: String): (r: real)
    ensures 0.0 <= r <= 1.0
    ensures Refusal(answer) ==> r == 0.3
    ensures !Refusal(answer) ==> r == MinReal(|answer| as real / 200.0, 1.0)
  {
    if !Refusal(answer) then MinReal(|answer| as real / 200.0, 1.0) else 0.3
  }

  /** The relevance of every document (0.5 when absent); `None` when one is a string. */
  function Relevances(docs: seq<Document>): (r: Option<seq<real>>)
    ensures r.Some? ==> |r.value| == |docs|
    ensures r.Some? ==> forall i :: 0 <= i < |docs| ==> Some(r.value[i]) == NumberOr(docs[i].metadata, "relevance_score", 0.5)
    ensures r.None? <==> exists i :: 0 <= i < |docs| && NumberOr(docs[i].metadata, "relevance_score", 0.5).None?
  {
    if docs == [] then Some([])
    else
      var init := Relevances(docs[..|docs| - 1]);
      var last := NumberOr(docs[|docs| - 1].metadata, "relevance_score", 0.5);
      assert forall i :: 0 <= i < |docs| - 1 ==> docs[..|docs| - 1][i] == docs[i];
      if init.None? || last.None? then None else Some(init.value + [last.value])
  }

  /** The factors of the estimate; `None` when summing the relevances raises. */
  function Factors(docs: seq<Document>, answer: String): Option<seq<real>> {
    if docs != [] && docs[0].metadata != map[] then
      match Relevances(docs)
      case None => None
      case Some(rs) => Some([DocCountFactor(|docs|), Classify.Sum(rs) / |docs| as real, AnswerFactor(answer)])
    else Some([DocCountFactor(|docs|), AnswerFactor(answer)])
  }

  /** `max(0.0, min(1.0, x))`. */
  function Clamp(x: real): (r: real)
    ensures 0.0 <= r <= 1.0
    ensures 0.0 <= x <= 1.0 ==> r == x
  {
    MaxReal(0.0, MinReal(1.0, x))
  }

  /**
   * `_estimate_confidence`: the mean of the factors clamped to [0, 1], or 0.5 when the
   * estimate raises.
   */
  function EstimateConfidence(docs: seq<Document>, answer: String): (r: real)
    ensures 0.0 <= r <= 1.0
    ensures Factors(docs, answer).None? ==> r == 0.5
  {
    match Factors(docs, answer)
    case None => 0.5
    case Some(fs) => Clamp(Classify.Sum(fs) / |fs| as real)
  }

  /** The sum of values in [0, 1] lies between 0 and their number. */
  lemma {:induction false} SumInUnit(xs: seq<real>)
    requires forall i :: 0 <= i < |xs| ==> 0.0 <= xs[i] <= 1.0
    ensures 0.0 <= Classify.Sum(xs) <= |xs| as real
  {
    if xs != [] {
      SumInUnit(xs[..|xs| - 1]);
    }
  }

  /**
   * With relevances in [0, 1] the clamp never bites: the estimate is the plain mean of the
   * document factor, the mean relevance (when the first document has metadata) and the answer
   * factor.
   */
  lemma ConfidenceIsMean(docs: seq<Document>, answer: String)
    requires Relevances(docs).Some?
    requires forall i :: 0 <= i < |docs| ==> 0.0 <= Relevances(docs).value[i] <= 1.0
    ensures Factors(docs, answer).Some?
    ensures var fs := Factors(docs, answer).value;
            EstimateConfidence(docs, answer) == Classify.Sum(fs) / |fs| as real
  {
    FactorsInUnit(docs, answer);
    var fs := Factors(docs, answer).value;
    SumInUnit(fs);
    MeanInUnit(Classify.Sum(fs), |fs| as real);
  }

  /** With relevances in [0, 1], every factor lies in [0, 1]. */
  lemma FactorsInUnit(docs: seq<Document>, answer: String)
    requires Relevances(docs).Some?
    requires forall i :: 0 <= i < |docs| ==> 0.0 <= Relevances(docs).value[i] <= 1.0
    ensures Factors(docs, answer).Some? && |Factors(docs, answer).value| > 0
    ensures forall i :: 0 <= i < |Factors(docs, answer).value| ==> 0.0 <= Factors(docs, answer).value[i] <= 1.0
  {
    var fs := Factors(docs, answer).value;
    if docs != [] && docs[0].metadata != map[] {
      var rs := Relevances(docs).value;
      SumInUnit(rs);
      MeanInUnit(Classify.Sum(rs), |docs| as real);
      assert fs == [DocCountFactor(|docs|), Classify.Sum(rs) / |docs| as real, AnswerFactor(answer)];
    } else {
      assert fs == [DocCountFactor(|docs|), AnswerFactor(answer)];
    }
  }

  lemma MeanInUnit(total: real, n: real)
    requires n > 0.0 && 0.0 <= total <= n
    ensures 0.0 <= total / n <= 1.0
  {
    var q := total / n;
    assert q * n == total;
    assert (1.0 - q) * n == n - total;
    NonNegativeFactor(q, n);
    NonNegativeFactor(1.0 - q, n);
  }

  lemma NonNegativeFactor(a: real, b: real)
    requires b > 0.0 && a * b >= 0.0
    ensures a >= 0.0
  {
  }

  // ---------------------------------------------------------------- _extract_sources

  /** One entry of the source list. */
  datatype Source = Source(filename: Value, source: Value, chunkId: Value, relevance: Value)

  /** The entry a document with metadata contributes. */
  function SourceOf(md: Metadata): Source {
    Source(Get(md, "filename", Str("未知文件")), Get(md, "source", Str("")),
           Get(md, "chunk_id", Num(0.0)), Get(md, "relevance_score", Num(0.0)))
  }

  /** The sort key; only numeric scores are sorted here. */
  function Relevance(s: Source): real {
    match AsNumber(s.relevance)
    case Some(x) => x
    case None => 0.0
  }

  /** The scores the documents carry are numbers, as the stores write them. */
  predicate NumericScores(docs: seq<Document>) {
    forall i :: 0 <= i < |docs| && "relevance_score" in docs[i].metadata ==> !docs[i].metadata["relevance_score"].Str?
  }

  /** The file names of the entries. */
  function Filenames(sources: seq<Source>): (r: set<Value>)
    ensures forall i :: 0 <= i < |sources| ==> sources[i].filename in r
    ensures forall x :: x in r ==> exists i :: 0 <= i < |sources| && sources[i].filename == x
  {
    if sources == [] then {}
    else Filenames(sources[..|sources| - 1]) + {sources[|sources| - 1].filename}
  }

  /** The first entry per file name, in document order (before sorting). */
  function FirstPerFile(docs: seq<Document>): seq<Source> {
    if docs == [] then []
    else
      var before := FirstPerFile(docs[..|docs| - 1]);
      var md := docs[|docs| - 1].metadata;
      if md != map[] && SourceOf(md).filename !in Filenames(before) then before + [SourceOf(md)] else before
  }

  /** Whether an entry is that of the first document with metadata naming its file. */
  ghost predicate FirstFor(docs: seq<Document>, s: Source) {
    exists j :: 0 <= j < |docs| && docs[j].metadata != map[] && SourceOf(docs[j].metadata) == s
      && forall k :: 0 <= k < j && docs[k].metadata != map[] ==> SourceOf(docs[k].metadata).filename != s.filename
  }

  ghost predicate DistinctFilenames(sources: seq<Source>) {
    forall i, j :: 0 <= i < j < |sources| ==> sources[i].filename != sources[j].filename
  }

  /** The entries name distinct files. */
  lemma {:induction false} FirstPerFileDistinct(docs: seq<Document>)
    ensures DistinctFilenames(FirstPerFile(docs))
  {
    if docs != [] {
      var before := FirstPerFile(docs[..|docs| - 1]);
      FirstPerFileDistinct(docs[..|docs| - 1]);
      var md := docs[|docs| - 1].metadata;
      if md != map[] && SourceOf(md).filename !in Filenames(before) {
        var r := before + [SourceOf(md)];
        assert FirstPerFile(docs) == r;
        forall i, j | 0 <= i < j < |r| ensures r[i].filename != r[j].filename {
          assert r[i] == before[i];
          if j == |r| - 1 {
            assert before[i].filename in Filenames(before);
          } else {
            assert r[j] == before[j];
          }
        }
      }
    }
  }

  /** Every document with metadata has its file among the entries. */
  lemma {:induction false} FirstPerFileComplete(docs: seq<Document>)
    ensures forall j :: 0 <= j < |docs| && docs[j].metadata != map[] ==>
              SourceOf(docs[j].metadata).filename in Filenames(FirstPerFile(docs))
  {
    if docs != [] {
      var init := docs[..|docs| - 1];
      FirstPerFileComplete(init);
      forall j | 0 <= j < |docs| - 1 ensures docs[j] == init[j] { }
    }
  }

  /** Each entry is the one of the first document with metadata naming its file. */
  lemma {:induction false} FirstPerFileFirst(docs: seq<Document>)
    ensures forall i :: 0 <= i < |FirstPerFile(docs)| ==> FirstFor(docs, FirstPerFile(docs)[i])
  {
    if docs != [] {
      var init := docs[..|docs| - 1];
      FirstPerFileFirst(init);
      var before := FirstPerFile(init);
      var md := docs[|docs| - 1].metadata;
      forall i | 0 <= i < |before| ensures FirstFor(docs, before[i]) {
        assert FirstFor(init, before[i]);
        var j :| 0 <= j < |init| && init[j].metadata != map[] && SourceOf(init[j].metadata) == before[i]
          && forall k :: 0 <= k < j && init[k].metadata != map[] ==> SourceOf(init[k].metadata).filename != before[i].filename;
        assert docs[j] == init[j];
        forall k | 0 <= k < j ensures docs[k] == init[k] { }
      }
      if md != map[] && SourceOf(md).filename !in Filenames(before) {
        FirstPerFileComplete(init);
        forall k | 0 <= k < |docs| - 1 && docs[k].metadata != map[]
          ensures SourceOf(docs[k].metadata).filename != SourceOf(md).filename
        {
          assert init[k] == docs[k];
        }
        assert FirstFor(docs, SourceOf(md));
      }
    }
  }

  /** `_extract_sources`: the first entry per file, sorted by relevance, highest first. */
  method ExtractSources(docs: seq<Document>) returns (sources: seq<Source>)
    requires NumericScores(docs)
    ensures sources == SortDesc(FirstPerFile(docs), Relevance)
    ensures NonIncreasing(sources, Relevance)
    ensures multiset(sources) == multiset(FirstPerFile(docs))
  {
    sources := [];
    var seen: set<Value> := {};
    var i := 0;
    while i < |docs|
      invariant 0 <= i <= |docs|
      invariant sources == FirstPerFile(docs[..i]) && seen == Filenames(sources)
    {
      assert docs[..i + 1][..i] == docs[..i];
      var md := docs[i].metadata;
      if md != map[] {
        var entry := SourceOf(md);
        if entry.filename !in seen {
          seen := seen + {entry.filename};
          sources := sources + [entry];
        }
      }
      i := i + 1;
    }
    assert docs[..i] == docs;
    var unsorted := sources;
    sources := SortDesc(sources, Relevance);
    SortDescSorted(unsorted, Relevance);
    SortDescPermutation(unsorted, Relevance);
  }

  // ---------------------------------------------------------------- generate_answer

  const NO_DOCUMENTS_ANSWER: String := "抱歉，我在现有文档中没有找到相关信息。请尝试上传相关文档或重新表述问题。"
  const ERROR_ANSWER: String := "抱歉，回答生成过程中出现错误。请稍后重试。"

  /** The `metadata` of a result: an error tag, or the query and number of documents used. */
  datatype AnswerInfo = Failure(error: String) | Success(query: String, retrievedDocs: nat)

  datatype Answer = Answer(answer: String, confidence: real, sources: seq<Source>, info: AnswerInfo)

  /**
   * `generate_answer`: without documents a fixed apology; otherwise the context is built, and
   * when that and the model call (`reply`) succeed, the reply with its confidence and sources;
   * any failure gives the error apology.
   */
  function GenerateAnswer(query: String, docs: seq<Document>, includeSources: bool, reply: Option<String>)
    : (r: Answer)
    requires NumericScores(docs)
    ensures docs == [] ==> r == Answer(NO_DOCUMENTS_ANSWER, 0.0, [], Failure("no_documents_found"))
    ensures 0.0 <= r.confidence <= 1.0
    ensures r.info.Failure? ==> r.confidence == 0.0 && r.sources == []
    ensures r.info.Success? <==> docs != [] && Context(docs, includeSources).Some? && reply.Some?
    ensures r.info.Success? ==> r.answer == reply.value && r.info.retrievedDocs == |docs|
                                && r.sources == SortDesc(FirstPerFile(docs), Relevance)
                                && r.confidence == EstimateConfidence(docs, reply.value)
  {
    if docs == [] then Answer(NO_DOCUMENTS_ANSWER, 0.0, [], Failure("no_documents_found"))
    else if Context(docs, includeSources).None? then Answer(ERROR_ANSWER, 0.0, [], Failure("TypeError"))
    else if reply.None? then Answer(ERROR_ANSWER, 0.0, [], Failure("model call failed"))
    else
      Answer(reply.value, EstimateConfidence(docs, reply.value), SortDesc(FirstPerFile(docs), Relevance),
             Success(query, |docs|))
  }

  // ---------------------------------------------------------------- classify_document

  /** A JSON value as `json.loads` returns it. */
  datatype Json = JNull | JBool(b: bool) | JNum(x: real) | JStr(s: String) | JList(items: seq<Json>)
                | JObject(fields: map<String, Json>)

  /** The outcome of `json.loads`. */
  datatype Parsed = Decoded(value: Json) | DecodeError

  /** The reply when the classification raises. */
  function FailedClassification(content: String): map<String, Json> {
    map["category" := JStr("参考"), "priority" := JStr("中"), "summary" := JStr(Take(content, 100) + "..."),
        "tags" := JList([JStr("分类失败")]), "confidence" := JNum(0.0)]
  }

  /** The reply when the model's JSON does not decode. */
  function UndecodedClassification(content: String): map<String, Json> {
    map["category" := JStr("参考"), "priority" := JStr("中"), "summary" := JStr(Take(content, 100) + "..."),
        "tags" := JList([JStr("未分类")]), "confidence" := JNum(0.5)]
  }

  /** A field holding one of the allowed strings. */
  predicate FieldIn(m: map<String, Json>, key: String, allowed: seq<String>) {
    key in m && m[key].JStr? && m[key].s in allowed
  }

  /** Lines 293-296: an unknown category becomes 参考 and an unknown priority 中. */
  function Normalise(m: map<String, Json>): (r: map<String, Json>)
    ensures FieldIn(r, "category", Settings.DOCUMENT_CATEGORIES) && FieldIn(r, "priority", Settings.PRIORITY_LEVELS)
    ensures r.Keys == m.Keys + {"category", "priority"}
    ensures forall k :: k in m && k != "category" && k != "priority" ==> r[k] == m[k]
    ensures FieldIn(m, "category", Settings.DOCUMENT_CATEGORIES) ==> r["category"] == m["category"]
    ensures FieldIn(m, "priority", Settings.PRIORITY_LEVELS) ==> r["priority"] == m["priority"]
    ensures !FieldIn(m, "category", Settings.DOCUMENT_CATEGORIES) ==> r["category"] == JStr("参考")
    ensures !FieldIn(m, "priority", Settings.PRIORITY_LEVELS) ==> r["priority"] == JStr("中")
  {
    var withCategory := if FieldIn(m, "category", Settings.DOCUMENT_CATEGORIES) then m else m["category" := JStr("参考")];
    if FieldIn(withCategory, "priority", Settings.PRIORITY_LEVELS) then withCategory
    else withCategory["priority" := JStr("中")]
  }

  /** `result_text.find(c)`: the first position, or -1. */
  function Find(s: String, c: char): (r: int)
    ensures -1 <= r < |s|
    ensures r >= 0 ==> s[r] == c && forall j :: 0 <= j < r ==> s[j] != c
    ensures r == -1 ==> forall j :: 0 <= j < |s| ==> s[j] != c
  {
    if s == [] then -1
    else if s[0] == c then 0
    else var rest := Find(s[1..], c); if rest == -1 then -1 else rest + 1
  }

  /** `result_text.rfind(c)`. */
  function RFind(s: String, c: char): (r: int)
    ensures -1 <= r < |s|
  {
    match Helpers.LastIndexOf(s, c)
    case None => -1
    case Some(k) => k
  }

  /**
   * `classify_document`: the text between the first '{' and the last '}' of the reply is
   * decoded; an undecodable one gives the 未分类 default, a missing pair of braces, a value
   * that is not an object or a failed model call gives the 分类失败 reply; the category and
   * priority are normalised.
   */
  function ClassifyWithModel(content: String, reply: Option<String>, parse: String -> Parsed)
    : (r: map<String, Json>)
    ensures FieldIn(r, "category", Settings.DOCUMENT_CATEGORIES) && FieldIn(r, "priority", Settings.PRIORITY_LEVELS)
    ensures reply.None? ==> r == FailedClassification(content)
    ensures reply.Some? && (Find(reply.value, '{') == -1 || RFind(reply.value, '}') + 1 <= Find(reply.value, '{'))
            ==> r == FailedClassification(content)
    ensures reply.Some? && JsonSpan(reply.value).Some? && parse(JsonSpan(reply.value).value).DecodeError?
            ==> r == Normalise(UndecodedClassification(content))
                && r["tags"] == JList([JStr("未分类")]) && r["confidence"] == JNum(0.5)
    ensures reply.Some? && JsonSpan(reply.value).Some? && parse(JsonSpan(reply.value).value).Decoded?
            && !parse(JsonSpan(reply.value).value).value.JObject?
            ==> r == FailedClassification(content)
  {
    if reply.None? then FailedClassification(content)
    else
      match JsonSpan(reply.value)
      case None => FailedClassification(content)
      case Some(span) =>
        match parse(span)
        case DecodeError => Normalise(UndecodedClassification(content))
        case Decoded(JObject(m)) => Normalise(m)
        case Decoded(_) => FailedClassification(content)
  }

  /** `result_text[json_start:json_end]` when `json_end > json_start` and a brace was found. */
  function JsonSpan(text: String): (r: Option<String>)
    ensures r.None? <==> Find(text, '{') == -1 || RFind(text, '}') + 1 <= Find(text, '{')
    ensures r.Some? ==> r.value == text[Find(text, '{')..RFind(text, '}') + 1]
  {
    var start := Find(text, '{');
    var end := RFind(text, '}') + 1;
    if start != -1 && end > start then Some(text[start..end]) else None
  }

  /** A decoded object keeps every field other than category and priority. */
  lemma ModelFieldsKept(content: String, text: String, parse: String -> Parsed, k: String)
    requires JsonSpan(text).Some? && parse(JsonSpan(text).value).Decoded?
    requires parse(JsonSpan(text).value).value.JObject? && k in parse(JsonSpan(text).value).value.fields
    requires k != "category" && k != "priority"
    ensures var r := ClassifyWithModel(content, Some(text), parse);
            k in r && r[k] == parse(JsonSpan(text).value).value.fields[k]
  {
    var m := parse(JsonSpan(text).value).value.fields;
    assert ClassifyWithModel(content, Some(text), parse) == Normalise(m);
  }
}

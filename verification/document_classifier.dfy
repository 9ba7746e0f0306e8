/**
 * `DocumentClassifier` of src/ingestion/document_classifier.py: the dispatch between the model
 * path and the rules, and `_parse_llm_response`, the line-oriented reading of the model's reply.
 * The model call itself is a parameter: the reply text, or `None` when the call raises.
 */
module DocumentClassifier {
  import opened Common
  import opened Text
  import opened Keywords
  import opened Classify
  import Settings

  /** The fields the reply loop reassigns. */
  datatype Reply = Reply(category: String, priority: String, tags: seq<String>, summary: String)

  /** The defaults before any line is read; the summary is `original[:100] + "..."`. */
  function Defaults(original: String): Reply {
    Reply("参考", "中", [], Take(original, 100) + "...")
  }

  /** A line that names a field by its Chinese label or (after lower-casing) its English one. */
  predicate Names(line: String, chinese: String, english: String) {
    Contains(line, chinese) || Contains(Lower(line), english)
  }

  predicate IsCategoryLine(line: String) { Names(line, "类别", "Category") }
  predicate IsPriorityLine(line: String) { Names(line, "优先级", "Priority") }
  predicate IsTagLine(line: String) { Names(line, "标签", "Tag") }
  predicate IsSummaryLine(line: String) { Names(line, "摘要", "Summary") }

  /** The first category contained in the line. */
  function FirstCategoryIn(cats: seq<String>, line: String): (r: Option<String>)
    ensures r.Some? ==> r.value in cats && Contains(line, r.value)
    ensures r.None? ==> forall i :: 0 <= i < |cats| ==> !Contains(line, cats[i])
  {
    if cats == [] then None
    else if Contains(line, cats[0]) then Some(cats[0])
    else FirstCategoryIn(cats[1..], line)
  }

  /** 高 for 高/high, else 低 for 低/low, else 中. */
  function PriorityIn(line: String): (r: String)
    ensures r in Settings.PRIORITY_LEVELS
  {
    if Contains(line, "高") || Contains(Lower(line), "high") then "高"
    else if Contains(line, "低") || Contains(Lower(line), "low") then "低"
    else "中"
  }

  predicate IsBracket(c: char) { c == '[' || c == ']' }

  /** `[t.strip() for t in line.split(':', 1)[-1].strip().strip('[]').split(',') if t.strip()]`. */
  function TagsIn(line: String): (r: seq<String>)
    ensures forall i :: 0 <= i < |r| ==> r[i] != []
  {
    var part := StripWith(Strip(AfterFirst(line, ':')), IsBracket);
    var pieces := SplitOn(part, ",");
    Filter(seq(|pieces|, i requires 0 <= i < |pieces| => Strip(pieces[i])), (t: String) => t != [])
  }

  /** `line.split(':', 1)[-1].strip()`. */
  function SummaryIn(line: String): String {
    Strip(AfterFirst(line, ':'))
  }

  /** One iteration of the reply loop, for an already stripped line. */
  function LineStep(st: Reply, line: String): Reply {
    if line == [] then st
    else if IsCategoryLine(line) then
      match FirstCategoryIn(Settings.DOCUMENT_CATEGORIES, line)
      case Some(cat) => st.(category := cat)
      case None => st
    else if IsPriorityLine(line) then st.(priority := PriorityIn(line))
    else if IsTagLine(line) then st.(tags := TagsIn(line))
    else if IsSummaryLine(line) then
      var part := SummaryIn(line);
      if part != [] && |part| > 10 then st.(summary := part) else st
    else st
  }

  /** The reply loop over the given lines. */
  function ReadLines(lines: seq<String>, original: String): Reply {
    if lines == [] then Defaults(original)
    else LineStep(ReadLines(lines[..|lines| - 1], original), Strip(lines[|lines| - 1]))
  }

  /** `response_text.strip().split('\n')`. */
  function ReplyLines(responseText: String): seq<String> {
    SplitOn(Strip(responseText), "\n")
  }

  /** The tags after the fallback: the parsed ones, or the first five keywords of the document. */
  function FinalTags(parsed: seq<String>, original: String): seq<String> {
    if parsed != [] then parsed
    else Take(KeywordsOf(Candidates(original, IsTagPunct, KeepTag(CLASSIFIER_COMMON_WORDS)), 5), 5)
  }

  /** The classification `_parse_llm_response` returns. */
  function ParsedClassification(responseText: String, original: String): Classification {
    var st := ReadLines(ReplyLines(responseText), original);
    var category := if st.category in Settings.DOCUMENT_CATEGORIES then st.category else "参考";
    Classification(category, st.priority, st.summary, Take(FinalTags(st.tags, original), 5), true, 0.85, Some("llm"))
  }

  /** The English labels are compared with a lower-cased line, so they never match. */
  lemma EnglishLabelsNeverMatch(line: String)
    ensures !Contains(Lower(line), "Category") && !Contains(Lower(line), "Priority")
    ensures !Contains(Lower(line), "Tag") && !Contains(Lower(line), "Summary")
  {
    LowerHasNoCapital(line, 'C');
    LowerHasNoCapital(line, 'P');
    LowerHasNoCapital(line, 'T');
    LowerHasNoCapital(line, 'S');
    NotContainsChar(Lower(line), "Category", 'C');
    NotContainsChar(Lower(line), "Priority", 'P');
    NotContainsChar(Lower(line), "Tag", 'T');
    NotContainsChar(Lower(line), "Summary", 'S');
  }

  /**
   * A line changes at most one field, chosen by the first label it contains in the order
   * 类别, 优先级, 标签, 摘要; only the Chinese labels can select a field.
   */
  lemma OneFieldPerLine(st: Reply, line: String)
    ensures var n := LineStep(st, line);
            && (n.category != st.category ==> Contains(line, "类别"))
            && (n.priority != st.priority ==> !Contains(line, "类别") && Contains(line, "优先级"))
            && (n.tags != st.tags ==> !Contains(line, "类别") && !Contains(line, "优先级") && Contains(line, "标签"))
            && (n.summary != st.summary ==> !Contains(line, "类别") && !Contains(line, "优先级")
                                            && !Contains(line, "标签") && Contains(line, "摘要"))
  {
    EnglishLabelsNeverMatch(line);
  }

  /** One line keeps the category or sets a configured one, and likewise the priority. */
  lemma LineStepValid(st: Reply, line: String)
    ensures var n := LineStep(st, line);
            && (n.category == st.category || n.category in Settings.DOCUMENT_CATEGORIES)
            && (n.priority == st.priority || n.priority in Settings.PRIORITY_LEVELS)
            && (n.summary == st.summary || |n.summary| > 10)
  {
  }

  /** The category and priority read from the lines are always configured values. */
  lemma {:induction false} ReadLinesValid(lines: seq<String>, original: String)
    ensures ReadLines(lines, original).category in Settings.DOCUMENT_CATEGORIES
    ensures ReadLines(lines, original).priority in Settings.PRIORITY_LEVELS
    ensures var s := ReadLines(lines, original).summary;
            s == Take(original, 100) + "..." || |s| > 10
  {
    if lines != [] {
      ReadLinesValid(lines[..|lines| - 1], original);
      LineStepValid(ReadLines(lines[..|lines| - 1], original), Strip(lines[|lines| - 1]));
    }
  }

  /** Without a line naming 优先级, the priority stays 中. */
  lemma {:induction false} ReadPriorityDefault(lines: seq<String>, original: String)
    requires forall i :: 0 <= i < |lines| ==> !Contains(Strip(lines[i]), "优先级")
    ensures ReadLines(lines, original).priority == "中"
  {
    if lines != [] {
      ReadPriorityDefault(lines[..|lines| - 1], original);
      OneFieldPerLine(ReadLines(lines[..|lines| - 1], original), Strip(lines[|lines| - 1]));
    }
  }

  /** The category loop of `_parse_llm_response`: the first configured category the line names. */
  method FindCategory(line: String) returns (found: Option<String>)
    ensures found == FirstCategoryIn(Settings.DOCUMENT_CATEGORIES, line)
  {
    var k := 0;
    while k < |Settings.DOCUMENT_CATEGORIES|
      invariant 0 <= k <= |Settings.DOCUMENT_CATEGORIES|
      invariant FirstCategoryIn(Settings.DOCUMENT_CATEGORIES, line)
                == FirstCategoryIn(Settings.DOCUMENT_CATEGORIES[k..], line)
    {
      var cat := Settings.DOCUMENT_CATEGORIES[k];
      if Contains(line, cat) {
        return Some(cat);
      }
      assert Settings.DOCUMENT_CATEGORIES[k..][1..] == Settings.DOCUMENT_CATEGORIES[k + 1..];
      k := k + 1;
    }
    return None;
  }

  /** The body of the reply loop for one stripped line. */
  method ReadLine(st: Reply, line: String) returns (n: Reply)
    ensures n == LineStep(st, line)
  {
    n := st;
    if line == [] {
      return;
    }
    if IsCategoryLine(line) {
      var found := FindCategory(line);
      if found.Some? {
        n := st.(category := found.value);
      }
    } else if IsPriorityLine(line) {
      n := st.(priority := PriorityIn(line));
    } else if IsTagLine(line) {
      n := st.(tags := TagsIn(line));
    } else if IsSummaryLine(line) {
      var part := SummaryIn(line);
      if part != [] && |part| > 10 {
        n := st.(summary := part);
      }
    }
  }

  /** The reply loop of `_parse_llm_response`, from the defaults, one stripped line at a time. */
  method ReadReply(lines: seq<String>, original: String) returns (st: Reply)
    ensures st == ReadLines(lines, original)
  {
    st := Defaults(original);
    var i := 0;
    while i < |lines|
      invariant 0 <= i <= |lines|
      invariant st == ReadLines(lines[..i], original)
    {
      assert lines[..i + 1][..i] == lines[..i];
      st := ReadLine(st, Strip(lines[i]));
      i := i + 1;
    }
    assert lines[..i] == lines;
  }

  /**
   * `_parse_llm_response`: reads the reply line by line, re-validates the category, falls back to
   * keyword tags when the reply names none, and keeps at most five tags.
   */
  method ParseLlmResponse(responseText: String, original: String) returns (r: Classification)
    ensures r == ParsedClassification(responseText, original)
    ensures r.category in Settings.DOCUMENT_CATEGORIES && r.priority in Settings.PRIORITY_LEVELS
    ensures |r.tags| <= 5 && r.confidence == 0.85 && r.classificationMethod == Some("llm")
    ensures r.summary == Take(original, 100) + "..." || |r.summary| > 10
  {
    var lines := ReplyLines(responseText);
    var st := ReadReply(lines, original);
    ReadLinesValid(lines, original);
    var category := st.category;
    if category !in Settings.DOCUMENT_CATEGORIES {
      category := "参考";
    }
    var tags := st.tags;
    if tags == [] {
      var keywords := Extract(original, IsTagPunct, KeepTag(CLASSIFIER_COMMON_WORDS), 5);
      tags := Take(keywords, 5);
    }
    r := Classification(category, st.priority, st.summary, Take(tags, 5), true, 0.85, Some("llm"));
  }

  /**
   * `classify_document`: the model path only when it is enabled and the call succeeds
   * (`reply` is `None` when it raises), otherwise the rules.
   */
  function ClassifyDocument(content: String, llmEnabled: bool, reply: Option<String>): (r: Classification)
    ensures r.classificationMethod == Some("llm") <==> llmEnabled && reply.Some?
    ensures r.classificationMethod == Some("rules") <==> !(llmEnabled && reply.Some?)
    ensures !(llmEnabled && reply.Some?) ==> r == RulesClassification(content)
    ensures llmEnabled && reply.Some? ==> r == ParsedClassification(reply.value, content)
    ensures r.category in Settings.DOCUMENT_CATEGORIES
  {
    if llmEnabled && reply.Some? then
      ReadLinesValid(ReplyLines(reply.value), content);
      ParsedClassification(reply.value, content)
    else RulesClassification(content)
  }
}

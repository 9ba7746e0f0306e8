/**
 * The rule-based document classifiers: `DocumentClassifier.classify_document` of
 * src/ingestion/document_loader_simple.py (weighted keyword counts, filename patterns,
 * normalised scores), `DocumentClassifier.classify_document` of src/ingestion/document_loader.py
 * and `_classify_with_rules` of src/ingestion/document_classifier.py (how many of a category's
 * keywords occur), with their shared pieces: the first-maximum choice of Python's
 * `max(d, key=d.get)`, the priority rules and the 100-character summary.
 */
module Classify {
  import opened Common
  import opened Text
  import opened Keywords
  import Settings

  /** A classification result; `tagsJoined` says whether the dictionary holds `",".join(tags)`. */
  datatype Classification = Classification(
    category: String,
    priority: String,
    summary: String,
    tags: seq<String>,
    tagsJoined: bool,
    confidence: real,
    classificationMethod: Option<String>)

  /** The first position holding the largest value, as `max` over a dictionary in insertion order. */
  function ArgMax(xs: seq<real>): (r: nat)
    requires |xs| > 0
    ensures r < |xs|
    ensures forall j :: 0 <= j < |xs| ==> xs[j] <= xs[r]
    ensures forall j :: 0 <= j < r ==> xs[j] < xs[r]
  {
    if |xs| == 1 then 0
    else
      var m := ArgMax(xs[..|xs| - 1]);
      if xs[|xs| - 1] > xs[m] then |xs| - 1 else m
  }

  /** `sum(xs)`. */
  function Sum(xs: seq<real>): real {
    if xs == [] then 0.0 else Sum(xs[..|xs| - 1]) + xs[|xs| - 1]
  }

  lemma {:induction false} SumBounds(xs: seq<real>, i: nat)
    requires forall j :: 0 <= j < |xs| ==> xs[j] >= 0.0
    requires i < |xs|
    ensures xs[i] <= Sum(xs)
  {
    var init := xs[..|xs| - 1];
    if i < |xs| - 1 {
      SumBounds(init, i);
      SumNonNegative(init);
    } else {
      SumNonNegative(init);
    }
  }

  lemma {:induction false} SumNonNegative(xs: seq<real>)
    requires forall j :: 0 <= j < |xs| ==> xs[j] >= 0.0
    ensures Sum(xs) >= 0.0
  {
    if xs != [] {
      SumNonNegative(xs[..|xs| - 1]);
    }
  }

  /** A positive part of a larger total is a share strictly between 0 and 1. */
  lemma Share(part: real, total: real)
    requires 0.0 < part < total
    ensures 0.0 < part / total < 1.0
  {
    var q := part / total;
    var gap := total - part;
    assert q * total + gap == total;
    assert (1.0 - q) * total == gap;
    assert gap > 0.0;
    PositiveFactor(1.0 - q, total);
  }

  lemma PositiveFactor(a: real, b: real)
    requires b > 0.0 && a * b > 0.0
    ensures a > 0.0
  {
  }

  /** `content[:100] + "..." if len(content) > 100 else content`. */
  function Summary(content: String): (r: String)
    ensures |content| <= 100 ==> r == content
    ensures |content| > 100 ==> |r| == 103 && r[..100] == content[..100] && r[100..] == "..."
  {
    if |content| > 100 then content[..100] + "..." else content
  }

  /** The category for the given position of `Settings.DOCUMENT_CATEGORIES`. */
  function CategoryAt(i: nat): String
    requires i < 6
  {
    Settings.DOCUMENT_CATEGORIES[i]
  }

  // ---------------------------------------------------------------------------------------
  // src/ingestion/document_loader_simple.py: weighted keyword counts and filename patterns
  // ---------------------------------------------------------------------------------------

  /** One entry of `category_rules`: content keywords, their weight and filename patterns. */
  datatype Rule = Rule(category: String, keywords: seq<String>, weight: real, patterns: seq<String>)

  const WEIGHTED_RULES: seq<Rule> := [
    Rule("工作", ["项目", "会议", "工作", "任务", "计划", "报告", "需求", "deadline", "团队", "客户"], 1.0,
         ["todo", "meeting", "project"]),
    Rule("学习", ["学习", "教程", "课程", "笔记", "知识", "技能", "练习", "章节", "总结", "复习"], 1.0,
         ["python", "java", "编程", "algorithm"]),
    Rule("个人", ["日记", "想法", "感悟", "生活", "家庭", "个人", "心情", "日程", "schedule"], 0.9,
         ["diary", "daily", "schedule"]),
    Rule("参考", ["参考", "文档", "手册", "指南", "规范", "标准", "资料", "api", "documentation"], 0.8,
         ["reference", "guide", "manual"]),
    Rule("研究", ["研究", "分析", "实验", "数据", "结论", "发现", "探索", "论文", "方法"], 1.0,
         ["research", "analysis", "experiment"]),
    Rule("想法", ["想法", "创意", "创新", "设计", "概念", "思路", "灵感", "brainstorm"], 0.9,
         ["idea", "innovation", "creative"])
  ]

  /** The rules' categories are the configured categories, in the same order. */
  lemma WeightedRulesCategories()
    ensures |WEIGHTED_RULES| == 6
    ensures forall i :: 0 <= i < 6 ==> WEIGHTED_RULES[i].category == CategoryAt(i)
    ensures forall i :: 0 <= i < 6 ==> WEIGHTED_RULES[i].weight > 0.0
    ensures forall i, k :: 0 <= i < 6 && 0 <= k < |WEIGHTED_RULES[i].keywords| ==> WEIGHTED_RULES[i].keywords[k] != []
  {
  }

  /** Filename score of one rule: 2.0 for every pattern the filename contains. */
  function FilenameScore(patterns: seq<String>, filename: String): real {
    if patterns == [] then 0.0
    else FilenameScore(patterns[..|patterns| - 1], filename)
         + (if Contains(filename, patterns[|patterns| - 1]) then 2.0 else 0.0)
  }

  /** The raw content score: `count * weight` summed over the keywords. */
  function WeightedCount(keywords: seq<String>, content: String, weight: real): real
    requires forall k :: 0 <= k < |keywords| ==> keywords[k] != []
  {
    if keywords == [] then 0.0
    else WeightedCount(keywords[..|keywords| - 1], content, weight)
         + Count(content, keywords[|keywords| - 1]) as real * weight
  }

  /** The content score, per hundred whitespace-separated words when there are any. */
  function ContentScore(rule: Rule, content: String): real
    requires forall k :: 0 <= k < |rule.keywords| ==> rule.keywords[k] != []
  {
    var raw := WeightedCount(rule.keywords, content, rule.weight);
    var n := |Words(content)|;
    if n > 0 then raw / (n as real / 100.0) else raw
  }

  /** `filename_scores[c] * 0.4 + content_scores[c] * 0.6`. */
  function FinalScore(rule: Rule, content: String, filename: String): real
    requires forall k :: 0 <= k < |rule.keywords| ==> rule.keywords[k] != []
  {
    FilenameScore(rule.patterns, filename) * 0.4 + ContentScore(rule, content) * 0.6
  }

  /** The final scores of the six categories. */
  function FinalScores(content: String, filename: String): (r: seq<real>)
    ensures |r| == 6
  {
    WeightedRulesCategories();
    seq(6, i requires 0 <= i < 6 => FinalScore(WEIGHTED_RULES[i], content, filename))
  }

  lemma {:induction false} FilenameScoreNonNegative(patterns: seq<String>, filename: String)
    ensures FilenameScore(patterns, filename) >= 0.0
  {
    if patterns != [] {
      FilenameScoreNonNegative(patterns[..|patterns| - 1], filename);
    }
  }

  lemma {:induction false} WeightedCountNonNegative(keywords: seq<String>, content: String, weight: real)
    requires forall k :: 0 <= k < |keywords| ==> keywords[k] != []
    requires weight >= 0.0
    ensures WeightedCount(keywords, content, weight) >= 0.0
  {
    if keywords != [] {
      WeightedCountNonNegative(keywords[..|keywords| - 1], content, weight);
    }
  }

  /** No category ever scores below zero. */
  lemma FinalScoresNonNegative(content: String, filename: String)
    ensures forall i :: 0 <= i < 6 ==> FinalScores(content, filename)[i] >= 0.0
  {
    WeightedRulesCategories();
    forall i | 0 <= i < 6 ensures FinalScores(content, filename)[i] >= 0.0 {
      var rule := WEIGHTED_RULES[i];
      FilenameScoreNonNegative(rule.patterns, filename);
      WeightedCountNonNegative(rule.keywords, content, rule.weight);
      var raw := WeightedCount(rule.keywords, content, rule.weight);
      var n := |Words(content)|;
      if n > 0 {
        assert raw / (n as real / 100.0) >= 0.0;
      }
    }
  }

  /** The priority keywords, checked in order: 高, then 中; 低 has none. */
  const PRIORITY_KEYWORDS: seq<(String, seq<String>)> := [
    ("高", ["重要", "urgent", "紧急", "asap", "高优先级", "critical"]),
    ("中", ["todo", "待办", "计划", "scheduled"]),
    ("低", [])
  ]

  /** `any(kw in content for kw in keywords)`. */
  predicate AnyIn(keywords: seq<String>, content: String) {
    exists k :: 0 <= k < |keywords| && Contains(content, keywords[k])
  }

  /** The first level whose keywords occur, or 低. */
  function FirstPriority(levels: seq<(String, seq<String>)>, content: String): String {
    if levels == [] then "低"
    else if AnyIn(levels[0].1, content) then levels[0].0
    else FirstPriority(levels[1..], content)
  }

  /** The priority: the first matching level, then 低 promoted to 中 for content over 2000 characters. */
  function WeightedPriority(content: String): String {
    var p := FirstPriority(PRIORITY_KEYWORDS, content);
    if p == "低" && |content| > 2000 then "中" else p
  }

  /**
   * The priority is 高 exactly when a high keyword occurs; otherwise 中 when a medium keyword
   * occurs or the content is longer than 2000 characters; otherwise 低.
   */
  lemma WeightedPriorityRules(content: String)
    ensures var p := WeightedPriority(content);
            && (p == "高" <==> AnyIn(PRIORITY_KEYWORDS[0].1, content))
            && (p == "中" <==> !AnyIn(PRIORITY_KEYWORDS[0].1, content)
                               && (AnyIn(PRIORITY_KEYWORDS[1].1, content) || |content| > 2000))
            && (p == "低" <==> !AnyIn(PRIORITY_KEYWORDS[0].1, content)
                               && !AnyIn(PRIORITY_KEYWORDS[1].1, content) && |content| <= 2000)
  {
    var levels := PRIORITY_KEYWORDS;
    assert !AnyIn(levels[2].1, content);
    assert levels[1..][0] == levels[1] && levels[1..][1..][0] == levels[2] && levels[1..][1..][1..] == [];
    assert FirstPriority(levels[1..][1..], content) == "低";
    assert FirstPriority(levels, content) ==
           if AnyIn(levels[0].1, content) then "高" else if AnyIn(levels[1].1, content) then "中" else "低";
  }

  /**
   * The category and confidence for the final scores: the first category with the largest
   * score, its confidence the category's share of the total, in (0, 1); 参考 with confidence
   * 0.3 when no category scores.
   */
  function ChooseCategory(scores: seq<real>): (r: (String, real))
    requires |scores| == 6 && forall i :: 0 <= i < 6 ==> scores[i] >= 0.0
    ensures r.0 in Settings.DOCUMENT_CATEGORIES
    ensures (forall i :: 0 <= i < 6 ==> scores[i] == 0.0) ==> r == ("参考", 0.3)
    ensures (exists i :: 0 <= i < 6 && scores[i] > 0.0) ==>
              exists c :: 0 <= c < 6 && r.0 == CategoryAt(c)
                && (forall j :: 0 <= j < 6 ==> scores[j] <= scores[c])
                && (forall j :: 0 <= j < c ==> scores[j] < scores[c])
                && Sum(scores) + 0.001 > 0.0 && r.1 == scores[c] / (Sum(scores) + 0.001)
                && 0.0 < r.1 < 1.0
  {
    var i := ArgMax(scores);
    if scores[i] > 0.0 then
      SumBounds(scores, i);
      Share(scores[i], Sum(scores) + 0.001);
      (CategoryAt(i), scores[i] / (Sum(scores) + 0.001))
    else ("参考", 0.3)
  }

  /** The result of `classify_document` (document_loader_simple.py) for a page and a filename. */
  function WeightedClassification(pageContent: String, filename: String): Classification {
    var content := Lower(pageContent);
    var scores := FinalScores(content, Lower(filename));
    FinalScoresNonNegative(content, Lower(filename));
    var choice := ChooseCategory(scores);
    Classification(choice.0, WeightedPriority(content), Summary(content),
                   KeywordsOf(Candidates(content, IsTagPunct, KeepTag(COMMON_WORDS)), 5), true, choice.1, None)
  }

  /** The scoring loops of `classify_document`: the final score of every category. */
  method ScoreCategories(content: String, filename: String) returns (scores: seq<real>)
    ensures scores == FinalScores(content, filename)
  {
    WeightedRulesCategories();
    scores := [];
    var i := 0;
    while i < 6
      invariant 0 <= i <= 6 && |scores| == i
      invariant forall j :: 0 <= j < i ==> scores[j] == FinalScore(WEIGHTED_RULES[j], content, filename)
    {
      var score := ScoreRule(WEIGHTED_RULES[i], content, filename);
      scores := scores + [score];
      i := i + 1;
    }
  }

  /** The two inner loops of `classify_document` for one category: filename points, then keyword points. */
  method ScoreRule(rule: Rule, content: String, filename: String) returns (score: real)
    requires forall k :: 0 <= k < |rule.keywords| ==> rule.keywords[k] != []
    ensures score == FinalScore(rule, content, filename)
  {
    var fromName := 0.0;
    var k := 0;
    while k < |rule.patterns|
      invariant 0 <= k <= |rule.patterns|
      invariant fromName == FilenameScore(rule.patterns[..k], filename)
    {
      assert rule.patterns[..k + 1][..k] == rule.patterns[..k];
      if Contains(filename, rule.patterns[k]) {
        fromName := fromName + 2.0;
      }
      k := k + 1;
    }
    assert rule.patterns[..k] == rule.patterns;
    var fromContent := 0.0;
    k := 0;
    while k < |rule.keywords|
      invariant 0 <= k <= |rule.keywords|
      invariant fromContent == WeightedCount(rule.keywords[..k], content, rule.weight)
    {
      assert rule.keywords[..k + 1][..k] == rule.keywords[..k];
      fromContent := fromContent + Count(content, rule.keywords[k]) as real * rule.weight;
      k := k + 1;
    }
    assert rule.keywords[..k] == rule.keywords;
    var n := |Words(content)|;
    if n > 0 {
      fromContent := fromContent / (n as real / 100.0);
    }
    score := fromName * 0.4 + fromContent * 0.6;
  }

  /** The priority loop with its `break`, then the promotion of long content. */
  method PriorityOf(content: String) returns (priority: String)
    ensures priority == WeightedPriority(content)
  {
    priority := "低";
    var i := 0;
    while i < |PRIORITY_KEYWORDS|
      invariant 0 <= i <= |PRIORITY_KEYWORDS|
      invariant FirstPriority(PRIORITY_KEYWORDS, content) == FirstPriority(PRIORITY_KEYWORDS[i..], content)
    {
      var level := PRIORITY_KEYWORDS[i];
      var k := 0;
      var hit := false;
      while k < |level.1| && !hit
        invariant 0 <= k <= |level.1|
        invariant hit ==> AnyIn(level.1, content)
        invariant !hit ==> forall m :: 0 <= m < k ==> !Contains(content, level.1[m])
      {
        hit := Contains(content, level.1[k]);
        k := k + 1;
      }
      if hit {
        priority := level.0;
        break;
      }
      assert PRIORITY_KEYWORDS[i..][1..] == PRIORITY_KEYWORDS[i + 1..];
      i := i + 1;
    }
    if priority == "低" && |content| > 2000 {
      priority := "中";
    }
  }

  /**
   * `DocumentClassifier.classify_document` of src/ingestion/document_loader_simple.py for the
   * page content and the `filename` metadata entry (`''` when absent).
   */
  method ClassifyWeighted(pageContent: String, filename: String) returns (r: Classification)
    ensures r == WeightedClassification(pageContent, filename)
    ensures r.category in Settings.DOCUMENT_CATEGORIES && r.priority in Settings.PRIORITY_LEVELS
    ensures r.tagsJoined && |r.tags| <= 5 && Distinct(r.tags)
  {
    var content := Lower(pageContent);
    var scores := ScoreCategories(content, Lower(filename));
    FinalScoresNonNegative(content, Lower(filename));
    var (category, confidence) := ChooseCategory(scores);
    var priority := PriorityOf(content);
    WeightedPriorityRules(content);
    var keywords := Extract(content, IsTagPunct, KeepTag(COMMON_WORDS), 5);
    r := Classification(category, priority, Summary(content), keywords, true, confidence, None);
  }

  // ---------------------------------------------------------------------------------------
  // src/ingestion/document_loader.py and src/ingestion/document_classifier.py: keyword presence
  // ---------------------------------------------------------------------------------------

  /** The shared `category_rules` table: seven keywords per category. */
  const PRESENCE_RULES: seq<seq<String>> := [
    ["项目", "会议", "工作", "任务", "计划", "报告", "需求"],
    ["学习", "教程", "课程", "笔记", "知识", "技能", "练习"],
    ["日记", "想法", "感悟", "生活", "家庭", "个人", "心情"],
    ["参考", "文档", "手册", "指南", "规范", "标准", "资料"],
    ["研究", "分析", "实验", "数据", "结论", "发现", "探索"],
    ["想法", "创意", "创新", "设计", "概念", "思路", "灵感"]
  ]

  /** `sum(1 for keyword in keywords if keyword in content)`. */
  function Presence(keywords: seq<String>, content: String): (r: nat)
    ensures r <= |keywords|
  {
    |Filter(keywords, (kw: String) => Contains(content, kw))|
  }

  /** The six category scores, in category order. */
  function PresenceScores(content: String): (r: seq<real>)
    ensures |r| == 6
    ensures forall i :: 0 <= i < 6 ==> r[i] == Presence(PRESENCE_RULES[i], content) as real
  {
    seq(6, i requires 0 <= i < 6 => Presence(PRESENCE_RULES[i], content) as real)
  }

  /**
   * The position of the chosen category: the first with the largest score, or that of 参考
   * when no keyword occurs. Either way its score is maximal, since then every score is 0.
   * Reading `scores.get(category, 0)` is reading the score at this position.
   */
  function PresenceChoice(scores: seq<real>): (c: nat)
    requires |scores| == 6 && forall i :: 0 <= i < 6 ==> scores[i] >= 0.0
    ensures c < 6 && forall j :: 0 <= j < 6 ==> scores[j] <= scores[c]
    ensures (forall j :: 0 <= j < 6 ==> scores[j] == 0.0) ==> CategoryAt(c) == "参考"
    ensures (exists j :: 0 <= j < 6 && scores[j] > 0.0) ==> forall j :: 0 <= j < c ==> scores[j] < scores[c]
  {
    var i := ArgMax(scores);
    if scores[i] == 0.0 then 3 else i
  }

  /** 高 for 重要 or urgent, else 中 beyond 2000 characters, else 低. */
  function PresencePriority(lowered: String, length: nat): (r: String)
    ensures r == "高" <==> Contains(lowered, "重要") || Contains(lowered, "urgent")
    ensures r == "中" <==> !Contains(lowered, "重要") && !Contains(lowered, "urgent") && length > 2000
    ensures r in Settings.PRIORITY_LEVELS
  {
    if Contains(lowered, "重要") || Contains(lowered, "urgent") then "高"
    else if length > 2000 then "中"
    else "低"
  }

  /** `score / max(len(content.split()) / 100, 1)`. */
  function PresenceConfidence(score: real, content: String): (r: real)
    ensures score >= 0.0 ==> r >= 0.0
    ensures |Words(content)| <= 100 ==> r == score
  {
    score / MaxReal(|Words(content)| as real / 100.0, 1.0)
  }

  /** `DocumentClassifier.classify_document` of src/ingestion/document_loader.py. */
  function LoaderClassification(pageContent: String): (r: Classification)
    ensures r.category in Settings.DOCUMENT_CATEGORIES && r.priority in Settings.PRIORITY_LEVELS
    ensures r.confidence >= 0.0
    ensures !r.tagsJoined && r.classificationMethod.None?
  {
    var content := Lower(pageContent);
    var scores := PresenceScores(content);
    var c := PresenceChoice(scores);
    Classification(CategoryAt(c), PresencePriority(content, |content|), Summary(content),
                   KeywordsOf(Candidates(content, IsTagPunct, KeepTag(COMMON_WORDS)), 5), false,
                   PresenceConfidence(scores[c], content), None)
  }

  /**
   * The tags of the document_loader.py classifier are a list of at most five distinct words of
   * the lower-cased content, longer than one character, not common words, most frequent first.
   */
  lemma LoaderTags(pageContent: String)
    ensures var r := LoaderClassification(pageContent);
            var words := Candidates(Lower(pageContent), IsTagPunct, KeepTag(COMMON_WORDS));
            && |r.tags| <= 5 && Distinct(r.tags)
            && (forall i :: 0 <= i < |r.tags| ==> |r.tags[i]| > 1 && r.tags[i] !in COMMON_WORDS)
            && (forall i, j :: 0 <= i < j < |r.tags| ==> CountOf(words, r.tags[i]) >= CountOf(words, r.tags[j]))
  {
    var words := Candidates(Lower(pageContent), IsTagPunct, KeepTag(COMMON_WORDS));
    var tags := KeywordsOf(words, 5);
    assert LoaderClassification(pageContent).tags == tags;
    KeywordsRanked(words, 5);
    forall i | 0 <= i < |tags| ensures |tags[i]| > 1 && tags[i] !in COMMON_WORDS {
      assert tags[i] in words;
    }
  }

  /** `_classify_with_rules` of src/ingestion/document_classifier.py. */
  function RulesClassification(content: String): (r: Classification)
    ensures r.category in Settings.DOCUMENT_CATEGORIES && r.priority in Settings.PRIORITY_LEVELS
    ensures r.confidence >= 0.0 && r.summary == Summary(content)
    ensures r.tagsJoined && r.classificationMethod == Some("rules")
  {
    var lowered := Lower(content);
    var scores := PresenceScores(lowered);
    var c := PresenceChoice(scores);
    Classification(CategoryAt(c), PresencePriority(lowered, |content|), Summary(content),
                   KeywordsOf(Candidates(content, IsTagPunct, KeepTag(CLASSIFIER_COMMON_WORDS)), 5), true,
                   PresenceConfidence(scores[c], content), Some("rules"))
  }
}

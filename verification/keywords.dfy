/**
 * Frequency-ranked keyword extraction, the shape shared by `_extract_keywords` in the three
 * classifier copies and by `extract_keywords` in src/utils/helpers.py: split on whitespace,
 * strip punctuation from both ends, keep the words a predicate accepts, count them in a
 * dictionary that remembers first occurrence, sort by count (stable, descending) and keep
 * the first `n`.
 */
module Keywords {
  import opened Common
  import opened Text
  import opened Sorting

  /** The punctuation the classifiers strip: ，。！？；：" ( ) （ ） [ ] 【 】. */
  predicate IsTagPunct(c: char) {
    c in "，。！？；：\"()（）[]【】"
  }

  /** The punctuation `extract_keywords` strips: the classifiers' set plus { } 《 》 - —. */
  predicate IsHelperPunct(c: char) {
    IsTagPunct(c) || c in "{}《》-—"
  }

  /** `common_words` of src/ingestion/document_loader_simple.py and src/ingestion/document_loader.py. */
  const COMMON_WORDS: set<String> := {"的", "了", "是", "在", "有", "和", "与", "或", "但", "而"}

  /** `common_words` of src/ingestion/document_classifier.py. */
  const CLASSIFIER_COMMON_WORDS: set<String> := COMMON_WORDS + {"这", "那", "个", "等", "及"}

  /** `stop_words` of src/utils/helpers.py. */
  const STOP_WORDS: set<String> := {
    "的", "了", "是", "在", "有", "和", "与", "或", "但", "而",
    "以及", "对于", "关于", "这个", "那个", "这些", "那些",
    "一个", "一种", "一些", "可以", "需要", "应该", "必须",
    "因为", "所以", "如果", "虽然", "然而", "但是", "不过",
    "我们", "你们", "他们", "她们", "它们", "自己", "本人",
    "很", "非常", "比较", "最", "更", "还", "也", "都", "又",
    "上", "下", "中", "内", "外", "前", "后", "左", "右"
  }

  /** Each word stripped of the given punctuation. */
  function StripEach(words: seq<String>, punct: char -> bool): (r: seq<String>)
    ensures |r| == |words|
    ensures forall i :: 0 <= i < |words| ==> r[i] == StripWith(words[i], punct)
  {
    seq(|words|, i requires 0 <= i < |words| => StripWith(words[i], punct))
  }

  /** The stripped whitespace-separated words of `content` that `keep` accepts, in order. */
  function Candidates(content: String, punct: char -> bool, keep: String -> bool): seq<String> {
    Filter(StripEach(Words(content), punct), keep)
  }

  /** One `word_freq` item. */
  datatype WordCount = WordCount(word: String, count: nat)

  /** Position of `w` among the items, if present. */
  function IndexOf(freq: seq<WordCount>, w: String): (r: Option<nat>)
    ensures r.Some? ==> r.value < |freq| && freq[r.value].word == w
    ensures r.None? ==> forall i :: 0 <= i < |freq| ==> freq[i].word != w
  {
    if freq == [] then None
    else if freq[|freq| - 1].word == w then Some(|freq| - 1)
    else IndexOf(freq[..|freq| - 1], w)
  }

  /** `word_freq[w] = word_freq.get(w, 0) + 1`. */
  function Bump(freq: seq<WordCount>, w: String): seq<WordCount> {
    match IndexOf(freq, w)
    case Some(i) => freq[i := WordCount(w, freq[i].count + 1)]
    case None => freq + [WordCount(w, 1)]
  }

  /** The `word_freq` dictionary after counting `words`, in first-occurrence order. */
  function Frequencies(words: seq<String>): seq<WordCount> {
    if words == [] then [] else Bump(Frequencies(words[..|words| - 1]), words[|words| - 1])
  }

  /** No word has two items. */
  ghost predicate DistinctWords(freq: seq<WordCount>) {
    forall i, j :: 0 <= i < j < |freq| ==> freq[i].word != freq[j].word
  }

  /**
   * The dictionary has exactly one item per distinct word, and the item's count is the
   * number of occurrences of the word.
   */
  lemma {:induction false} FrequenciesCorrect(words: seq<String>)
    ensures Counted(words, Frequencies(words))
  {
    if words != [] {
      var init, w := words[..|words| - 1], words[|words| - 1];
      assert words == init + [w];
      FrequenciesCorrect(init);
      var g := Frequencies(init);
      assert Frequencies(words) == Bump(g, w);
      forall x ensures CountOf(words, x) == CountOf(init, x) + (if w == x then 1 else 0) {
        CountOfAppend(init, [w], x);
      }
      if IndexOf(g, w).Some? {
        BumpKnown(init, w, g);
      } else {
        BumpNew(init, w, g);
      }
    }
  }

  /**
   * `freq` counts `words`: one item per distinct word, each with the word's number of
   * occurrences, and every word has an item.
   */
  ghost predicate Counted(words: seq<String>, f: seq<WordCount>) {
    && DistinctWords(f)
    && (forall i :: 0 <= i < |f| ==> f[i].count == CountOf(words, f[i].word) && f[i].word in words)
    && (forall w :: w in words ==> IndexOf(f, w).Some?)
  }

  /** Counting a word found at position `j` increments that item. */
  lemma BumpAt(g: seq<WordCount>, w: String, j: nat)
    requires IndexOf(g, w) == Some(j) && j < |g|
    ensures Bump(g, w) == g[j := WordCount(w, g[j].count + 1)]
  {
  }

  /** Counting a word seen before increments its item. */
  lemma BumpKnown(init: seq<String>, w: String, g: seq<WordCount>)
    requires Counted(init, g) && IndexOf(g, w).Some?
    requires forall x :: CountOf(init + [w], x) == CountOf(init, x) + (if w == x then 1 else 0)
    ensures Counted(init + [w], Bump(g, w))
  {
    var words := init + [w];
    var j := IndexOf(g, w).value;
    var f := g[j := WordCount(w, g[j].count + 1)];
    BumpAt(g, w, j);
    forall i | 0 <= i < |f| ensures f[i].count == CountOf(words, f[i].word) && f[i].word in words {
      if i != j {
        assert f[i] == g[i];
      }
    }
    forall x | x in words ensures IndexOf(f, x).Some? {
      if x != w {
        var k := IndexOf(g, x).value;
        assert f[k].word == x;
        IndexOfComplete(f, k);
      } else {
        IndexOfComplete(f, j);
      }
    }
  }

  /** Counting a new word appends an item with count 1. */
  lemma BumpNew(init: seq<String>, w: String, g: seq<WordCount>)
    requires Counted(init, g) && IndexOf(g, w).None?
    requires forall x :: CountOf(init + [w], x) == CountOf(init, x) + (if w == x then 1 else 0)
    ensures Counted(init + [w], Bump(g, w))
  {
    var words := init + [w];
    var f := g + [WordCount(w, 1)];
    assert Bump(g, w) == f;
    CountOfPositive(init, w);
    forall i | 0 <= i < |f| ensures f[i].count == CountOf(words, f[i].word) && f[i].word in words {
      if i < |g| {
        assert f[i] == g[i];
      }
    }
    forall x | x in words ensures IndexOf(f, x).Some? {
      if x != w {
        var k := IndexOf(g, x).value;
        assert f[k].word == x;
        IndexOfComplete(f, k);
      } else {
        IndexOfComplete(f, |g|);
      }
    }
  }

  lemma IndexOfComplete(freq: seq<WordCount>, j: nat)
    requires j < |freq|
    ensures IndexOf(freq, freq[j].word).Some?
  {
  }

  /** The sort key: the count. */
  function ByCount(e: WordCount): real { e.count as real }

  /** The words of the items. */
  function WordsOf(freq: seq<WordCount>): (r: seq<String>)
    ensures |r| == |freq|
    ensures forall i :: 0 <= i < |freq| ==> r[i] == freq[i].word
  {
    seq(|freq|, i requires 0 <= i < |freq| => freq[i].word)
  }

  /** `[word for word, freq in sorted(word_freq.items(), key=count, reverse=True)[:n]]`. */
  function Top(freq: seq<WordCount>, n: nat): seq<String> {
    WordsOf(Take(SortDesc(freq, ByCount), n))
  }

  /** The keywords of a word list: its `n` most frequent words. */
  function KeywordsOf(words: seq<String>, n: nat): seq<String> {
    Top(Frequencies(words), n)
  }

  /** The dictionary's items after sorting: counts, words and distinctness carry over. */
  lemma SortedFacts(words: seq<String>)
    ensures var s := SortDesc(Frequencies(words), ByCount);
            && multiset(s) == multiset(Frequencies(words))
            && NonIncreasing(s, ByCount)
            && DistinctWords(s)
            && (forall i :: 0 <= i < |s| ==> s[i].count == CountOf(words, s[i].word) && s[i].word in words)
  {
    var f := Frequencies(words);
    FrequenciesCorrect(words);
    var s := SortDesc(f, ByCount);
    SortDescPermutation(f, ByCount);
    SortDescSorted(f, ByCount);
    forall i | 0 <= i < |s| ensures s[i].count == CountOf(words, s[i].word) && s[i].word in words {
      assert s[i] in multiset(f);
      var j :| 0 <= j < |f| && f[j] == s[i];
    }
    forall i, j | 0 <= i < j < |s| ensures s[i].word != s[j].word {
      SortedWordsDistinct(f, s, i, j);
    }
  }

  /**
   * The keywords are at most `n` distinct words of the input, ordered by non-increasing
   * frequency.
   */
  lemma KeywordsRanked(words: seq<String>, n: nat)
    ensures var r := KeywordsOf(words, n);
            && |r| <= n
            && Distinct(r)
            && (forall i :: 0 <= i < |r| ==> r[i] in words)
            && (forall i, j :: 0 <= i < j < |r| ==> CountOf(words, r[i]) >= CountOf(words, r[j]))
  {
    SortedFacts(words);
    var s := SortDesc(Frequencies(words), ByCount);
    var r := KeywordsOf(words, n);
    assert |r| <= |s| && forall i :: 0 <= i < |r| ==> r[i] == s[i].word;
    forall i, j | 0 <= i < j < |r| ensures r[i] != r[j] && CountOf(words, r[i]) >= CountOf(words, r[j]) {
      assert ByCount(s[i]) >= ByCount(s[j]);
    }
    forall i | 0 <= i < |r| ensures r[i] in words {
      assert r[i] == s[i].word;
    }
  }

  /**
   * The keywords are the most frequent words: every input word left out is no more frequent
   * than any chosen one, and when fewer than `n` are returned, no word is left out.
   */
  lemma KeywordsAreTop(words: seq<String>, n: nat)
    ensures var r := KeywordsOf(words, n);
            && (forall w, i :: w in words && w !in r && 0 <= i < |r| ==> CountOf(words, w) <= CountOf(words, r[i]))
            && (|r| < n ==> forall w :: w in words ==> w in r)
  {
    LeftOutNoMoreFrequent(words, n);
    if |KeywordsOf(words, n)| < n {
      ShortListHasAll(words, n);
    }
  }

  /** Every input word left out is no more frequent than any chosen keyword. */
  lemma LeftOutNoMoreFrequent(words: seq<String>, n: nat)
    ensures var r := KeywordsOf(words, n);
            forall w, i :: w in words && w !in r && 0 <= i < |r| ==> CountOf(words, w) <= CountOf(words, r[i])
  {
    SortedFacts(words);
    FrequenciesCorrect(words);
    var f := Frequencies(words);
    var s := SortDesc(f, ByCount);
    var r := KeywordsOf(words, n);
    assert forall i :: 0 <= i < |r| ==> r[i] == s[i].word;
    forall w, i | w in words && w !in r && 0 <= i < |r| ensures CountOf(words, w) <= CountOf(words, r[i]) {
      var m := SortedPosition(f, s, w);
      assert ByCount(s[i]) >= ByCount(s[m]);
    }
  }

  /** Fewer than `n` keywords means every input word is among them. */
  lemma ShortListHasAll(words: seq<String>, n: nat)
    requires |KeywordsOf(words, n)| < n
    ensures forall w :: w in words ==> w in KeywordsOf(words, n)
  {
    SortedFacts(words);
    FrequenciesCorrect(words);
    var f := Frequencies(words);
    var s := SortDesc(f, ByCount);
    var r := KeywordsOf(words, n);
    assert forall i :: 0 <= i < |r| ==> r[i] == s[i].word;
    forall w | w in words ensures w in r {
      var m := SortedPosition(f, s, w);
      assert r[m] == w;
    }
  }

  /** A word of the input has an item somewhere in the sorted list. */
  lemma SortedPosition(f: seq<WordCount>, s: seq<WordCount>, w: String) returns (m: nat)
    requires multiset(s) == multiset(f)
    requires IndexOf(f, w).Some?
    ensures m < |s| && s[m].word == w
  {
    var j := IndexOf(f, w).value;
    assert f[j] in multiset(s);
    m :| 0 <= m < |s| && s[m] == f[j];
  }

  /** Sorting a dictionary's items keeps their words distinct. */
  lemma SortedWordsDistinct(f: seq<WordCount>, s: seq<WordCount>, i: nat, j: nat)
    requires multiset(s) == multiset(f) && DistinctWords(f)
    requires i < j < |s|
    ensures s[i].word != s[j].word
  {
    if s[i].word == s[j].word {
      assert s[i] in multiset(f) && s[j] in multiset(f);
      var a :| 0 <= a < |f| && f[a] == s[i];
      var b :| 0 <= b < |f| && f[b] == s[j];
      assert a == b;
      TwiceInMultiset(s, i, j);
      OnceInMultiset(f, a);
      assert false;
    }
  }

  lemma TwiceInMultiset<T>(s: seq<T>, i: nat, j: nat)
    requires i < j < |s| && s[i] == s[j]
    ensures multiset(s)[s[i]] >= 2
  {
    assert s == s[..i] + [s[i]] + s[i + 1..j] + [s[j]] + s[j + 1..];
  }

  lemma OnceInMultiset(f: seq<WordCount>, a: nat)
    requires DistinctWords(f) && a < |f|
    ensures multiset(f)[f[a]] == 1
  {
    assert f == f[..a] + [f[a]] + f[a + 1..];
    assert f[a] !in multiset(f[..a]) by {
      forall k | 0 <= k < a ensures f[k] != f[a] { }
    }
    assert f[a] !in multiset(f[a + 1..]) by {
      forall k | a < k < |f| ensures f[k] != f[a] { }
    }
  }

  /**
   * The `word_freq` loop: counts each word in a dictionary that keeps first-occurrence order.
   */
  method CountWords(words: seq<String>) returns (freq: seq<WordCount>)
    ensures freq == Frequencies(words)
  {
    freq := [];
    var i := 0;
    while i < |words|
      invariant 0 <= i <= |words|
      invariant freq == Frequencies(words[..i])
    {
      assert words[..i + 1][..i] == words[..i];
      var w := words[i];
      var found := FindWord(freq, w);
      UniqueIndex(words[..i], w, found);
      if found >= 0 {
        freq := freq[found := WordCount(w, freq[found].count + 1)];
      } else {
        freq := freq + [WordCount(w, 1)];
      }
      i := i + 1;
    }
    assert words[..i] == words;
  }

  /** The dictionary lookup of `word_freq.get(w, 0)`: the position of `w`, or -1. */
  method FindWord(freq: seq<WordCount>, w: String) returns (found: int)
    ensures found < 0 ==> forall m :: 0 <= m < |freq| ==> freq[m].word != w
    ensures found >= 0 ==> found < |freq| && freq[found].word == w
  {
    var k := 0;
    found := -1;
    while k < |freq| && found < 0
      invariant 0 <= k <= |freq|
      invariant found < 0 ==> forall m :: 0 <= m < k ==> freq[m].word != w
      invariant found >= 0 ==> found < |freq| && freq[found].word == w
    {
      if freq[k].word == w {
        found := k;
      }
      k := k + 1;
    }
  }

  /** In a counted dictionary, the position of a word is the one `IndexOf` gives. */
  lemma UniqueIndex(words: seq<String>, w: String, found: int)
    requires var f := Frequencies(words);
             (found < 0 ==> forall m :: 0 <= m < |f| ==> f[m].word != w)
             && (found >= 0 ==> found < |f| && f[found].word == w)
    ensures found < 0 ==> IndexOf(Frequencies(words), w).None?
    ensures found >= 0 ==> IndexOf(Frequencies(words), w) == Some(found)
  {
    FrequenciesCorrect(words);
  }

  /**
   * A keyword extraction: the candidates of `content`, counted by `CountWords`, ranked by
   * count, first `n` words.
   */
  method Extract(content: String, punct: char -> bool, keep: String -> bool, n: nat) returns (r: seq<String>)
    ensures r == KeywordsOf(Candidates(content, punct, keep), n)
    ensures |r| <= n && Distinct(r) && forall i :: 0 <= i < |r| ==> keep(r[i])
  {
    var words := Candidates(content, punct, keep);
    var freq := CountWords(words);
    var sorted := SortDesc(freq, ByCount);
    r := WordsOf(Take(sorted, n));
    KeywordsRanked(words, n);
  }

  /** The classifiers' filter: longer than one character and not a common word. */
  function KeepTag(common: set<String>): String -> bool {
    w => |w| > 1 && w !in common
  }

  /** `str.isalnum()` on one character: ASCII letters and digits and the CJK unified ideographs. */
  predicate IsAlnumChar(c: char) {
    ('a' <= c <= 'z') || ('A' <= c <= 'Z') || ('0' <= c <= '9') || ('一' <= c <= '鿿')
  }

  /** `extract_keywords`' filter: longer than one character, not a stop word, alphanumeric. */
  function KeepHelperWord(w: String): bool {
    |w| > 1 && w !in STOP_WORDS && forall i :: 0 <= i < |w| ==> IsAlnumChar(w[i])
  }
}

/**
 * `SearchHistoryManager` of src/utils/search_history.py: a bounded history of searches (a
 * `deque(maxlen=max_records)`) with blank and consecutive-duplicate insertions skipped,
 * newest-first views, a case-insensitive search, statistics and the dropdown of distinct queries.
 * The JSON file behind the history and the clock are not modelled; the two time strings of a
 * record are parameters.
 */
module SearchHistory {
  import opened Common
  import opened Text
  import opened Sorting
  import opened Keywords

  /** One search record. */
  datatype Record = Record(query: String, mode: String, topK: int, resultsCount: int,
                           timestamp: String, date: String)

  /** `deque.append` on a deque with `maxlen`: the oldest records fall off the front. */
  function Append(history: seq<Record>, record: Record, maxRecords: nat): (r: seq<Record>)
    ensures |r| == Min(|history| + 1, maxRecords)
    ensures r == Last(history + [record], maxRecords)
  {
    Last(history + [record], maxRecords)
  }

  /** The last record has the same query and mode. */
  predicate RepeatsLast(history: seq<Record>, query: String, mode: String) {
    |history| > 0 && history[|history| - 1].query == query && history[|history| - 1].mode == mode
  }

  /** The history after `add_search`. */
  function AfterAdd(history: seq<Record>, maxRecords: nat, query: String, mode: String, topK: int,
                    resultsCount: int, timestamp: String, date: String): seq<Record> {
    if query == [] || IsBlank(query) then history
    else if RepeatsLast(history, Strip(query), mode) then history
    else Append(history, Record(Strip(query), mode, topK, resultsCount, timestamp, date), maxRecords)
  }

  /**
   * Adding never lets the history exceed `maxRecords`; a blank query or a repeat of the last
   * record's query and mode changes nothing; otherwise the new last record carries the stripped
   * query, and when the history was full, its oldest record is gone.
   */
  lemma AfterAddRules(history: seq<Record>, maxRecords: nat, query: String, mode: String, topK: int,
                      resultsCount: int, timestamp: String, date: String)
    requires |history| <= maxRecords
    ensures var h := AfterAdd(history, maxRecords, query, mode, topK, resultsCount, timestamp, date);
            && |h| <= maxRecords
            && (IsBlank(query) ==> h == history)
            && (!IsBlank(query) && RepeatsLast(history, Strip(query), mode) ==> h == history)
            && (!IsBlank(query) && !RepeatsLast(history, Strip(query), mode) && maxRecords > 0 ==>
                  h[|h| - 1] == Record(Strip(query), mode, topK, resultsCount, timestamp, date)
                  && (|history| < maxRecords ==> h[..|h| - 1] == history)
                  && (|history| == maxRecords ==> h[..|h| - 1] == history[1..]))
  {
    var h := AfterAdd(history, maxRecords, query, mode, topK, resultsCount, timestamp, date);
    if query == [] {
      assert IsBlank(query);
    }
    if !IsBlank(query) && !RepeatsLast(history, Strip(query), mode) && maxRecords > 0 {
      var record := Record(Strip(query), mode, topK, resultsCount, timestamp, date);
      var all := history + [record];
      assert h == all[|all| - |h|..];
      assert h[|h| - 1] == all[|all| - 1];
      if |history| < maxRecords {
        assert h == all;
      } else {
        assert h[..|h| - 1] == all[1..|all| - 1] == history[1..];
      }
    }
  }

  /** `list(history)[-limit:]` reversed: the newest first. `limit` 0 means all, as `[-0:]` does. */
  function Recent(history: seq<Record>, limit: int): (r: seq<Record>)
    ensures limit > 0 ==> |r| == Min(limit, |history|)
    ensures limit == 0 ==> |r| == |history|
    ensures |r| <= |history| && forall i :: 0 <= i < |r| ==> r[i] == history[|history| - 1 - i]
  {
    Reverse(SliceFrom(history, -limit))
  }

  /** The records whose query contains the keyword, ignoring ASCII case. */
  function Matching(history: seq<Record>, keyword: String): (r: seq<Record>)
    ensures forall i :: 0 <= i < |r| ==> r[i] in history && Contains(Lower(r[i].query), Lower(keyword))
    ensures forall i :: 0 <= i < |history| && Contains(Lower(history[i].query), Lower(keyword)) ==> history[i] in r
  {
    Filter(history, (rec: Record) => Contains(Lower(rec.query), Lower(keyword)))
  }

  /** What `get_statistics` reports. `most_common_queries` and `modes_distribution` are counts. */
  datatype Statistics = Statistics(totalSearches: nat, uniqueQueries: nat,
                                   mostCommonQueries: seq<WordCount>, modesDistribution: seq<WordCount>)

  function Queries(history: seq<Record>): (r: seq<String>)
    ensures |r| == |history| && forall i :: 0 <= i < |history| ==> r[i] == history[i].query
  {
    seq(|history|, i requires 0 <= i < |history| => history[i].query)
  }

  function Modes(history: seq<Record>): (r: seq<String>)
    ensures |r| == |history| && forall i :: 0 <= i < |history| ==> r[i] == history[i].mode
  {
    seq(|history|, i requires 0 <= i < |history| => history[i].mode)
  }

  /** `Counter(queries).most_common(5)`: counts sorted descending, ties in first-seen order. */
  function MostCommon(words: seq<String>, n: nat): seq<WordCount> {
    Take(SortDesc(Frequencies(words), ByCount), n)
  }

  /** The set of a sequence's elements. */
  function Elements(s: seq<String>): set<String> {
    set x | x in s
  }

  /** A sequence without repetition has as many elements as its set. */
  lemma {:induction false} DistinctCardinality(s: seq<String>)
    requires Distinct(s)
    ensures |Elements(s)| == |s|
  {
    if s != [] {
      var init := s[..|s| - 1];
      assert Elements(s) == Elements(init) + {s[|s| - 1]};
      assert s[|s| - 1] !in Elements(init);
      DistinctCardinality(init);
    }
  }

  /** The number of dictionary items is the number of distinct words counted. */
  lemma UniqueCount(words: seq<String>)
    ensures |Frequencies(words)| == |Elements(words)|
  {
    var f := Frequencies(words);
    FrequenciesCorrect(words);
    var ws := WordsOf(f);
    assert Elements(ws) == Elements(words) by {
      forall w | w in words ensures w in Elements(ws) {
        var k := IndexOf(f, w).value;
        assert ws[k] == w;
      }
    }
    DistinctCardinality(ws);
  }

  /** The statistics of a history. */
  function StatisticsOf(history: seq<Record>): Statistics {
    Statistics(|history|, |Frequencies(Queries(history))|, MostCommon(Queries(history), 5),
               Frequencies(Modes(history)))
  }

  /** The first occurrence of every non-empty query, in the given order. */
  function Choices(records: seq<Record>): seq<String> {
    if records == [] then []
    else
      var before := Choices(records[..|records| - 1]);
      var q := records[|records| - 1].query;
      if q != [] && q !in before then before + [q] else before
  }

  /** The choices are distinct, non-empty queries of the records. */
  lemma {:induction false} ChoicesDrawn(records: seq<Record>)
    ensures var c := Choices(records);
            && Distinct(c)
            && forall i :: 0 <= i < |c| ==> c[i] != [] && exists j :: 0 <= j < |records| && records[j].query == c[i]
  {
    if records != [] {
      var init := records[..|records| - 1];
      ChoicesDrawn(init);
      var c := Choices(records);
      var before := Choices(init);
      forall i | 0 <= i < |c| ensures c[i] != [] && exists j :: 0 <= j < |records| && records[j].query == c[i] {
        if i < |before| {
          var j :| 0 <= j < |init| && init[j].query == before[i];
          assert records[j] == init[j];
        } else {
          assert records[|records| - 1].query == c[i];
        }
      }
    }
  }

  /** Every non-empty query of the records is among the choices. */
  lemma {:induction false} ChoicesComplete(records: seq<Record>)
    ensures forall j :: 0 <= j < |records| && records[j].query != [] ==> records[j].query in Choices(records)
  {
    if records != [] {
      var init := records[..|records| - 1];
      ChoicesComplete(init);
      forall j | 0 <= j < |records| - 1 && records[j].query != [] ensures records[j].query in Choices(records) {
        assert init[j] == records[j];
      }
    }
  }

  /** The choices appear in the order of the first record carrying each. */
  lemma {:induction false} ChoicesOrdered(records: seq<Record>)
    ensures var c := Choices(records);
            forall i, k :: 0 <= i < k < |c| ==> FirstWith(records, c[i]) < FirstWith(records, c[k])
  {
    if records != [] {
      var init := records[..|records| - 1];
      ChoicesOrdered(init);
      ChoicesDrawn(init);
      var before := Choices(init);
      var q := records[|records| - 1].query;
      forall i | 0 <= i < |before| ensures FirstWith(records, before[i]) == FirstWith(init, before[i]) {
        var j :| 0 <= j < |init| && init[j].query == before[i];
        assert records[j] == init[j];
        FirstWithPrefix(records, before[i]);
      }
      if q != [] && q !in before {
        ChoicesComplete(init);
        forall j | 0 <= j < |init| ensures init[j].query != q {
        }
        FirstWithLast(records, q);
        forall i | 0 <= i < |before| ensures FirstWith(init, before[i]) < |init| {
          var j :| 0 <= j < |init| && init[j].query == before[i];
          FirstWithBound(init, before[i]);
        }
        var c := Choices(records);
        assert c == before + [q];
        forall i, k | 0 <= i < k < |c| ensures FirstWith(records, c[i]) < FirstWith(records, c[k]) {
          if k == |before| {
            assert c[i] == before[i] && c[k] == q;
          } else {
            assert c[i] == before[i] && c[k] == before[k];
          }
        }
      }
    }
  }

  /** The position of the first record with the query (`|records|` if none). */
  function FirstWith(records: seq<Record>, q: String): (r: nat)
    ensures r <= |records|
    ensures r < |records| ==> records[r].query == q
    ensures forall j :: 0 <= j < r ==> records[j].query != q
  {
    if records == [] then 0
    else if records[0].query == q then 0
    else 1 + FirstWith(records[1..], q)
  }

  lemma FirstWithBound(records: seq<Record>, q: String)
    requires exists j :: 0 <= j < |records| && records[j].query == q
    ensures FirstWith(records, q) < |records|
  {
  }

  lemma FirstWithPrefix(records: seq<Record>, q: String)
    requires |records| > 0
    requires exists j :: 0 <= j < |records| - 1 && records[j].query == q
    ensures FirstWith(records, q) == FirstWith(records[..|records| - 1], q)
  {
    if records[0].query != q {
      assert records[1..][..|records[1..]| - 1] == records[..|records| - 1][1..];
    }
  }

  lemma FirstWithLast(records: seq<Record>, q: String)
    requires |records| > 0 && records[|records| - 1].query == q
    requires forall j :: 0 <= j < |records| - 1 ==> records[j].query != q
    ensures FirstWith(records, q) == |records| - 1
  {
  }

  class SearchHistoryManager {
    /** The records, oldest first. */
    var history: seq<Record>
    const maxRecords: nat

    ghost predicate Valid()
      reads this
    {
      |history| <= maxRecords
    }

    /** A manager with an empty history (the history file is not modelled). */
    constructor(maxRecords: nat)
      ensures Valid() && this.maxRecords == maxRecords && history == []
    {
      this.maxRecords := maxRecords;
      history := [];
    }

    /**
     * `_load_history` given the records read from the file (`deque(data, maxlen=max_records)`
     * keeps the last `maxRecords` of them); a missing or unreadable file is `None`.
     */
    method LoadHistory(data: Option<seq<Record>>)
      modifies this
      ensures Valid()
      ensures data.None? ==> history == []
      ensures data.Some? ==> history == Last(data.value, maxRecords)
    {
      match data
      case None => history := [];
      case Some(records) => history := Last(records, maxRecords);
    }

    /** `add_search`. */
    method AddSearch(query: String, mode: String, topK: int, resultsCount: int, timestamp: String, date: String)
      requires Valid()
      modifies this
      ensures Valid()
      ensures history == AfterAdd(old(history), maxRecords, query, mode, topK, resultsCount, timestamp, date)
    {
      if query == [] || IsBlank(query) {
        return;
      }
      var record := Record(Strip(query), mode, topK, resultsCount, timestamp, date);
      if |history| > 0 {
        var last := history[|history| - 1];
        if last.query == record.query && last.mode == record.mode {
          return;
        }
      }
      history := Append(history, record, maxRecords);
    }

    /** `get_recent(limit)`: the last `limit` records, newest first (all of them for 0). */
    method GetRecent(limit: int) returns (r: seq<Record>)
      ensures r == Recent(history, limit)
      ensures limit == 0 ==> |r| == |history|
      ensures limit > 0 ==> |r| == Min(limit, |history|)
      ensures forall i :: 0 <= i < |r| ==> r[i] == history[|history| - 1 - i]
    {
      r := Reverse(SliceFrom(history, -limit));
    }

    /** `search_history(keyword)`: the recent ten for an empty keyword, else the matches newest first. */
    method SearchHistory(keyword: String) returns (r: seq<Record>)
      ensures keyword == [] ==> r == Recent(history, 10)
      ensures keyword != [] ==> r == Reverse(Matching(history, keyword))
      ensures keyword != [] ==> forall i :: 0 <= i < |r| ==> r[i] in history && Contains(Lower(r[i].query), Lower(keyword))
    {
      if keyword == [] {
        r := GetRecent(10);
        return;
      }
      var matches := Matching(history, keyword);
      r := Reverse(matches);
      assert forall i :: 0 <= i < |r| ==> r[i] == matches[|matches| - 1 - i];
    }

    /** `clear_history`. */
    method ClearHistory()
      modifies this
      ensures history == [] && Valid()
    {
      history := [];
    }

    /**
     * `get_statistics`: the number of searches, the number of distinct queries, the five most
     * common queries and the count of every mode.
     */
    method GetStatistics() returns (s: Statistics)
      ensures s == StatisticsOf(history)
      ensures s.totalSearches == |history| && s.uniqueQueries == |Elements(Queries(history))|
      ensures |s.mostCommonQueries| <= 5 && NonIncreasing(s.mostCommonQueries, ByCount)
    {
      var queries := Queries(history);
      UniqueCount(queries);
      SortDescSorted(Frequencies(queries), ByCount);
      s := Statistics(|history|, |Frequencies(queries)|, MostCommon(queries, 5), Frequencies(Modes(history)));
    }

    /** `get_history_dropdown_choices(limit)`: distinct non-empty queries of the recent records. */
    method DropdownChoices(limit: int) returns (choices: seq<String>)
      ensures choices == Choices(Recent(history, limit))
      ensures Distinct(choices) && forall i :: 0 <= i < |choices| ==> choices[i] != []
    {
      var recent := GetRecent(limit);
      choices := DistinctQueries(recent);
      ChoicesDrawn(recent);
    }
  }

  /** The loop of `get_history_dropdown_choices`: a `seen` set filters repeated and empty queries. */
  method DistinctQueries(records: seq<Record>) returns (choices: seq<String>)
    ensures choices == Choices(records)
  {
    var seen: set<String> := {};
    choices := [];
    var i := 0;
    while i < |records|
      invariant 0 <= i <= |records|
      invariant choices == Choices(records[..i])
      invariant seen == Elements(choices)
    {
      assert records[..i + 1][..i] == records[..i];
      var query := records[i].query;
      if query != [] && query !in seen {
        ElementsSnoc(choices, query);
        seen := seen + {query};
        choices := choices + [query];
      }
      i := i + 1;
    }
    assert records[..i] == records;
  }

  /** Appending an element adds it to the set of elements. */
  lemma ElementsSnoc(s: seq<String>, x: String)
    ensures Elements(s + [x]) == Elements(s) + {x}
  {
  }
}

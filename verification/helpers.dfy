/**
 * The small helpers of src/utils/helpers.py: text truncation, file-name cleaning, keyword
 * extraction, file-size units, batching, document ids and the standard response dictionary.
 * MD5 is a parameter (`digest`); the clock value of a response is a parameter too.
 */
module Helpers {
  import opened Common
  import opened Text
  import opened Keywords

  /** Python `s[:end]` for any integer `end` (negative counts from the end). */
  function PrefixTo<T>(s: seq<T>, end: int): (r: seq<T>)
    ensures |r| <= |s| && r == s[..|r|]
    ensures end >= 0 ==> |r| == Min(end, |s|)
    ensures end < 0 ==> |r| == Max(0, |s| + end)
  {
    if end >= 0 then Take(s, end)
    else if |s| + end >= 0 then s[..|s| + end]
    else []
  }

  // ---------------------------------------------------------------- truncate_text

  /** `truncate_text`: the text if it fits, else its head followed by "...". */
  function TruncateText(text: String, maxLength: int): (r: String)
    ensures |text| <= maxLength ==> r == text
    ensures |text| > maxLength ==> r == PrefixTo(text, maxLength - 3) + "..."
    ensures |text| > maxLength >= 3 ==> |r| == maxLength && r[..maxLength - 3] == text[..maxLength - 3]
                                        && r[maxLength - 3..] == "..."
  {
    if |text| <= maxLength then text else PrefixTo(text, maxLength - 3) + "..."
  }

  // ---------------------------------------------------------------- sanitize_filename

  /** The characters `sanitize_filename` replaces with '_'. */
  const UNSAFE: String := "<>:\"/\\|?*"

  /** `s.replace(c, d)` for single characters. */
  function ReplaceChar(s: String, c: char, d: char): (r: String)
    ensures |r| == |s|
    ensures forall i :: 0 <= i < |s| ==> r[i] == (if s[i] == c then d else s[i])
  {
    seq(|s|, i requires 0 <= i < |s| => if s[i] == c then d else s[i])
  }

  /** `s` with every character of `chars` replaced by '_'. */
  function Masked(s: String, chars: String): (r: String)
    ensures |r| == |s|
    ensures forall i :: 0 <= i < |s| ==> r[i] == (if s[i] in chars then '_' else s[i])
  {
    seq(|s|, i requires 0 <= i < |s| => if s[i] in chars then '_' else s[i])
  }

  /** The replacement loop of `sanitize_filename`. */
  method ReplaceUnsafe(filename: String) returns (r: String)
    ensures r == Masked(filename, UNSAFE)
    ensures |r| == |filename| && forall i :: 0 <= i < |r| ==> r[i] !in UNSAFE
  {
    r := filename;
    var k := 0;
    while k < |UNSAFE|
      invariant 0 <= k <= |UNSAFE|
      invariant r == Masked(filename, UNSAFE[..k])
    {
      assert UNSAFE[..k + 1] == UNSAFE[..k] + [UNSAFE[k]];
      r := ReplaceChar(r, UNSAFE[k], '_');
      k := k + 1;
    }
    assert UNSAFE[..k] == UNSAFE;
  }

  /** The position of the last occurrence of `c`. */
  function LastIndexOf(s: String, c: char): (r: Option<nat>)
    ensures r.Some? ==> r.value < |s| && s[r.value] == c && forall j :: r.value < j < |s| ==> s[j] != c
    ensures r.None? ==> forall j :: 0 <= j < |s| ==> s[j] != c
  {
    if s == [] then None
    else if s[|s| - 1] == c then Some(|s| - 1)
    else LastIndexOf(s[..|s| - 1], c)
  }

  /**
   * `os.path.splitext` for a name without path separators: the extension starts at the last
   * dot, unless only dots precede it (a leading-dot name has no extension).
   */
  function SplitExt(p: String): (r: (String, String))
    ensures r.0 + r.1 == p
    ensures r.1 != [] ==> r.1[0] == '.' && forall j :: 0 < j < |r.1| ==> r.1[j] != '.'
  {
    match LastIndexOf(p, '.')
    case None => (p, [])
    case Some(d) =>
      if exists k :: 0 <= k < d && p[k] != '.' then (p[..d], p[d..]) else (p, [])
  }

  /** The length rule of `sanitize_filename` once `os` is available. */
  function Shorten(filename: String): (r: String)
    ensures |filename| <= 200 ==> r == filename
  {
    if |filename| > 200 then
      var (name, ext) := SplitExt(filename);
      PrefixTo(name, 200 - |ext|) + ext
    else filename
  }

  /**
   * `sanitize_filename` as written: helpers.py never imports `os`, so every name longer than
   * 200 characters ends in a `NameError` at `os.path.splitext`.
   */
  function SanitizeFilenameAsWritten(filename: String): (r: Result<String>)
    ensures |filename| <= 200 <==> r.Ok?
  {
    var cleaned := Masked(filename, UNSAFE);
    if |cleaned| > 200 then Err("NameError: name 'os' is not defined") else Ok(cleaned)
  }

  /** A 201-character name makes the function as written fail. */
  lemma LongNameFails()
    ensures SanitizeFilenameAsWritten(seq(201, i => 'a')).Err?
  {
  }

  /**
   * `sanitize_filename` with `os` imported: no unsafe character remains; a name of at most 200
   * characters keeps its length; a longer one is cut to 200 characters keeping its extension
   * (when the extension itself fits).
   */
  method SanitizeFilename(filename: String) returns (r: String)
    ensures r == Shorten(Masked(filename, UNSAFE))
    ensures forall i :: 0 <= i < |r| ==> r[i] !in UNSAFE
    ensures |filename| <= 200 ==> r == Masked(filename, UNSAFE) && |r| == |filename|
    ensures |filename| > 200 ==> var ext := SplitExt(Masked(filename, UNSAFE)).1;
              |ext| <= |r| && r[|r| - |ext|..] == ext && (|ext| <= 200 ==> |r| == 200)
  {
    r := ReplaceUnsafe(filename);
    if |r| > 200 {
      ShortenKeepsExtension(r);
      r := Shorten(r);
    }
  }

  /**
   * Shortening a long masked name introduces no unsafe character, ends with the extension, and
   * gives exactly 200 characters when the extension fits.
   */
  lemma ShortenKeepsExtension(cleaned: String)
    requires |cleaned| > 200 && forall i :: 0 <= i < |cleaned| ==> cleaned[i] !in UNSAFE
    ensures var r, ext := Shorten(cleaned), SplitExt(cleaned).1;
            && (forall i :: 0 <= i < |r| ==> r[i] !in UNSAFE)
            && |ext| <= |r| && r[|r| - |ext|..] == ext
            && (|ext| <= 200 ==> |r| == 200)
  {
    var (name, ext) := SplitExt(cleaned);
    var p := PrefixTo(name, 200 - |ext|);
    var r := p + ext;
    assert Shorten(cleaned) == r;
    forall i | 0 <= i < |r| ensures r[i] !in UNSAFE {
      if i < |p| {
        assert r[i] == name[i] == cleaned[i];
      } else {
        assert r[i] == ext[i - |p|] == cleaned[|name| + i - |p|];
      }
    }
    assert r[|r| - |ext|..] == ext;
  }

  // ---------------------------------------------------------------- extract_keywords

  /**
   * `extract_keywords`: `text.replace("\n", " ").split()` is `text.split()`, since both are
   * whitespace to `split`; the words are stripped of `IsHelperPunct`, filtered by
   * `KeepHelperWord` and ranked by frequency.
   */
  method ExtractKeywords(text: String, maxKeywords: nat) returns (r: seq<String>)
    ensures r == KeywordsOf(Candidates(text, IsHelperPunct, KeepHelperWord), maxKeywords)
    ensures |r| <= maxKeywords && Distinct(r)
    ensures forall i :: 0 <= i < |r| ==> KeepHelperWord(r[i]) && r[i] !in STOP_WORDS && |r[i]| > 1
    ensures text == [] ==> r == []
  {
    r := Extract(text, IsHelperPunct, KeepHelperWord, maxKeywords);
    if text == [] {
      assert Words(text) == [];
    }
  }

  // ---------------------------------------------------------------- format_file_size

  /** `size_names`. */
  const SIZE_NAMES: seq<String> := ["B", "KB", "MB", "GB"]

  /** What `format_file_size` prints: "0B", or `f"{value:.1f}{SIZE_NAMES[unit]}"`. */
  datatype SizeText = Zero | Formatted(value: real, unit: nat)

  function Power1024(n: nat): (r: real)
    ensures r >= 1.0
  {
    if n == 0 then 1.0 else 1024.0 * Power1024(n - 1)
  }

  /**
   * The division loop from unit `i`: `size` divided by 1024 while it is at least 1024 and the
   * unit is below GB. The result times 1024 to the units gained is `size`; it is below 1024
   * unless GB was reached, and at least 1 when any division happened.
   */
  function ScaleDown(size: real, i: nat): (r: (real, nat))
    requires i <= 3
    ensures i <= r.1 <= 3
    ensures r.0 * Power1024(r.1 - i) == size
    ensures r.1 < 3 ==> r.0 < 1024.0
    ensures r.1 > i ==> r.0 >= 1.0
    decreases 3 - i
  {
    if size >= 1024.0 && i < 3 then
      var q := size / 1024.0;
      var r := ScaleDown(q, i + 1);
      assert r.0 * Power1024(r.1 - i) == 1024.0 * (r.0 * Power1024(r.1 - (i + 1)));
      assert r.1 > i + 1 || r.0 == q;
      r
    else (size, i)
  }

  /** `format_file_size`. */
  method FormatFileSize(sizeBytes: int) returns (r: SizeText)
    ensures sizeBytes == 0 <==> r == Zero
    ensures sizeBytes != 0 ==> r.Formatted? && (r.value, r.unit) == ScaleDown(sizeBytes as real, 0)
  {
    if sizeBytes == 0 {
      return Zero;
    }
    var i: nat := 0;
    var size := sizeBytes as real;
    while size >= 1024.0 && i < |SIZE_NAMES| - 1
      invariant i <= 3
      invariant ScaleDown(size, i) == ScaleDown(sizeBytes as real, 0)
      decreases 3 - i
    {
      size, i := Divide(size, i);
    }
    r := Formatted(size, i);
  }

  /** One pass of the division loop. */
  method Divide(size: real, i: nat) returns (size': real, i': nat)
    requires size >= 1024.0 && i < 3
    ensures i' == i + 1 && ScaleDown(size', i') == ScaleDown(size, i)
  {
    size', i' := size / 1024.0, i + 1;
  }

  // ---------------------------------------------------------------- batch_process

  /** `items[i:i + size]` for `i` in `range(0, len(items), size)`. */
  function Batches<T>(items: seq<T>, size: nat): (r: seq<seq<T>>)
    requires size > 0
    ensures forall k :: 0 <= k < |r| ==> 0 < |r[k]| <= size
    decreases |items|
  {
    if items == [] then [] else [Take(items, size)] + Batches(items[Min(size, |items|)..], size)
  }

  /** The batches joined back together. */
  function Flatten<T>(parts: seq<seq<T>>): seq<T> {
    if parts == [] then [] else parts[0] + Flatten(parts[1..])
  }

  /** The batch starting at `i` is `items[i:i + size]`, and the rest starts after it. */
  lemma BatchAt<T>(items: seq<T>, i: nat, size: nat)
    requires size > 0 && i < |items|
    ensures Batches(items[i..], size)
            == [items[i..Min(i + size, |items|)]] + Batches(items[Min(i + size, |items|)..], size)
  {
    assert items[i..Min(i + size, |items|)] == Take(items[i..], size);
    assert items[Min(i + size, |items|)..] == items[i..][Min(size, |items[i..]|)..];
  }

  /** The batches of `range(i, len(items), size)`: none once `i` is past the end. */
  function BatchesFrom<T>(items: seq<T>, i: nat, size: nat): seq<seq<T>>
    requires size > 0
  {
    if i < |items| then Batches(items[i..], size) else []
  }

  /** One batch more is done: the batches still to come start one step further on. */
  lemma BatchStep<T>(items: seq<T>, i: nat, size: nat, done: seq<seq<T>>)
    requires size > 0 && i < |items|
    requires Batches(items, size) == done + BatchesFrom(items, i, size)
    ensures Batches(items, size) == (done + [items[i..Min(i + size, |items|)]]) + BatchesFrom(items, i + size, size)
  {
    BatchAt(items, i, size);
    var rest := BatchesFrom(items, i + size, size);
    if i + size >= |items| {
      assert items[Min(i + size, |items|)..] == [];
    }
    assert done + ([items[i..Min(i + size, |items|)]] + rest) == (done + [items[i..Min(i + size, |items|)]]) + rest;
  }

  /** `ceil(n / size)` by repeated subtraction. */
  function CeilDiv(n: nat, size: nat): nat
    requires size > 0
    decreases n
  {
    if n == 0 then 0 else 1 + CeilDiv(n - Min(size, n), size)
  }

  /**
   * The batches cover the items exactly, in order; there are `ceil(n / size)` of them, and all
   * but the last hold exactly `size` items.
   */
  lemma {:induction false} BatchesPartition<T>(items: seq<T>, size: nat)
    requires size > 0
    ensures Flatten(Batches(items, size)) == items
    ensures |Batches(items, size)| == CeilDiv(|items|, size)
    ensures forall k :: 0 <= k < |Batches(items, size)| - 1 ==> |Batches(items, size)[k]| == size
    decreases |items|
  {
    if items != [] {
      var m := Min(size, |items|);
      BatchesPartition(items[m..], size);
      assert Take(items, size) + items[m..] == items;
    }
  }

  /** `ceil(n / size)` is the usual integer formula. */
  lemma {:induction false} CeilDivFormula(n: nat, size: nat)
    requires size > 0
    ensures CeilDiv(n, size) * size >= n
    ensures n > 0 ==> (CeilDiv(n, size) - 1) * size < n
    decreases n
  {
    if n > size {
      CeilDivFormula(n - size, size);
    }
  }

  /**
   * `batch_process`: the result of `process` for every batch, `None` where it raised; a step of
   * 0 makes `range` raise, a negative one gives no batch. Extra positional and keyword
   * arguments are folded into `process`.
   */
  method BatchProcess<T, U>(items: seq<T>, batchSize: int, process: seq<T> -> Option<U>)
    returns (r: Result<seq<Option<U>>>)
    ensures batchSize == 0 <==> r.Err?
    ensures batchSize < 0 ==> r == Ok([])
    ensures batchSize > 0 ==> r.Ok? && |r.value| == |Batches(items, batchSize)| == CeilDiv(|items|, batchSize)
    ensures batchSize > 0 ==> forall k :: 0 <= k < |r.value| ==> r.value[k] == process(Batches(items, batchSize)[k])
  {
    if batchSize == 0 {
      return Err("ValueError: range() arg 3 must not be zero");
    }
    if batchSize < 0 {
      return Ok([]);
    }
    var results := RunBatches(items, batchSize, process);
    BatchesPartition(items, batchSize);
    r := Ok(results);
  }

  /** The loop of `batch_process` for a positive step. */
  method RunBatches<T, U>(items: seq<T>, batchSize: nat, process: seq<T> -> Option<U>)
    returns (results: seq<Option<U>>)
    requires batchSize > 0
    ensures |results| == |Batches(items, batchSize)|
    ensures forall k :: 0 <= k < |results| ==> results[k] == process(Batches(items, batchSize)[k])
  {
    results := [];
    ghost var done: seq<seq<T>> := [];
    var i := 0;
    while i < |items|
      invariant 0 <= i
      invariant Batches(items, batchSize) == done + BatchesFrom(items, i, batchSize)
      invariant |results| == |done| && forall k :: 0 <= k < |done| ==> results[k] == process(done[k])
      decreases |items| - i
    {
      var batch := items[i..Min(i + batchSize, |items|)];
      BatchStep(items, i, batchSize, done);
      done := done + [batch];
      results := results + [process(batch)];
      i := i + batchSize;
    }
  }

  // ---------------------------------------------------------------- generate_document_id

  /** The text that is hashed: `f"{filename}:{content}"`. */
  function IdInput(content: String, filename: String): String {
    filename + ":" + content
  }

  /** `generate_document_id`, with MD5 as `digest`: equal inputs give equal ids. */
  function GenerateDocumentId(content: String, filename: String, digest: String -> String): (r: String)
    ensures r == digest(IdInput(content, filename))
  {
    digest(filename + ":" + content)
  }

  /** For one file name, different contents give different hashed texts. */
  lemma IdInputSeparatesContents(content1: String, content2: String, filename: String)
    ensures IdInput(content1, filename) == IdInput(content2, filename) <==> content1 == content2
  {
    if IdInput(content1, filename) == IdInput(content2, filename) {
      var n := |filename| + 1;
      assert content1 == IdInput(content1, filename)[n..];
      assert content2 == IdInput(content2, filename)[n..];
    }
  }

  /** Across file names it does not: a colon in the name can shift into the content. */
  lemma IdInputAmbiguous()
    ensures IdInput("b:c", "a") == IdInput("c", "a:b")
  {
  }

  // ---------------------------------------------------------------- create_response_dict

  /**
   * `create_response_dict`: status, message, timestamp and data, then the keyword arguments,
   * which win on equal keys. Python itself refuses keyword arguments named `status`, `message`
   * or `data`, since those are the parameters.
   */
  function CreateResponseDict<V>(status: V, message: V, timestamp: V, data: V, extra: map<String, V>)
    : (r: map<String, V>)
    requires "status" !in extra && "message" !in extra && "data" !in extra
    ensures r.Keys == {"status", "message", "timestamp", "data"} + extra.Keys
    ensures r["status"] == status && r["message"] == message && r["data"] == data
    ensures r["timestamp"] == if "timestamp" in extra then extra["timestamp"] else timestamp
    ensures forall k :: k in extra ==> r[k] == extra[k]
  {
    map["status" := status, "message" := message, "timestamp" := timestamp, "data" := data] + extra
  }
}

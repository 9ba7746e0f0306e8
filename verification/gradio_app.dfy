/**
 * The decisions of `KnowledgeManagementApp` in src/api/gradio_app.py that are not user
 * interface: validating and de-duplicating uploads, grouping the stored chunks per file,
 * previewing a file, suggesting follow-up questions and keeping the chat history. The vector
 * store is seen as the sequence of chunks it holds; the file system, the loader, the
 * classifier, the clock and the model are parameters. Markdown assembly is not modelled.
 */
module GradioApp {
  import opened Common
  import opened Text
  import opened Sorting
  import opened Documents
  import Rag

  // ================================================================ uploads

  /** `MAX_FILE_SIZE`: 50 MiB. */
  const MAX_FILE_SIZE: int := 50 * 1024 * 1024

  const SUPPORTED_EXTENSIONS: set<String> := {".txt", ".md", ".pdf", ".doc", ".docx"}

  /**
   * What the file system and the loader say about one uploaded path: whether it exists, its
   * suffix, its size (`None` when `getsize` fails), whether it is readable, the MD5 of its
   * bytes (`None` when reading fails), the loaded chunks (`None` when loading raises) and
   * whether `delete_documents` succeeds for it, should an older version have to be deleted.
   */
  datatype Upload = Upload(name: String, present: bool, suffix: String, size: Option<nat>, readable: bool,
                           contentHash: Option<String>, loaded: Option<seq<Document>>, deleteSucceeds: bool)

  /** Why a file was listed as failed. */
  datatype Failure = Missing | Unsupported(ext: String) | TooLarge(bytes: nat) | Empty | SizeUnreadable
                   | NotReadable | ReadError | LoadError

  /** The checks before the store is consulted, in the order the loop makes them. */
  function Check(f: Upload): (r: Option<Failure>)
    ensures r.None? <==> f.present && Lower(f.suffix) in SUPPORTED_EXTENSIONS && f.size.Some?
                         && 0 < f.size.value <= MAX_FILE_SIZE && f.readable && f.contentHash.Some?
    ensures f.size.Some? && f.size.value > MAX_FILE_SIZE && f.present && Lower(f.suffix) in SUPPORTED_EXTENSIONS
            ==> r == Some(TooLarge(f.size.value))
    ensures f.size == Some(0) && f.present && Lower(f.suffix) in SUPPORTED_EXTENSIONS ==> r == Some(Empty)
  {
    if !f.present then Some(Missing)
    else if Lower(f.suffix) !in SUPPORTED_EXTENSIONS then Some(Unsupported(Lower(f.suffix)))
    else if f.size.None? then Some(SizeUnreadable)
    else if f.size.value > MAX_FILE_SIZE then Some(TooLarge(f.size.value))
    else if f.size.value == 0 then Some(Empty)
    else if !f.readable then Some(NotReadable)
    else if f.contentHash.None? then Some(ReadError)
    else None
  }

  /** A chunk stored under the file name (`where={"filename": name}`). */
  predicate NamedAs(d: Document, name: String) {
    "filename" in d.metadata && d.metadata["filename"] == Str(name)
  }

  /** The position of the first stored chunk of the file. */
  function FirstOfFile(store: seq<Document>, name: String): (r: Option<nat>)
    ensures r.Some? ==> r.value < |store| && NamedAs(store[r.value], name)
                        && forall j :: 0 <= j < r.value ==> !NamedAs(store[j], name)
    ensures r.None? ==> forall j :: 0 <= j < |store| ==> !NamedAs(store[j], name)
  {
    if store == [] then None
    else if NamedAs(store[0], name) then Some(0)
    else match FirstOfFile(store[1..], name)
         case None => None
         case Some(k) => Some(k + 1)
  }

  /** What happens to a file that passed the checks. */
  datatype Decision = AddNew | Skip | Replace

  /**
   * A file already stored is skipped when the `file_hash` of its first stored chunk equals the
   * new hash, and replaced otherwise; a new file is added.
   */
  function Decide(store: seq<Document>, name: String, hash: String): (r: Decision)
    ensures r == AddNew <==> forall j :: 0 <= j < |store| ==> !NamedAs(store[j], name)
    ensures r == Skip <==> exists j :: 0 <= j < |store| && NamedAs(store[j], name)
                                       && "file_hash" in store[j].metadata && store[j].metadata["file_hash"] == Str(hash)
                                       && forall k :: 0 <= k < j ==> !NamedAs(store[k], name)
  {
    match FirstOfFile(store, name)
    case None => AddNew
    case Some(j) =>
      var md := store[j].metadata;
      if "file_hash" in md && md["file_hash"] == Str(hash) then Skip else Replace
  }

  /** `delete_documents({"filename": name})`: the store without the file's chunks. */
  function Without(store: seq<Document>, name: String): (r: seq<Document>)
    ensures forall i :: 0 <= i < |r| ==> !NamedAs(r[i], name) && r[i] in store
    ensures forall i :: 0 <= i < |store| && !NamedAs(store[i], name) ==> store[i] in r
  {
    Filter(store, (d: Document) => !NamedAs(d, name))
  }

  /** `{k: v for k, v in classification.items() if v is not None}` merged into the metadata. */
  function Merge(md: Metadata, classification: map<String, Option<Value>>): (r: Metadata)
    ensures forall k :: k in classification && classification[k].Some? ==> k in r && r[k] == classification[k].value
    ensures forall k :: k in md && (k !in classification || classification[k].None?) ==> k in r && r[k] == md[k]
    ensures forall k :: k in r ==> k in md || (k in classification && classification[k].Some?)
  {
    map k | k in md.Keys + (set c | c in classification && classification[c].Some?) ::
      if k in classification && classification[k].Some? then classification[k].value else md[k]
  }

  /** The metadata of a chunk after classification, file hash and upload time are added. */
  function Stamp(d: Document, classification: map<String, Option<Value>>, hash: String, time: real): (r: Document)
    ensures r.content == d.content
    ensures "file_hash" in r.metadata && r.metadata["file_hash"] == Str(hash)
    ensures "upload_time" in r.metadata && r.metadata["upload_time"] == Num(time)
  {
    Document(d.content, Merge(d.metadata, classification)["file_hash" := Str(hash)]["upload_time" := Num(time)])
  }

  /**
   * Every chunk of one file, stamped: all of them carry the same file hash and upload time,
   * and each keeps its text.
   */
  function StampAll(docs: seq<Document>, classify: Document -> map<String, Option<Value>>, hash: String, time: real)
    : (r: seq<Document>)
    ensures |r| == |docs|
    ensures forall i :: 0 <= i < |r| ==> r[i] == Stamp(docs[i], classify(docs[i]), hash, time)
    ensures forall i :: 0 <= i < |r| ==>
              && r[i].content == docs[i].content
              && "file_hash" in r[i].metadata && r[i].metadata["file_hash"] == Str(hash)
              && "upload_time" in r[i].metadata && r[i].metadata["upload_time"] == Num(time)
  {
    seq(|docs|, i requires 0 <= i < |docs| => Stamp(docs[i], classify(docs[i]), hash, time))
  }

  /** The lists the upload loop fills, and the store as the loop leaves it. */
  datatype Batch = Batch(store: seq<Document>, pending: seq<Document>, processed: seq<String>,
                         skipped: seq<String>, updated: seq<String>, failed: seq<(String, Failure)>)

  /** One pass of the upload loop; `time` is `time.time()` for this file. */
  function HandleFile(st: Batch, f: Upload, classify: Document -> map<String, Option<Value>>, time: real): Batch {
    match Check(f)
    case Some(e) => st.(failed := st.failed + [(f.name, e)])
    case None =>
      var hash := f.contentHash.value;
      var decision := Decide(st.store, f.name, hash);
      if decision == Skip then st.(skipped := st.skipped + [f.name])
      else
        // The result of `delete_documents` is ignored: the file is listed as updated either way.
        var st' := if decision == Replace then
                     st.(store := if f.deleteSucceeds then Without(st.store, f.name) else st.store,
                         updated := st.updated + [f.name])
                   else st;
        match f.loaded
        case None => st'.(failed := st'.failed + [(f.name, LoadError)])
        case Some(docs) =>
          st'.(pending := st'.pending + StampAll(docs, classify, hash, time), processed := st'.processed + [f.name])
  }

  /** The upload loop over a list of files. */
  function HandleAll(st: Batch, files: seq<Upload>, classify: Document -> map<String, Option<Value>>,
                     times: seq<real>): Batch
    requires |times| == |files|
  {
    if files == [] then st
    else HandleFile(HandleAll(st, files[..|files| - 1], classify, times[..|files| - 1]), files[|files| - 1],
                    classify, times[|files| - 1])
  }

  /**
   * Each file lands in exactly one of processed, skipped and failed. A rejected or skipped file
   * leaves the store and the pending chunks alone; otherwise the store loses nothing when the
   * file is new. A replaced file is listed as updated; the store loses exactly its chunks when
   * the delete succeeds and keeps them all when the delete fails.
   */
  lemma HandleFileRules(st: Batch, f: Upload, classify: Document -> map<String, Option<Value>>, time: real)
    ensures var n := HandleFile(st, f, classify, time);
            && |n.processed| + |n.skipped| + |n.failed| == |st.processed| + |st.skipped| + |st.failed| + 1
            && (Check(f).Some? ==> n.store == st.store && n.pending == st.pending && n.failed == st.failed + [(f.name, Check(f).value)])
            && (Check(f).None? && Decide(st.store, f.name, f.contentHash.value) == Skip ==>
                  n.store == st.store && n.pending == st.pending && n.skipped == st.skipped + [f.name])
            && (Check(f).None? && Decide(st.store, f.name, f.contentHash.value) == AddNew ==> n.store == st.store)
            && (Check(f).None? && Decide(st.store, f.name, f.contentHash.value) == Replace ==>
                  && n.updated == st.updated + [f.name]
                  && (f.deleteSucceeds ==> n.store == Without(st.store, f.name))
                  && (!f.deleteSucceeds ==> n.store == st.store))
  {
  }

  /**
   * A changed file whose new version then fails to load is listed as both updated and failed.
   * If the delete succeeded, its old chunks are already gone from the store; if it failed, the
   * store still holds them.
   */
  lemma ReplaceDeletesBeforeLoading(st: Batch, f: Upload, classify: Document -> map<String, Option<Value>>, time: real)
    requires Check(f).None? && Decide(st.store, f.name, f.contentHash.value) == Replace && f.loaded.None?
    ensures var n := HandleFile(st, f, classify, time);
            && f.name in n.updated && (f.name, LoadError) in n.failed
            && (f.deleteSucceeds ==> forall i :: 0 <= i < |n.store| ==> !NamedAs(n.store[i], f.name))
            && (!f.deleteSucceeds ==> n.store == st.store)
  {
    var n := HandleFile(st, f, classify, time);
    assert n.failed[|n.failed| - 1] == (f.name, LoadError);
    assert n.updated[|n.updated| - 1] == f.name;
  }

  /** Over the whole loop, every file is accounted for exactly once. */
  lemma {:induction false} HandleAllCounts(st: Batch, files: seq<Upload>, classify: Document -> map<String, Option<Value>>,
                                           times: seq<real>)
    requires |times| == |files|
    ensures var n := HandleAll(st, files, classify, times);
            |n.processed| + |n.skipped| + |n.failed| == |st.processed| + |st.skipped| + |st.failed| + |files|
  {
    if files != [] {
      var init := files[..|files| - 1];
      HandleAllCounts(st, init, classify, times[..|files| - 1]);
      HandleFileRules(HandleAll(st, init, classify, times[..|files| - 1]), files[|files| - 1], classify, times[|files| - 1]);
    }
  }

  /** What `load_and_process_files` reports (its Markdown rendering is not modelled). */
  datatype Report = NoFiles | Processed(batch: Batch, stored: bool)

  // ================================================================ document list

  /** One row of `get_document_list`, before its size and time are formatted. */
  datatype FileRow = FileRow(filename: Value, chunks: nat, category: Value, fileType: Value, fileSize: Value,
                             uploadTime: Option<Value>)

  function FilenameOf(md: Metadata): Value {
    Rag.Get(md, "filename", Str("未知"))
  }

  /** The row a file's first chunk opens. */
  function NewRow(md: Metadata): FileRow {
    FileRow(FilenameOf(md), 1, Rag.Get(md, "category", Str("未分类")), Rag.Get(md, "file_type", Str("未知")),
            Rag.Get(md, "file_size", Num(0.0)), if "upload_time" in md then Some(md["upload_time"]) else None)
  }

  /** The position of the row for a file name. */
  function RowOf(rows: seq<FileRow>, name: Value): (r: Option<nat>)
    ensures r.Some? ==> r.value < |rows| && rows[r.value].filename == name
                        && forall j :: 0 <= j < r.value ==> rows[j].filename != name
    ensures r.None? ==> forall i :: 0 <= i < |rows| ==> rows[i].filename != name
  {
    if rows == [] then None
    else if rows[0].filename == name then Some(0)
    else match RowOf(rows[1..], name)
         case None => None
         case Some(k) => Some(k + 1)
  }

  /** One metadata entry counted into the rows. */
  function Count(rows: seq<FileRow>, md: Metadata): seq<FileRow> {
    match RowOf(rows, FilenameOf(md))
    case None => rows + [NewRow(md)]
    case Some(k) => rows[k := rows[k].(chunks := rows[k].chunks + 1)]
  }

  /** The `file_stats` dictionary, in insertion order. */
  function Group(mds: seq<Metadata>): seq<FileRow> {
    if mds == [] then [] else Count(Group(mds[..|mds| - 1]), mds[|mds| - 1])
  }

  /** The number of entries naming a file. */
  function ChunksOf(mds: seq<Metadata>, name: Value): nat {
    if mds == [] then 0
    else ChunksOf(mds[..|mds| - 1], name) + (if FilenameOf(mds[|mds| - 1]) == name then 1 else 0)
  }

  function TotalChunks(rows: seq<FileRow>): nat {
    if rows == [] then 0 else TotalChunks(rows[..|rows| - 1]) + rows[|rows| - 1].chunks
  }

  lemma {:induction false} TotalChunksUpdate(rows: seq<FileRow>, k: nat, row: FileRow)
    requires k < |rows|
    ensures TotalChunks(rows[k := row]) == TotalChunks(rows) - rows[k].chunks + row.chunks
  {
    if k < |rows| - 1 {
      TotalChunksUpdate(rows[..|rows| - 1], k, row);
      assert rows[k := row][..|rows| - 1] == rows[..|rows| - 1][k := row];
    } else {
      assert rows[k := row][..|rows| - 1] == rows[..|rows| - 1];
    }
  }

  ghost predicate DistinctRows(rows: seq<FileRow>) {
    forall i, j :: 0 <= i < j < |rows| ==> rows[i].filename != rows[j].filename
  }

  /**
   * Counting one entry keeps every row's name; the entry's row gains a chunk, or a row opened
   * from the entry is appended when no row has its name.
   */
  lemma CountShape(rows: seq<FileRow>, md: Metadata)
    requires DistinctRows(rows)
    ensures var c := Count(rows, md);
            && |rows| <= |c| <= |rows| + 1
            && (forall i :: 0 <= i < |rows| ==>
                  c[i] == if rows[i].filename == FilenameOf(md) then rows[i].(chunks := rows[i].chunks + 1) else rows[i])
            && (|c| == |rows| + 1 <==> forall i :: 0 <= i < |rows| ==> rows[i].filename != FilenameOf(md))
            && (|c| == |rows| + 1 ==> c[|rows|] == NewRow(md))
            && TotalChunks(c) == TotalChunks(rows) + 1
  {
    match RowOf(rows, FilenameOf(md))
    case None => CountNewFile(rows, md);
    case Some(k) =>
      CountKnownFile(rows, md, k);
      OnlyRow(rows, FilenameOf(md), k);
  }

  /** A file without a row gets a new row at the end. */
  lemma CountNewFile(rows: seq<FileRow>, md: Metadata)
    requires RowOf(rows, FilenameOf(md)).None?
    ensures Count(rows, md) == rows + [NewRow(md)]
    ensures TotalChunks(Count(rows, md)) == TotalChunks(rows) + 1
  {
    assert (rows + [NewRow(md)])[..|rows|] == rows;
  }

  /** A file with a row adds one chunk to that row. */
  lemma CountKnownFile(rows: seq<FileRow>, md: Metadata, k: nat)
    requires RowOf(rows, FilenameOf(md)) == Some(k)
    ensures Count(rows, md) == Bumped(rows, k)
    ensures TotalChunks(Count(rows, md)) == TotalChunks(rows) + 1
  {
    TotalChunksBumped(rows, k);
  }

  /** Row `k` with one more chunk. */
  function Bumped(rows: seq<FileRow>, k: nat): seq<FileRow>
    requires k < |rows|
  {
    rows[k := rows[k].(chunks := rows[k].chunks + 1)]
  }

  lemma TotalChunksBumped(rows: seq<FileRow>, k: nat)
    requires k < |rows|
    ensures TotalChunks(Bumped(rows, k)) == TotalChunks(rows) + 1
  {
    TotalChunksUpdate(rows, k, rows[k].(chunks := rows[k].chunks + 1));
  }

  /** Among distinct rows, the row found for a name is the only one with that name. */
  lemma OnlyRow(rows: seq<FileRow>, name: Value, k: nat)
    requires DistinctRows(rows)
    requires RowOf(rows, name) == Some(k)
    ensures forall i :: 0 <= i < |rows| ==> (rows[i].filename == name <==> i == k)
  {
    forall i | 0 <= i < |rows| ensures rows[i].filename == name <==> i == k {
      if i < k {
        assert rows[i].filename != rows[k].filename;
      } else if k < i {
        assert rows[k].filename != rows[i].filename;
      }
    }
  }

  /** The rows name distinct files. */
  lemma {:induction false} GroupDistinct(mds: seq<Metadata>)
    ensures DistinctRows(Group(mds))
  {
    if mds != [] {
      var rows := Group(mds[..|mds| - 1]);
      GroupDistinct(mds[..|mds| - 1]);
      CountShape(rows, mds[|mds| - 1]);
      var c := Group(mds);
      forall i, j | 0 <= i < j < |c| ensures c[i].filename != c[j].filename {
        assert c[i].filename == rows[i].filename;
        if j < |rows| {
          assert c[j].filename == rows[j].filename;
        }
      }
    }
  }

  /** Some row has the name. */
  ghost predicate HasRow(rows: seq<FileRow>, name: Value) {
    exists i :: 0 <= i < |rows| && rows[i].filename == name
  }

  /** Every entry's file name has a row. */
  lemma {:induction false} GroupCovers(mds: seq<Metadata>)
    ensures forall j :: 0 <= j < |mds| ==> HasRow(Group(mds), FilenameOf(mds[j]))
  {
    if mds != [] {
      var init := mds[..|mds| - 1];
      GroupCovers(init);
      GroupDistinct(init);
      var rows := Group(init);
      CountShape(rows, mds[|mds| - 1]);
      var g := Group(mds);
      forall j | 0 <= j < |mds| ensures HasRow(g, FilenameOf(mds[j])) {
        if j < |mds| - 1 {
          assert mds[j] == init[j];
          var i :| 0 <= i < |rows| && rows[i].filename == FilenameOf(init[j]);
          assert g[i].filename == FilenameOf(mds[j]);
        } else if |g| == |rows| + 1 {
          assert g[|rows|] == NewRow(mds[j]);
        } else {
          var i :| 0 <= i < |rows| && rows[i].filename == FilenameOf(mds[j]);
          assert g[i].filename == FilenameOf(mds[j]);
        }
      }
    }
  }

  lemma {:induction false} ChunksOfAbsent(mds: seq<Metadata>, name: Value)
    requires forall j :: 0 <= j < |mds| ==> FilenameOf(mds[j]) != name
    ensures ChunksOf(mds, name) == 0
  {
    if mds != [] {
      ChunksOfAbsent(mds[..|mds| - 1], name);
    }
  }

  /** Each row counts exactly the entries naming its file. */
  lemma {:induction false} GroupChunks(mds: seq<Metadata>)
    ensures forall i :: 0 <= i < |Group(mds)| ==> Group(mds)[i].chunks == ChunksOf(mds, Group(mds)[i].filename)
  {
    if mds != [] {
      var init := mds[..|mds| - 1];
      var md := mds[|mds| - 1];
      GroupChunks(init);
      GroupDistinct(init);
      var rows := Group(init);
      CountShape(rows, md);
      var g := Group(mds);
      if |g| == |rows| + 1 {
        GroupCovers(init);
        forall j | 0 <= j < |init| ensures FilenameOf(init[j]) != FilenameOf(md) {
          var i :| 0 <= i < |rows| && rows[i].filename == FilenameOf(init[j]);
        }
        ChunksOfAbsent(init, FilenameOf(md));
      }
    }
  }

  /** The chunk counts add up to the number of entries. */
  lemma {:induction false} GroupTotal(mds: seq<Metadata>)
    ensures TotalChunks(Group(mds)) == |mds|
  {
    if mds != [] {
      GroupTotal(mds[..|mds| - 1]);
      GroupDistinct(mds[..|mds| - 1]);
      CountShape(Group(mds[..|mds| - 1]), mds[|mds| - 1]);
    }
  }

  /** The first entry naming a file. */
  function FirstNamed(mds: seq<Metadata>, name: Value): (r: Option<nat>)
    ensures r.Some? ==> r.value < |mds| && FilenameOf(mds[r.value]) == name
                        && forall k :: 0 <= k < r.value ==> FilenameOf(mds[k]) != name
    ensures r.None? ==> forall k :: 0 <= k < |mds| ==> FilenameOf(mds[k]) != name
  {
    if mds == [] then None
    else if FilenameOf(mds[0]) == name then Some(0)
    else match FirstNamed(mds[1..], name)
         case None => None
         case Some(k) => Some(k + 1)
  }

  /** A first occurrence found in a prefix stays the first occurrence. */
  lemma FirstNamedExtend(mds: seq<Metadata>, md: Metadata, name: Value)
    ensures FirstNamed(mds, name).Some? ==> FirstNamed(mds + [md], name) == FirstNamed(mds, name)
    ensures FirstNamed(mds, name).None? && FilenameOf(md) == name ==> FirstNamed(mds + [md], name) == Some(|mds|)
  {
    forall k | 0 <= k < |mds| ensures (mds + [md])[k] == mds[k] { }
    assert (mds + [md])[|mds|] == md;
  }

  /** Each row's category, type, size and time come from the first entry naming its file. */
  lemma {:induction false} GroupFirstSeen(mds: seq<Metadata>)
    ensures forall i :: 0 <= i < |Group(mds)| ==>
              FirstNamed(mds, Group(mds)[i].filename).Some?
              && Group(mds)[i] == NewRow(mds[FirstNamed(mds, Group(mds)[i].filename).value]).(chunks := Group(mds)[i].chunks)
  {
    if mds != [] {
      var init := mds[..|mds| - 1];
      var md := mds[|mds| - 1];
      assert mds == init + [md];
      GroupFirstSeen(init);
      GroupDistinct(init);
      var rows := Group(init);
      CountShape(rows, md);
      var g := Group(mds);
      forall i | 0 <= i < |g|
        ensures FirstNamed(mds, g[i].filename).Some?
                && g[i] == NewRow(mds[FirstNamed(mds, g[i].filename).value]).(chunks := g[i].chunks)
      {
        FirstNamedExtend(init, md, g[i].filename);
        if i < |rows| {
          assert g[i].filename == rows[i].filename;
          assert mds[FirstNamed(init, rows[i].filename).value] == init[FirstNamed(init, rows[i].filename).value];
        } else {
          GroupCovers(init);
          forall k | 0 <= k < |init| ensures FilenameOf(init[k]) != g[i].filename {
            var i' :| 0 <= i' < |rows| && rows[i'].filename == FilenameOf(init[k]);
          }
        }
      }
    }
  }

  /** Python formats the size with `<` and the time with `fromtimestamp`: strings there raise. */
  predicate Displayable(row: FileRow) {
    !row.fileSize.Str? && (row.uploadTime.None? || !row.uploadTime.value.Str?)
  }

  /** The rows, or none when formatting one of them raises. */
  function DocumentList(mds: seq<Metadata>): seq<FileRow> {
    var rows := Group(mds);
    if forall i :: 0 <= i < |rows| ==> Displayable(rows[i]) then rows else []
  }

  // ================================================================ preview

  /** One chunk as the preview shows it. */
  datatype ShownChunk = ShownChunk(number: Option<real>, category: Value, fileType: Value, text: String)

  /** The preview outcome: a blank name, an unknown file, an error, or the header and chunks. */
  datatype Preview = BlankName | NotFound | PreviewError | Shown(total: nat, previewCount: int, chunks: seq<ShownChunk>)

  /** The sort key: `chunk_id` (0 when absent); strings are kept apart by `IdIsText`. */
  function ChunkKey(d: Document): real {
    match AsNumber(Rag.Get(d.metadata, "chunk_id", Num(0.0)))
    case Some(x) => x
    case None => 0.0
  }

  /** The negated key: a stable descending sort on it is the stable ascending sort on the key. */
  function Ascending(d: Document): real { -ChunkKey(d) }

  predicate IdIsText(d: Document) {
    "chunk_id" in d.metadata && d.metadata["chunk_id"].Str?
  }

  /** The preview text: at most 500 characters, with a note when cut. */
  function PreviewText(content: String): (r: String)
    ensures |content| <= 500 ==> r == content
    ensures |content| > 500 ==> |r| > 500 && r[..500] == content[..500]
  {
    if |content| > 500 then content[..500] + "\n\n*（内容过长，已截断...）*" else content
  }

  /** How the `i`-th shown chunk is described; `chunk_id` defaults to the position here. */
  function Show(d: Document, i: nat): ShownChunk {
    var id := Rag.Get(d.metadata, "chunk_id", Num(i as real));
    ShownChunk(match AsNumber(id) case Some(x) => Some(x + 1.0) case None => None,
               Rag.Get(d.metadata, "category", Str("未分类")), Rag.Get(d.metadata, "file_type", Str("未知")),
               PreviewText(d.content))
  }

  function ShowAll(sorted: seq<Document>, count: nat): (r: seq<ShownChunk>)
    requires count <= |sorted|
    ensures |r| == count && forall i :: 0 <= i < count ==> r[i] == Show(sorted[i], i)
  {
    seq(count, i requires 0 <= i < count => Show(sorted[i], i))
  }

  /**
   * `preview_document`: the file's chunks sorted by chunk id (stable), and the first
   * `min(preview_chunks, total)` of them. Sorting raises when text ids meet numeric ones, and
   * `chunk_id + 1` raises on a text id that is shown.
   */
  function PreviewOf(store: seq<Document>, filename: String, previewChunks: int): Preview {
    if filename == [] || IsBlank(filename) then BlankName
    else
      var mine := Filter(store, (d: Document) => NamedAs(d, filename));
      if mine == [] then NotFound
      else
        var count := Min(previewChunks, |mine|);
        var text := exists i :: 0 <= i < |mine| && IdIsText(mine[i]);
        var numeric := exists i :: 0 <= i < |mine| && !IdIsText(mine[i]);
        if text && (numeric || count >= 1) then PreviewError
        else
          var sorted := SortDesc(mine, Ascending);
          Shown(|mine|, count, ShowAll(sorted, Max(0, count)))
  }

  // ================================================================ the application

  class KnowledgeApp {
    /** The chunks the vector store holds. */
    var store: seq<Document>

    constructor(store: seq<Document>)
      ensures this.store == store
    {
      this.store := store;
    }

    /**
     * `load_and_process_files`: checks and de-duplicates every file, deletes replaced files at
     * once, and adds all new chunks in one call at the end (`addSucceeds` is its outcome).
     */
    method LoadAndProcessFiles(files: seq<Upload>, classify: Document -> map<String, Option<Value>>,
                               times: seq<real>, addSucceeds: bool) returns (report: Report)
      requires |times| == |files|
      modifies this
      ensures files == [] ==> report == NoFiles && store == old(store)
      ensures files != [] ==> report.Processed?
      ensures files != [] ==>
                var n := HandleAll(Batch(old(store), [], [], [], [], []), files, classify, times);
                && report.batch == n
                && report.stored == (n.pending != [] && addSucceeds)
                && store == (if report.stored then n.store + n.pending else n.store)
      ensures report.Processed? ==> |report.batch.processed| + |report.batch.skipped| + |report.batch.failed| == |files|
    {
      if files == [] {
        return NoFiles;
      }
      var st := Batch(store, [], [], [], [], []);
      var i := 0;
      while i < |files|
        invariant 0 <= i <= |files|
        invariant st == HandleAll(Batch(old(store), [], [], [], [], []), files[..i], classify, times[..i])
      {
        assert files[..i + 1][..i] == files[..i] && times[..i + 1][..i] == times[..i];
        st := HandleFile(st, files[i], classify, times[i]);
        i := i + 1;
      }
      assert files[..i] == files && times[..i] == times;
      HandleAllCounts(Batch(old(store), [], [], [], [], []), files, classify, times);
      var stored := st.pending != [] && addSucceeds;
      store := if stored then st.store + st.pending else st.store;
      report := Processed(st, stored);
    }

    /** The metadata of every stored chunk. */
    function Metadatas(): (r: seq<Metadata>)
      reads this
      ensures |r| == |store| && forall i :: 0 <= i < |store| ==> r[i] == store[i].metadata
    {
      seq(|store|, i reads this requires 0 <= i < |store| => store[i].metadata)
    }

    /** `get_document_list`: counts chunks per file name in a dictionary, in first-seen order. */
    method GetDocumentList() returns (rows: seq<FileRow>)
      ensures rows == DocumentList(Metadatas())
      ensures DistinctRows(rows)
      ensures rows != [] ==> TotalChunks(rows) == |store|
    {
      var mds := Metadatas();
      var stats: seq<FileRow> := [];
      var i := 0;
      while i < |mds|
        invariant 0 <= i <= |mds|
        invariant stats == Group(mds[..i])
      {
        assert mds[..i + 1][..i] == mds[..i];
        var name := FilenameOf(mds[i]);
        var k := 0;
        while k < |stats| && stats[k].filename != name
          invariant 0 <= k <= |stats|
          invariant forall j :: 0 <= j < k ==> stats[j].filename != name
        {
          k := k + 1;
        }
        if k < |stats| {
          stats := stats[k := stats[k].(chunks := stats[k].chunks + 1)];
        } else {
          stats := stats + [NewRow(mds[i])];
        }
        i := i + 1;
      }
      assert mds[..i] == mds;
      GroupDistinct(mds);
      GroupTotal(mds);
      rows := DocumentList(mds);
    }

    /** `preview_document`. */
    method PreviewDocument(filename: String, previewChunks: int) returns (p: Preview)
      ensures p == PreviewOf(store, filename, previewChunks)
      ensures p.Shown? ==> p.total == |Filter(store, (d: Document) => NamedAs(d, filename))|
                           && p.previewCount == Min(previewChunks, p.total)
                           && |p.chunks| == Max(0, p.previewCount)
    {
      p := PreviewOf(store, filename, previewChunks);
    }
  }

  /**
   * The preview shows the file's chunks in chunk-id order: the sorted list is a permutation of
   * them, non-decreasing in id, and equal ids keep their stored order.
   */
  lemma PreviewOrder(mine: seq<Document>)
    ensures multiset(SortDesc(mine, Ascending)) == multiset(mine)
    ensures forall i, j :: 0 <= i < j < |mine| ==> ChunkKey(SortDesc(mine, Ascending)[i]) <= ChunkKey(SortDesc(mine, Ascending)[j])
  {
    SortDescPermutation(mine, Ascending);
    SortDescSorted(mine, Ascending);
    assert |SortDesc(mine, Ascending)| == |mine| by {
      assert |multiset(SortDesc(mine, Ascending))| == |multiset(mine)|;
    }
  }

  // ================================================================ chat

  /** One entry of the chat history. */
  datatype Message = Message(role: String, content: String)

  /** The text one history entry contributes to the retrieval query; other roles give none. */
  function ContextPart(m: Message): Option<String> {
    if m.role == "user" then Some("用户: " + m.content)
    else if m.role == "assistant" then Some("助手: " + Take(m.content, 100))
    else None
  }

  function ContextParts(history: seq<Message>): seq<String> {
    if history == [] then []
    else
      var rest := ContextParts(history[1..]);
      match ContextPart(history[0])
      case None => rest
      case Some(p) => [p] + rest
  }

  /**
   * The retrieval query of `chat_with_knowledge`: with two or more history entries, the last
   * two parts of the last six entries, then the message; otherwise the message alone.
   */
  function ContextQuery(message: String, history: seq<Message>): (r: String)
    ensures |history| < 2 ==> r == message
    ensures |r| >= |message| && r[|r| - |message|..] == message
  {
    if |history| >= 2 then
      var recent := if |history| > 6 then history[|history| - 6..] else history;
      var q := Join(Last(ContextParts(recent), 2), " ") + " ";
      assert (q + message)[|q|..] == message;
      q + message
    else message
  }

  /** Every part comes from one entry: a user entry whole, an assistant entry cut to 100 characters. */
  lemma {:induction false} ContextPartsFrom(history: seq<Message>)
    ensures |ContextParts(history)| <= |history|
    ensures forall i :: 0 <= i < |ContextParts(history)| ==>
              exists j :: 0 <= j < |history| && ContextPart(history[j]) == Some(ContextParts(history)[i])
  {
    if history != [] {
      ContextPartsFrom(history[1..]);
      var rest := ContextParts(history[1..]);
      forall i | 0 <= i < |ContextParts(history)|
        ensures exists j :: 0 <= j < |history| && ContextPart(history[j]) == Some(ContextParts(history)[i])
      {
        if ContextPart(history[0]).Some? && i == 0 {
          assert ContextPart(history[0]) == Some(ContextParts(history)[0]);
        } else {
          var i' := if ContextPart(history[0]).Some? then i - 1 else i;
          assert ContextParts(history)[i] == rest[i'];
          var j :| 0 <= j < |history[1..]| && ContextPart(history[1..][j]) == Some(rest[i']);
          assert history[j + 1] == history[1..][j];
        }
      }
    }
  }

  /** The part an entry among the last six contributes. */
  ghost predicate FromRecent(history: seq<Message>, p: String) {
    exists j :: |history| - 6 <= j < |history| && 0 <= j && ContextPart(history[j]) == Some(p)
  }

  /**
   * With two or more entries, the query is at most two parts joined by spaces, then a space and
   * the message, and each part comes from one of the last six entries.
   */
  lemma ContextQuerySources(message: String, history: seq<Message>)
    requires |history| >= 2
    ensures exists ps :: |ps| <= 2 && ContextQuery(message, history) == Join(ps, " ") + " " + message
                         && forall p :: p in ps ==> FromRecent(history, p)
  {
    var recent := if |history| > 6 then history[|history| - 6..] else history;
    var parts := ContextParts(recent);
    var ps := Last(parts, 2);
    ContextPartsFrom(recent);
    forall p | p in ps ensures FromRecent(history, p) {
      var i :| 0 <= i < |ps| && ps[i] == p;
      assert p == parts[|parts| - |ps| + i];
      var j :| 0 <= j < |recent| && ContextPart(recent[j]) == Some(p);
      assert recent[j] == history[|history| - |recent| + j];
    }
  }

  const ERROR_PREFIX: String := "抱歉，处理您的问题时出现错误: "

  /**
   * `process_user_message`: a blank message changes nothing; otherwise the question and the
   * reply (or the error text when answering raises) are appended, and after a reply only the
   * last 20 entries are kept.
   */
  function ProcessUserMessage(message: String, history: seq<Message>, reply: Result<String>)
    : (r: (String, seq<Message>))
    ensures r.0 == []
    ensures message == [] || IsBlank(message) ==> r.1 == history
    ensures !(message == [] || IsBlank(message)) && reply.Ok? ==>
              |r.1| == Min(|history| + 2, 20)
              && r.1[|r.1| - 2..] == [Message("user", message), Message("assistant", reply.value)]
              && r.1[..|r.1| - 2] == Last(history, |r.1| - 2)
    ensures !(message == [] || IsBlank(message)) && reply.Err? ==>
              r.1 == history + [Message("user", message), Message("assistant", ERROR_PREFIX + reply.error)]
  {
    if message == [] || IsBlank(message) then ([], history)
    else
      match reply
      case Ok(answer) =>
        var added := history + [Message("user", message), Message("assistant", answer)];
        ([], if |added| > 20 then added[|added| - 20..] else added)
      case Err(e) =>
        ([], history + [Message("user", message), Message("assistant", ERROR_PREFIX + e)])
  }

  /** Over any run of successful replies the history never exceeds 20 entries once it starts within them. */
  lemma HistoryBounded(message: String, history: seq<Message>, reply: String)
    requires |history| <= 20
    ensures |ProcessUserMessage(message, history, Ok(reply)).1| <= 20
  {
  }

  // ================================================================ suggestions

  const DETAIL_QUESTION: String := "能否提供更详细的说明？"
  const EXAMPLE_QUESTION: String := "有相关的示例吗？"
  const LINK_QUESTION: String := "这些文档之间有什么联系？"

  function CategoriesOf(docs: seq<Document>): set<Value> {
    set i | 0 <= i < |docs| && "category" in docs[i].metadata :: docs[i].metadata["category"]
  }

  function FilenamesOf(docs: seq<Document>): set<Value> {
    set i | 0 <= i < |docs| && "filename" in docs[i].metadata :: docs[i].metadata["filename"]
  }

  /**
   * `_generate_simple_suggestions`: a question about one category of the first three documents
   * (set order decides which), one about their links when they name several files, then the
   * two general questions, cut to three. The detail question is always among them.
   */
  method SimpleSuggestions(docs: seq<Document>) returns (r: seq<String>)
    ensures |r| <= 3 && DETAIL_QUESTION in r
    ensures CategoriesOf(Take(docs, 3)) != {} ==>
              && (exists c :: c in CategoriesOf(Take(docs, 3)) && r[0] == "还有哪些关于" + Rag.Render(c) + "的内容？")
              && r[1..] == if |FilenamesOf(Take(docs, 3))| > 1 then [LINK_QUESTION, DETAIL_QUESTION]
                           else [DETAIL_QUESTION, EXAMPLE_QUESTION]
    ensures CategoriesOf(Take(docs, 3)) == {} ==>
              r == if |FilenamesOf(Take(docs, 3))| > 1 then [LINK_QUESTION, DETAIL_QUESTION, EXAMPLE_QUESTION]
                   else [DETAIL_QUESTION, EXAMPLE_QUESTION]
  {
    var first := Take(docs, 3);
    var categories := CategoriesOf(first);
    var filenames := FilenamesOf(first);
    var lead: seq<String> := [];
    ghost var chosen: Value := Str([]);
    if categories != {} {
      var cat :| cat in categories;
      chosen := cat;
      lead := ["还有哪些关于" + Rag.Render(cat) + "的内容？"];
    }
    if |filenames| > 1 {
      lead := lead + [LINK_QUESTION];
    }
    var all := lead + [DETAIL_QUESTION, EXAMPLE_QUESTION];
    r := Take(all, 3);
    assert r == all[..Min(3, |all|)];
    assert r[|lead|] == DETAIL_QUESTION;
    if categories != {} {
      assert chosen in categories && r[0] == "还有哪些关于" + Rag.Render(chosen) + "的内容？";
      if |filenames| > 1 {
        assert r == [lead[0], LINK_QUESTION, DETAIL_QUESTION];
      } else {
        assert r == [lead[0], DETAIL_QUESTION, EXAMPLE_QUESTION];
      }
    }
  }
}

/** The ingestion side of the medical chatbot: text extraction from the PDF
    files of a directory, chunk records with fresh ids, the ensure-index step
    and the batched upload to the vector index.

    PDF parsing, the text splitter and the embedding model are parameters;
    the Pinecone account is the class `Pinecone`, which records the indexes
    it holds, the account calls that raise, and every upsert call made
    against it. */
module PdfProcessor {
  import opened Common
  import opened Text

  /** A file as `glob` lists it: its path and what reading it gives, namely
      the result of `page.extract_text()` for each page in order (`None` for a
      page without text), or `Err` when opening or extracting raises. */
  datatype PdfFile = PdfFile(path: string, pages: Result<seq<Option<string>>>)

  /** `{"text": ..., "source": ...}` */
  datatype Document = Document(text: string, source: string)

  /** The token returned by the `draw`-th call of `uuid.uuid4()` in the
      process: distinct draws give distinct tokens. */
  datatype ChunkId = ChunkId(draw: nat)

  /** `{"source": ..., "chunk_index": ..., "text": ...}` */
  datatype ChunkMetadata = ChunkMetadata(source: string, chunkIndex: nat, text: string)

  /** `{"id": ..., "text": ..., "metadata": ...}` */
  datatype Chunk = Chunk(id: ChunkId, text: string, metadata: ChunkMetadata)

  /** One `(id, values, metadata)` tuple of the upsert payload. */
  datatype UpsertRecord = UpsertRecord(id: ChunkId, values: Vector, metadata: ChunkMetadata)

  /** The arguments `create_index` is given besides the name. */
  datatype IndexSpec = IndexSpec(dimension: nat, metric: string, environment: string)

  /** One `index.upsert(vectors=batch)` call against the named index. */
  datatype UpsertCall = UpsertCall(index: string, vectors: seq<UpsertRecord>)

  const Dimension: nat := 1024
  const Metric := "cosine"
  const BatchSize: nat := 100

  // ---------------------------------------------------------------------------
  // Extraction (`extract_text_from_pdf`, `process_pdfs_directory`)

  /** `page.extract_text() or ""` */
  function PageText(page: Option<string>): string
  {
    match page
    case None => ""
    case Some(t) => t
  }

  /** The page texts concatenated in page order. */
  function PagesText(pages: seq<Option<string>>): string
  {
    if pages == [] then "" else PagesText(pages[..|pages| - 1]) + PageText(pages[|pages| - 1])
  }

  /** Concatenation distributes over splitting the page list, so every page
      contributes its text at its own place. */
  lemma {:induction false} PagesTextAppend(a: seq<Option<string>>, b: seq<Option<string>>)
    ensures PagesText(a + b) == PagesText(a) + PagesText(b)
    decreases |b|
  {
    if b != [] {
      var b' := b[..|b| - 1];
      assert (a + b)[..|a + b| - 1] == a + b';
      PagesTextAppend(a, b');
    } else {
      assert a + b == a;
    }
  }

  /** `extract_text_from_pdf(path)` */
  method ExtractTextFromPdf(pdf: PdfFile) returns (r: Result<string>)
    ensures pdf.pages.Err? ==> r == Err(pdf.pages.error)
    ensures pdf.pages.Ok? ==> r == Ok(PagesText(pdf.pages.value))
  {
    if pdf.pages.Err? {
      return Err(pdf.pages.error);
    }
    var pages := pdf.pages.value;
    var text := "";
    var i := 0;
    while i < |pages|
      invariant 0 <= i <= |pages|
      invariant text == PagesText(pages[..i])
    {
      assert pages[..i + 1][..i] == pages[..i];
      text := text + PageText(pages[i]);
      i := i + 1;
    }
    assert pages[..i] == pages;
    r := Ok(text);
  }

  /** What one file contributes: nothing when extraction raises or yields
      only whitespace, otherwise its text under its base name. */
  function FileDocuments(f: PdfFile): seq<Document>
  {
    match f.pages
    case Err(_) => []
    case Ok(pages) =>
      var text := PagesText(pages);
      if Strip(text) != [] then [Document(text, Basename(f.path))] else []
  }

  /** The documents of the files, in file order. */
  function Documents(files: seq<PdfFile>): seq<Document>
  {
    if files == [] then [] else Documents(files[..|files| - 1]) + FileDocuments(files[|files| - 1])
  }

  /** Processing file `i` after the files before it: the documents grow by
      the file's text under its base name when it can be read and is not
      whitespace only, and stay as they are otherwise. */
  lemma FileAppended(files: seq<PdfFile>, i: nat, documents: seq<Document>)
    requires i < |files|
    requires documents == Documents(files[..i])
    ensures var f := files[i];
            f.pages.Ok? && Strip(PagesText(f.pages.value)) != [] ==>
              documents + [Document(PagesText(f.pages.value), Basename(f.path))] == Documents(files[..i + 1])
    ensures var f := files[i];
            !(f.pages.Ok? && Strip(PagesText(f.pages.value)) != []) ==>
              documents == Documents(files[..i + 1])
  {
    assert files[..i + 1][..i] == files[..i];
  }

  /** `process_pdfs_directory(directory)`, given the files `glob` lists. */
  method ProcessPdfsDirectory(files: seq<PdfFile>) returns (documents: seq<Document>)
    ensures documents == Documents(files)
  {
    documents := [];
    var i := 0;
    while i < |files|
      invariant 0 <= i <= |files|
      invariant documents == Documents(files[..i])
    {
      FileAppended(files, i, documents);
      var text := ExtractTextFromPdf(files[i]);
      if text.Ok? && Strip(text.value) != [] {
        documents := documents + [Document(text.value, Basename(files[i].path))];
      }
      i := i + 1;
    }
    assert files[..i] == files;
  }

  /** A single file is kept exactly when it can be read and its text is not
      whitespace only; it is kept under its base name. */
  lemma SingleFileDocuments(f: PdfFile)
    ensures Documents([f]) == FileDocuments(f)
    ensures |FileDocuments(f)| <= 1
    ensures FileDocuments(f) != [] <==> f.pages.Ok? && !IsBlank(PagesText(f.pages.value))
    ensures FileDocuments(f) != [] ==>
              FileDocuments(f)[0] == Document(PagesText(f.pages.value), Basename(f.path))
  {
    assert [f][..0] == [];
    assert Documents([f]) == Documents([]) + FileDocuments(f);
    if f.pages.Ok? {
      var text := PagesText(f.pages.value);
      StripEmptyIffBlank(text);
      assert FileDocuments(f) == if Strip(text) != [] then [Document(text, Basename(f.path))] else [];
    }
  }

  /** Files are processed independently and in order: the documents of two
      runs of files are those of each run, one after the other. */
  lemma {:induction false} DocumentsAppend(a: seq<PdfFile>, b: seq<PdfFile>)
    ensures Documents(a + b) == Documents(a) + Documents(b)
    decreases |b|
  {
    if b != [] {
      var b' := b[..|b| - 1];
      assert (a + b)[..|a + b| - 1] == a + b';
      DocumentsAppend(a, b');
    } else {
      assert a + b == a;
    }
  }

  /** Every kept document has text that is not whitespace only and a source
      without '/', and there are never more documents than files. */
  lemma {:induction false} DocumentsWellFormed(files: seq<PdfFile>)
    ensures |Documents(files)| <= |files|
    ensures forall d :: d in Documents(files) ==> !IsBlank(d.text) && '/' !in d.source
  {
    if files != [] {
      var prefix := files[..|files| - 1];
      var last := files[|files| - 1];
      DocumentsWellFormed(prefix);
      SingleFileDocuments(last);
      assert Documents(files) == Documents(prefix) + FileDocuments(last);
      forall d | d in Documents(files) ensures !IsBlank(d.text) && '/' !in d.source {
        if d !in Documents(prefix) {
          assert d == FileDocuments(last)[0];
        }
      }
    }
  }

  // ---------------------------------------------------------------------------
  // Chunking (`chunk_documents`)

  /** The chunk records of one document whose splits are `splits`, drawing
      ids from `draw` on. */
  function DocumentChunks(source: string, splits: seq<string>, draw: nat): (r: seq<Chunk>)
    ensures |r| == |splits|
    ensures forall i {:trigger r[i]} :: 0 <= i < |splits| ==>
              r[i] == Chunk(ChunkId(draw + i), splits[i], ChunkMetadata(source, i, splits[i]))
  {
    if splits == [] then []
    else
      var n := |splits| - 1;
      DocumentChunks(source, splits[..n], draw) + [Chunk(ChunkId(draw + n), splits[n], ChunkMetadata(source, n, splits[n]))]
  }

  /** The total number of splits of the first `n` documents. */
  function SplitCount(docs: seq<Document>, n: nat, split: string -> seq<string>): nat
    requires n <= |docs|
  {
    if n == 0 then 0 else SplitCount(docs, n - 1, split) + |split(docs[n - 1].text)|
  }

  /** The chunks of the first `n` documents, document by document, the ids
      drawn in sequence from `draw`. */
  function Chunks(docs: seq<Document>, n: nat, split: string -> seq<string>, draw: nat): (r: seq<Chunk>)
    requires n <= |docs|
    ensures |r| == SplitCount(docs, n, split)
    ensures forall k :: 0 <= k < |r| ==> r[k].id == ChunkId(draw + k)
    ensures forall k :: 0 <= k < |r| ==> r[k].metadata.text == r[k].text
  {
    if n == 0 then []
    else
      var d := docs[n - 1];
      Chunks(docs, n - 1, split, draw) + DocumentChunks(d.source, split(d.text), draw + SplitCount(docs, n - 1, split))
  }

  /** Appending the record of split `i` to chunks built from the first `i`
      splits gives the chunks of the first `i + 1` splits: the record has the
      next id and the split's position as its `chunk_index`. */
  lemma ChunkAppended(before: seq<Chunk>, source: string, splits: seq<string>, start: nat, i: nat)
    requires i < |splits|
    ensures before + DocumentChunks(source, splits[..i], start)
              + [Chunk(ChunkId(start + i), splits[i], ChunkMetadata(source, i, splits[i]))]
            == before + DocumentChunks(source, splits[..i + 1], start)
  {
    assert splits[..i + 1][..i] == splits[..i];
  }

  /** The inner loop of `chunk_documents`: appends to `chunks` the record of
      each split of one document, drawing ids from `draw` on. */
  method AppendDocumentChunks(chunks: seq<Chunk>, source: string, splits: seq<string>, draw: nat)
    returns (extended: seq<Chunk>, nextDraw: nat)
    ensures extended == chunks + DocumentChunks(source, splits, draw)
    ensures nextDraw == draw + |splits|
  {
    extended := chunks;
    nextDraw := draw;
    var i := 0;
    while i < |splits|
      invariant 0 <= i <= |splits|
      invariant extended == chunks + DocumentChunks(source, splits[..i], draw)
      invariant nextDraw == draw + i
    {
      ChunkAppended(chunks, source, splits, draw, i);
      var id := ChunkId(nextDraw);
      nextDraw := nextDraw + 1;
      extended := extended + [Chunk(id, splits[i], ChunkMetadata(source, i, splits[i]))];
      i := i + 1;
    }
    assert splits[..i] == splits;
  }

  /** Appending the chunks of document `j`, drawn right after those of the
      documents before it, to the chunks of the first `j` documents gives
      the chunks of the first `j + 1`. */
  lemma DocumentAppended(docs: seq<Document>, split: string -> seq<string>, draw: nat, j: nat, chunks: seq<Chunk>)
    requires j < |docs|
    requires chunks == Chunks(docs, j, split, draw)
    ensures chunks + DocumentChunks(docs[j].source, split(docs[j].text), draw + SplitCount(docs, j, split))
            == Chunks(docs, j + 1, split, draw)
  {
  }

  /** `chunk_documents(documents)`; `split` is the configured text splitter
      (`create_documents([text])`, keeping `page_content`) and `draw` the
      number of uuid4 calls made so far. Also returns the new draw count. */
  method ChunkDocuments(documents: seq<Document>, split: string -> seq<string>, draw: nat)
    returns (chunks: seq<Chunk>, nextDraw: nat)
    ensures chunks == Chunks(documents, |documents|, split, draw)
    ensures nextDraw == draw + |chunks|
  {
    chunks := [];
    nextDraw := draw;
    var j := 0;
    while j < |documents|
      invariant 0 <= j <= |documents|
      invariant chunks == Chunks(documents, j, split, draw)
      invariant nextDraw == draw + SplitCount(documents, j, split)
    {
      DocumentAppended(documents, split, draw, j, chunks);
      chunks, nextDraw := AppendDocumentChunks(chunks, documents[j].source, split(documents[j].text), nextDraw);
      j := j + 1;
    }
  }

  /** Chunk ids are pairwise distinct, and distinct from every id drawn
      before the run. */
  lemma ChunkIdsFresh(docs: seq<Document>, split: string -> seq<string>, draw: nat)
    ensures var cs := Chunks(docs, |docs|, split, draw);
            && (forall i, j :: 0 <= i < j < |cs| ==> cs[i].id != cs[j].id)
            && (forall i :: 0 <= i < |cs| ==> cs[i].id.draw >= draw)
  {
  }

  /** The chunks of the first `m` documents are a prefix of those of the
      first `n`. */
  lemma {:induction false} ChunksPrefix(docs: seq<Document>, split: string -> seq<string>, draw: nat, m: nat, n: nat)
    requires m <= n <= |docs|
    ensures SplitCount(docs, m, split) <= SplitCount(docs, n, split)
    ensures Chunks(docs, m, split, draw) == Chunks(docs, n, split, draw)[..SplitCount(docs, m, split)]
    decreases n
  {
    if m < n {
      ChunksPrefix(docs, split, draw, m, n - 1);
    }
  }

  /** Document `j`'s chunks sit, in split order, right after those of the
      documents before it; their `chunk_index` runs 0, 1, ... and they carry
      the document's source. */
  lemma DocumentSegment(docs: seq<Document>, split: string -> seq<string>, draw: nat, j: nat)
    requires j < |docs|
    ensures var lo := SplitCount(docs, j, split);
            var hi := SplitCount(docs, j + 1, split);
            && lo <= hi <= SplitCount(docs, |docs|, split)
            && hi - lo == |split(docs[j].text)|
            && Chunks(docs, |docs|, split, draw)[lo..hi]
               == DocumentChunks(docs[j].source, split(docs[j].text), draw + lo)
  {
    var hi := SplitCount(docs, j + 1, split);
    ChunksPrefix(docs, split, draw, j + 1, |docs|);
    var all := Chunks(docs, |docs|, split, draw);
    var upto := Chunks(docs, j + 1, split, draw);
    assert upto == all[..hi];
    assert all[SplitCount(docs, j, split)..hi] == upto[SplitCount(docs, j, split)..];
  }

  // ---------------------------------------------------------------------------
  // The Pinecone account (`initialize_pinecone`)

  /** The indexes after ensure-index: unchanged when `name` exists, otherwise
      with `name` created as a 1024-dimensional cosine index. */
  function EnsureIndex(existing: map<string, IndexSpec>, name: string, environment: string)
    : (r: map<string, IndexSpec>)
    ensures r.Keys == existing.Keys + {name}
    ensures forall n :: n in existing ==> r[n] == existing[n]
    ensures name !in existing ==> r[name] == IndexSpec(Dimension, Metric, environment)
  {
    if name in existing then existing else existing[name := IndexSpec(Dimension, Metric, environment)]
  }

  /** Ensuring an index a second time changes nothing, whatever environment
      is given then. */
  lemma EnsureIndexIdempotent(existing: map<string, IndexSpec>, name: string, env1: string, env2: string)
    ensures EnsureIndex(EnsureIndex(existing, name, env1), name, env2) == EnsureIndex(existing, name, env1)
  {
  }

  /** The account calls `initialize_pinecone` makes, each of which can raise. */
  datatype AccountCall = Listing | Creation | Opening

  /** What `initialize_pinecone` leaves behind, given the indexes that exist
      and the calls that raise (with their messages): the message of the
      first call that raises, or the handle of the index. */
  function InitResult(existing: map<string, IndexSpec>, failing: map<AccountCall, string>, name: string)
    : (r: Result<string>)
    ensures r.Ok? <==> Listing !in failing && Opening !in failing && (name in existing || Creation !in failing)
    ensures r.Ok? ==> r.value == name
    ensures r.Err? ==> r.error in failing.Values
    ensures Listing in failing ==> r == Err(failing[Listing])
    ensures Listing !in failing && name !in existing && Creation in failing ==> r == Err(failing[Creation])
    ensures Listing !in failing && (name in existing || Creation !in failing) && Opening in failing ==>
              r == Err(failing[Opening])
  {
    if Listing in failing then Err(failing[Listing])
    else if name !in existing && Creation in failing then Err(failing[Creation])
    else if Opening in failing then Err(failing[Opening])
    else Ok(name)
  }

  /** The indexes after `initialize_pinecone`: a raising listing or creation
      leaves them as they were; otherwise the index is ensured (a raising
      `pc.Index(...)` comes after that). */
  function IndexesAfterInit(existing: map<string, IndexSpec>, failing: map<AccountCall, string>,
                            name: string, environment: string): (r: map<string, IndexSpec>)
    ensures existing.Keys <= r.Keys && forall n :: n in existing ==> r[n] == existing[n]
    ensures Listing !in failing && (name in existing || Creation !in failing) ==>
              r == EnsureIndex(existing, name, environment)
    ensures name in existing ==> r == existing
    ensures r != existing <==> Listing !in failing && name !in existing && Creation !in failing
  {
    if Listing in failing || (name !in existing && Creation in failing) then existing
    else EnsureIndex(existing, name, environment)
  }

  class Pinecone {
    /** The indexes of the account, by name. */
    var indexes: map<string, IndexSpec>
    /** Every upsert call made, oldest first. */
    var upserts: seq<UpsertCall>
    /** The account calls that raise, with the exception's message (an
        unreachable service or a rejected key makes every one of them
        raise). */
    var failing: map<AccountCall, string>

    constructor (existing: map<string, IndexSpec>, failures: map<AccountCall, string>)
      ensures indexes == existing && upserts == [] && failing == failures
    {
      indexes := existing;
      upserts := [];
      failing := failures;
    }

    /** `[index.name for index in pc.list_indexes()]`, as a set. */
    method ListIndexes() returns (r: Result<set<string>>)
      ensures Listing in failing ==> r == Err(failing[Listing])
      ensures Listing !in failing ==> r.Ok? && (forall n :: n in r.value <==> n in indexes)
    {
      if Listing in failing {
        return Err(failing[Listing]);
      }
      r := Ok(indexes.Keys);
    }

    /** `pc.create_index(name=..., dimension=..., metric=..., spec=...)`;
        raises without effect when the call fails or the name is taken. */
    method CreateIndex(name: string, spec: IndexSpec) returns (r: Outcome)
      modifies this
      ensures r.Pass? <==> Creation !in failing && name !in old(indexes)
      ensures Creation in failing ==> r == Fail(failing[Creation])
      ensures indexes == if r.Pass? then old(indexes)[name := spec] else old(indexes)
      ensures upserts == old(upserts) && failing == old(failing)
    {
      if Creation in failing {
        return Fail(failing[Creation]);
      }
      if name in indexes {
        return Fail("index already exists");
      }
      indexes := indexes[name := spec];
      r := Pass;
    }

    /** `pc.Index(name)`: the handle of index `name`. */
    method OpenIndex(name: string) returns (r: Result<string>)
      ensures Opening in failing ==> r == Err(failing[Opening])
      ensures Opening !in failing ==> r == Ok(name)
    {
      if Opening in failing {
        return Err(failing[Opening]);
      }
      r := Ok(name);
    }

    /** `index.upsert(vectors=batch)` on the handle of index `name`. */
    method Upsert(name: string, batch: seq<UpsertRecord>)
      modifies this
      ensures upserts == old(upserts) + [UpsertCall(name, batch)]
      ensures indexes == old(indexes) && failing == old(failing)
    {
      upserts := upserts + [UpsertCall(name, batch)];
    }
  }

  /** `initialize_pinecone()`: lists the index names, creates the index only
      if its name is not listed, and returns the handle; `Err` as soon as one
      of these calls raises. */
  method InitializePinecone(pc: Pinecone, indexName: string, environment: string)
    returns (index: Result<string>)
    modifies pc
    ensures index == InitResult(old(pc.indexes), old(pc.failing), indexName)
    ensures pc.indexes == IndexesAfterInit(old(pc.indexes), old(pc.failing), indexName, environment)
    ensures pc.upserts == old(pc.upserts) && pc.failing == old(pc.failing)
  {
    var existing := pc.ListIndexes();
    if existing.Err? {
      return Err(existing.error);
    }
    if indexName !in existing.value {
      var created := pc.CreateIndex(indexName, IndexSpec(Dimension, Metric, environment));
      if created.Fail? {
        return Err(created.error);
      }
    }
    index := pc.OpenIndex(indexName);
  }

  // ---------------------------------------------------------------------------
  // Upload (`embed_and_upload`)

  /** `[chunk["text"] for chunk in chunks]` */
  function ChunkTexts(chunks: seq<Chunk>): (r: seq<string>)
    ensures |r| == |chunks|
    ensures forall i :: 0 <= i < |chunks| ==> r[i] == chunks[i].text
  {
    if chunks == [] then [] else [chunks[0].text] + ChunkTexts(chunks[1..])
  }

  /** The payload: `zip(chunks, vectors)`, one record per pair, stopping at
      the shorter of the two. */
  function Payload(chunks: seq<Chunk>, vectors: seq<Vector>): (r: seq<UpsertRecord>)
    ensures |r| == Min(|chunks|, |vectors|)
    ensures forall i :: 0 <= i < |r| ==>
              r[i] == UpsertRecord(chunks[i].id, vectors[i], chunks[i].metadata)
  {
    if chunks == [] || vectors == [] then []
    else [UpsertRecord(chunks[0].id, vectors[0], chunks[0].metadata)] + Payload(chunks[1..], vectors[1..])
  }

  /** The batches `payload[i:i+100]` for `i` in `range(start, len(payload), 100)`. */
  function BatchesFrom(payload: seq<UpsertRecord>, start: nat): seq<seq<UpsertRecord>>
    decreases |payload| - start
  {
    if start >= |payload| then []
    else [payload[start..Min(start + BatchSize, |payload|)]] + BatchesFrom(payload, start + BatchSize)
  }

  /** The batches of the whole payload. */
  function Batches(payload: seq<UpsertRecord>): seq<seq<UpsertRecord>>
  {
    BatchesFrom(payload, 0)
  }

  function Flatten(batches: seq<seq<UpsertRecord>>): seq<UpsertRecord>
  {
    if batches == [] then [] else batches[0] + Flatten(batches[1..])
  }

  /** The upsert calls for the batches, in order, against index `index`. */
  function UploadCalls(index: string, batches: seq<seq<UpsertRecord>>): (r: seq<UpsertCall>)
    ensures |r| == |batches|
    ensures forall k :: 0 <= k < |r| ==> r[k] == UpsertCall(index, batches[k])
  {
    if batches == [] then []
    else UploadCalls(index, batches[..|batches| - 1]) + [UpsertCall(index, batches[|batches| - 1])]
  }

  /** The batches put back together give the payload from `start` on. */
  lemma {:induction false} BatchesFlatten(payload: seq<UpsertRecord>, start: nat)
    requires start <= |payload|
    ensures Flatten(BatchesFrom(payload, start)) == payload[start..]
    decreases |payload| - start
  {
    if start < |payload| {
      var end := Min(start + BatchSize, |payload|);
      var rest := BatchesFrom(payload, start + BatchSize);
      if start + BatchSize <= |payload| {
        BatchesFlatten(payload, start + BatchSize);
      } else {
        assert rest == [];
      }
      assert BatchesFrom(payload, start)[1..] == rest;
      assert payload[start..] == payload[start..end] + payload[end..];
    }
  }

  /** Every batch holds between 1 and 100 records, and every batch but the
      last holds exactly 100. */
  predicate WellSized(bs: seq<seq<UpsertRecord>>)
  {
    && (forall k :: 0 <= k < |bs| ==> 0 < |bs[k]| <= BatchSize)
    && (forall k :: 0 <= k < |bs| - 1 ==> |bs[k]| == BatchSize)
  }

  lemma {:induction false} BatchSizes(payload: seq<UpsertRecord>, start: nat)
    ensures WellSized(BatchesFrom(payload, start))
    decreases |payload| - start
  {
    if start < |payload| {
      BatchSizes(payload, start + BatchSize);
      var bs := BatchesFrom(payload, start);
      var rest := BatchesFrom(payload, start + BatchSize);
      assert bs == [bs[0]] + rest;
      if start + BatchSize > |payload| {
        assert rest == [];
      } else {
        assert |bs[0]| == BatchSize;
        forall k | 1 <= k < |bs| ensures bs[k] == rest[k - 1] {
        }
      }
    }
  }

  /** There are `ceil((len(payload) - start) / 100)` batches. */
  lemma {:induction false} BatchCount(payload: seq<UpsertRecord>, start: nat)
    requires start <= |payload|
    ensures |BatchesFrom(payload, start)| == (|payload| - start + BatchSize - 1) / BatchSize
    decreases |payload| - start
  {
    if start < |payload| && start + BatchSize <= |payload| {
      BatchCount(payload, start + BatchSize);
    } else if start < |payload| {
      assert BatchesFrom(payload, start + BatchSize) == [];
    }
  }

  /** Batch `k` is the slice of the payload at offset `start + 100 * k`. */
  lemma {:induction false} BatchAt(payload: seq<UpsertRecord>, start: nat, k: nat)
    requires k < |BatchesFrom(payload, start)|
    ensures start + k * BatchSize < |payload|
    ensures BatchesFrom(payload, start)[k]
            == payload[start + k * BatchSize..Min(start + k * BatchSize + BatchSize, |payload|)]
    decreases k
  {
    if k > 0 {
      BatchAt(payload, start + BatchSize, k - 1);
    }
  }

  /** 250 records go out as three upserts of 100, 100 and 50. */
  lemma TwoHundredFiftyRecords(payload: seq<UpsertRecord>)
    requires |payload| == 250
    ensures var bs := Batches(payload);
            |bs| == 3 && |bs[0]| == 100 && |bs[1]| == 100 && |bs[2]| == 50
  {
    var b2 := BatchesFrom(payload, 200);
    assert BatchesFrom(payload, 300) == [];
    assert |b2| == 1 && |b2[0]| == 50;
    var b1 := BatchesFrom(payload, 100);
    assert b1 == [payload[100..200]] + b2;
    var b0 := BatchesFrom(payload, 0);
    assert b0 == [payload[0..100]] + b1;
  }

  /** An empty payload issues no upsert. */
  lemma EmptyPayloadNoUpsert(index: string, payload: seq<UpsertRecord>)
    requires payload == []
    ensures UploadCalls(index, Batches(payload)) == []
  {
  }

  /** The batch loop of `embed_and_upload`: one upsert per batch, in order. */
  method UpsertBatches(pc: Pinecone, index: string, toUpsert: seq<UpsertRecord>)
    modifies pc
    ensures pc.indexes == old(pc.indexes) && pc.failing == old(pc.failing)
    ensures pc.upserts == old(pc.upserts) + UploadCalls(index, Batches(toUpsert))
  {
    var batchSize := BatchSize;
    var i := 0;
    ghost var done: seq<seq<UpsertRecord>> := [];
    while i < |toUpsert|
      invariant pc.indexes == old(pc.indexes) && pc.failing == old(pc.failing)
      invariant pc.upserts == old(pc.upserts) + UploadCalls(index, done)
      invariant done + BatchesFrom(toUpsert, i) == Batches(toUpsert)
      decreases |toUpsert| - i
    {
      var batch := toUpsert[i..Min(i + batchSize, |toUpsert|)];
      assert BatchesFrom(toUpsert, i) == [batch] + BatchesFrom(toUpsert, i + batchSize);
      pc.Upsert(index, batch);
      assert (done + [batch])[..|done|] == done;
      assert UploadCalls(index, done + [batch]) == UploadCalls(index, done) + [UpsertCall(index, batch)];
      done := done + [batch];
      i := i + batchSize;
    }
    assert BatchesFrom(toUpsert, i) == [];
    assert done == Batches(toUpsert);
  }

  /** `embed_and_upload(chunks, index)`; `embed` is the embedding model
      built by `HuggingFaceEmbeddings(...)` applied with `embed_documents`.
      It gives `Err` when either the construction or the embedding raises,
      and then nothing is uploaded. */
  method EmbedAndUpload(chunks: seq<Chunk>, embed: seq<string> -> Result<seq<Vector>>,
                        pc: Pinecone, index: string) returns (r: Outcome)
    modifies pc
    ensures pc.indexes == old(pc.indexes) && pc.failing == old(pc.failing)
    ensures embed(ChunkTexts(chunks)).Err? ==>
              r == Fail(embed(ChunkTexts(chunks)).error) && pc.upserts == old(pc.upserts)
    ensures embed(ChunkTexts(chunks)).Ok? ==>
              && r == Pass
              && pc.upserts == old(pc.upserts)
                 + UploadCalls(index, Batches(Payload(chunks, embed(ChunkTexts(chunks)).value)))
  {
    var texts := ChunkTexts(chunks);
    var vectors := embed(texts);
    if vectors.Err? {
      return Fail(vectors.error);
    }
    var toUpsert := Payload(chunks, vectors.value);
    UpsertBatches(pc, index, toUpsert);
    r := Pass;
  }

  // ---------------------------------------------------------------------------
  // The pipeline (`process_and_index_pdfs`)

  /** `process_and_index_pdfs(directory)`: stops before chunking, touching the
      index, or uploading when no document was produced; otherwise chunks,
      initialises the index and uploads. A raising account call ends the run
      (`Fail`) before anything is uploaded. `draw` is the number of uuid4
      calls made so far and `nextDraw` the number after the run. */
  method ProcessAndIndexPdfs(files: seq<PdfFile>, split: string -> seq<string>,
                             embed: seq<string> -> Result<seq<Vector>>, draw: nat,
                             pc: Pinecone, indexName: string, environment: string)
    returns (r: Outcome, nextDraw: nat)
    modifies pc
    ensures pc.failing == old(pc.failing)
    ensures Documents(files) == [] ==>
              && r == Pass && nextDraw == draw
              && pc.indexes == old(pc.indexes) && pc.upserts == old(pc.upserts)
    ensures Documents(files) != [] ==>
              var chunks := Chunks(Documents(files), |Documents(files)|, split, draw);
              var init := InitResult(old(pc.indexes), old(pc.failing), indexName);
              var vectors := embed(ChunkTexts(chunks));
              && nextDraw == draw + |chunks|
              && pc.indexes == IndexesAfterInit(old(pc.indexes), old(pc.failing), indexName, environment)
              && (init.Err? ==> r == Fail(init.error) && pc.upserts == old(pc.upserts))
              && (init.Ok? && vectors.Err? ==> r == Fail(vectors.error) && pc.upserts == old(pc.upserts))
              && (init.Ok? && vectors.Ok? ==>
                    r == Pass
                    && pc.upserts == old(pc.upserts)
                       + UploadCalls(indexName, Batches(Payload(chunks, vectors.value))))
  {
    var documents := ProcessPdfsDirectory(files);
    if documents == [] {
      return Pass, draw;
    }
    var chunks;
    chunks, nextDraw := ChunkDocuments(documents, split, draw);
    var index := InitializePinecone(pc, indexName, environment);
    if index.Err? {
      return Fail(index.error), nextDraw;
    }
    r := EmbedAndUpload(chunks, embed, pc, index.value);
  }
}

# Medical RAG chatbot backend: a Dafny model

This project models the deterministic core of a retrieval-augmented medical
chatbot backend. It has three parts:

- **Query pipeline** (`MedicalRAGEngine`, module `RagEngine`). The matches
  returned by the vector index become a combined context: each match's
  `metadata.text` (default `""`), joined with a blank line in match order.
  They also yield a de-duplicated source list, each `metadata.source`
  defaulted to `"Unknown"`. A fixed prompt template is filled in. The
  completion response is parsed. `query` then decides between three
  outcomes: the fixed error message, the fixed no-information message, or
  the generated answer with its sources.
- **Ingestion** (module `PdfProcessor`). Page texts are concatenated, with a
  page without text contributing `""`. Files whose extraction raises, or
  whose text is whitespace only, are skipped. Chunk records get a fresh id,
  a per-document zero-based `chunk_index` and a copy of their text in the
  metadata. Index creation is idempotent. Chunks are zipped with their
  vectors and uploaded in batches of 100. The pipeline stops early when no
  document was produced.
- **Flask backend** (module `App`). The globals `rag_engine`,
  `initialization_complete` and `initialization_error` become a class
  `Server`. The model covers the status-code mapping of `/status` and the
  order of the guards in `/query` and `/process_pdfs`.

Every external service is an input:

- The embedding calls, the vector search, the Together completion API and
  PDF reading are function-typed parameters or given values. Each returns
  `Err` when the call would raise.
- The text splitter and `os.path.isdir` are total functions.
- The failure to start the ingestion thread is an optional message.
- The Pinecone account of the ingestion side is the class
  `PdfProcessor.Pinecone`. It records the indexes the account holds, which
  of the calls `list_indexes`, `create_index` and `Index` raise (with their
  messages), and every upsert call made against it.

`uuid.uuid4()` is a fresh-token supply: the n-th call of the process yields
`ChunkId(n)`. `ProcessAndIndexPdfs` returns the count after its run, so two
runs in one process draw disjoint ids.

Some of the source's quirks are modelled as written:

- When the completion is empty, `generate_response` returns the pair
  `(message, [])`, not a string. `query` then returns
  `((message, []), sources)`. `RagEngine.Response.TextAndSources` carries
  that pair, and `EmptyCompletionNestsFallbackPair` states the nesting.
- An initialisation failure whose message is the empty string is falsy. The
  system then reports "ready" although it has no engine. Every query that
  passes the guards then gets the generic 500 (`Server.ReadyWithoutEngine`,
  `Server.HandleQuery`).
- `list(set(sources))` has no defined order. `RagEngine.ListOfSet` picks the
  elements in an arbitrary order, and its contract says only what Python
  guarantees: no duplicates, and the same set.

Facts about the ingestion code that the model keeps:

- `process_and_index_pdfs` returns nothing: no document or chunk counts.
- The source reports no count of the records written. A failing upsert batch
  is not modelled; it is listed under "## Left out".
- No bound on chunk length or overlap is enforced.

The source file has CRLF line endings. Python reads them as `"\n"` inside the
triple-quoted prompt, so the modelled prompt uses `"\n"`. In the template,
the first two lines keep their trailing space.

## Model

| member | source | states |
|---|---|---|
| `Text.StripIsTrimmedSlice` | medical-chatbot/medical-chatbot/backend/rag_engine.py:81 | `s.strip()` is a slice of `s` with only whitespace outside it; when non-empty it neither starts nor ends with whitespace |
| `Text.StripEmptyIffBlank` | medical-chatbot/medical-chatbot/backend/rag_engine.py:93 | `not s.strip()` holds exactly when every character of `s` is whitespace |
| `Text.JoinBlankIffPartsBlank` | medical-chatbot/medical-chatbot/backend/rag_engine.py:52 | joining with a whitespace separator is blank exactly when every part is blank |
| `Text.Basename` | medical-chatbot/medical-chatbot/backend/pdf_processor.py:32 | the base name is the suffix after the last '/', contains no '/', and is the whole path when there is no '/' |
| `Common.NoDuplicatesOccursOnce` | medical-chatbot/medical-chatbot/backend/rag_engine.py:53 | in a de-duplicated source list, a source cited by many matches occurs exactly once |
| `Common.SingletonListing` | medical-chatbot/medical-chatbot/backend/rag_engine.py:53 | a duplicate-free listing of a one-element set is that element alone |
| `RagEngine.NewEngine` | medical-chatbot/medical-chatbot/backend/rag_engine.py:10-34 | the engine is built exactly when its index name is among the listed indexes; otherwise the error names the missing index; a failure to list propagates |
| `RagEngine.MatchTexts` | medical-chatbot/medical-chatbot/backend/rag_engine.py:45-49 | one text per match, in match order; a missing metadata or text gives "" |
| `RagEngine.MatchSources` | medical-chatbot/medical-chatbot/backend/rag_engine.py:45-50 | one source per match, in match order; a missing metadata or source gives "Unknown" |
| `RagEngine.ListOfSet` | medical-chatbot/medical-chatbot/backend/rag_engine.py:53 | `list(set(xs))` has no duplicates and exactly the elements of the set |
| `RagEngine.RetrieveRelevantContext` | medical-chatbot/medical-chatbot/backend/rag_engine.py:37-53 | a failing embedding or search call fails the retrieval; otherwise the context is the match texts joined by "\n\n" in match order, and the sources are duplicate-free with the same set as the matches' defaulted sources |
| `RagEngine.BlankContextIffBlankTexts` | medical-chatbot/medical-chatbot/backend/rag_engine.py:42-52 | the combined context is whitespace only exactly when every match text is; zero matches give "" |
| `RagEngine.PromptLayout` | medical-chatbot/medical-chatbot/backend/rag_engine.py:57-69 | the prompt is the preamble, the CONTEXT header, the context, the QUESTION header, the question and the ANSWER header, in that order; context and question are read back from their positions |
| `RagEngine.CompletionRequestFor` | medical-chatbot/medical-chatbot/backend/rag_engine.py:70-79 | the request uses the engine's model and the prompt, max_tokens 1024, temperature 0.3, top_p 0.9, top_k 50, repetition penalty 1.1, and stop sequences exactly ["QUESTION:", "CONTEXT:"] |
| `RagEngine.StopSequencesAreHeaders` | medical-chatbot/medical-chatbot/backend/rag_engine.py:62-78 | the stop sequences are exactly "QUESTION:" and "CONTEXT:"; "CONTEXT:" occurs in the prompt right after the preamble and the header's line break, and "QUESTION:" right after the context and the question header's two line breaks |
| `RagEngine.GenerateResponse` | medical-chatbot/medical-chatbot/backend/rag_engine.py:55-86 | a raising completion call or a first choice without text fails; no choices or a blank first text give the fallback pair; otherwise the answer is the stripped first text |
| `RagEngine.ParseCompletion` | medical-chatbot/medical-chatbot/backend/rag_engine.py:81-86 | missing or empty choices, or a blank first text, give the fallback pair `(message, [])`; a first choice without text raises; otherwise the answer is the stripped first text, non-empty with no surrounding whitespace |
| `RagEngine.QueryOutcome` | medical-chatbot/medical-chatbot/backend/rag_engine.py:88-101 | a failed search fails; otherwise no-information exactly when the combined context is whitespace only, failure exactly when it is not and generation fails, and otherwise the generated response with the matches' source set |
| `RagEngine.Query` | medical-chatbot/medical-chatbot/backend/rag_engine.py:88-101 | a failed retrieval or generation gives the error message with []; a blank context gives the no-information message with []; otherwise the generated response with the retrieved sources (duplicate-free, same set) |
| `RagEngine.NoContextIffBlankTexts` | medical-chatbot/medical-chatbot/backend/rag_engine.py:91-94 | once matches are retrieved, the no-information outcome happens exactly when every match text is whitespace only, zero matches included |
| `RagEngine.ShortCircuitIgnoresGenerator` | medical-chatbot/medical-chatbot/backend/rag_engine.py:90-94 | when retrieval fails or the context is blank, the outcome is the same whatever the completion service does |
| `RagEngine.EmptyCompletionNestsFallbackPair` | medical-chatbot/medical-chatbot/backend/rag_engine.py:83-97 | with a non-blank context and a completion with no choices, the query's response is the fallback pair, placed next to the retrieved sources |
| `RagEngine.AnsweredTextNotBlank` | medical-chatbot/medical-chatbot/backend/rag_engine.py:81-97 | a generated string answer is never whitespace only |
| `RagEngine.SingleMatchSingleSource` | medical-chatbot/medical-chatbot/backend/rag_engine.py:45-53 | one retrieved match yields exactly its source as the source list |
| `PdfProcessor.PagesTextAppend` | medical-chatbot/medical-chatbot/backend/pdf_processor.py:16-19 | the extracted text of two runs of pages is the text of the first run followed by that of the second |
| `PdfProcessor.ExtractTextFromPdf` | medical-chatbot/medical-chatbot/backend/pdf_processor.py:13-19 | the result is the in-order concatenation of the page texts, a page without text contributing ""; an unreadable file fails |
| `PdfProcessor.ProcessPdfsDirectory` | medical-chatbot/medical-chatbot/backend/pdf_processor.py:21-40 | the documents are those of the files taken one by one, in file order |
| `PdfProcessor.SingleFileDocuments` | medical-chatbot/medical-chatbot/backend/pdf_processor.py:27-38 | a file yields one document exactly when it can be read and its text is not whitespace only; the document holds that text under the file's base name |
| `PdfProcessor.DocumentsAppend` | medical-chatbot/medical-chatbot/backend/pdf_processor.py:26-38 | files are processed independently and in order: a failing file does not affect the documents of the others |
| `PdfProcessor.DocumentsWellFormed` | medical-chatbot/medical-chatbot/backend/pdf_processor.py:29-33 | every document has non-blank text and a source without '/'; there are never more documents than files |
| `PdfProcessor.DocumentChunks` | medical-chatbot/medical-chatbot/backend/pdf_processor.py:56-65 | the i-th chunk of a document has the i-th split as text and as metadata text, chunk_index i, the document's source, and the i-th fresh id |
| `PdfProcessor.Chunks` | medical-chatbot/medical-chatbot/backend/pdf_processor.py:53-65 | for the first n documents: the number of chunks is the sum of their split counts; the k-th chunk has the k-th fresh id; metadata text equals text for every chunk |
| `PdfProcessor.ChunkDocuments` | medical-chatbot/medical-chatbot/backend/pdf_processor.py:42-68 | the nested loop builds exactly the chunk records of the documents, one fresh id per chunk |
| `PdfProcessor.AppendDocumentChunks` | medical-chatbot/medical-chatbot/backend/pdf_processor.py:56-65 | the inner loop appends exactly one document's chunk records, in split order, and uses one id per split |
| `PdfProcessor.ChunkIdsFresh` | medical-chatbot/medical-chatbot/backend/pdf_processor.py:58 | chunk ids are pairwise distinct and distinct from every id drawn before the run |
| `PdfProcessor.ChunksPrefix` | medical-chatbot/medical-chatbot/backend/pdf_processor.py:54-65 | for m <= n, the chunks of the first m documents are a prefix of those of the first n |
| `PdfProcessor.DocumentSegment` | medical-chatbot/medical-chatbot/backend/pdf_processor.py:54-65 | document j's chunks follow those of the documents before it, in split order, with chunk_index 0..n-1 and its source |
| `PdfProcessor.EnsureIndex` | medical-chatbot/medical-chatbot/backend/pdf_processor.py:78-89 | the index is added only when its name is absent, as a 1024-dimensional cosine index; existing indexes are unchanged |
| `PdfProcessor.EnsureIndexIdempotent` | medical-chatbot/medical-chatbot/backend/pdf_processor.py:78-89 | ensuring the same index twice changes nothing the second time |
| `PdfProcessor.InitResult` | medical-chatbot/medical-chatbot/backend/pdf_processor.py:78-91 | initialisation yields the handle exactly when listing and opening do not raise and creation, when attempted, does not either; otherwise the message of the first call that raises, in the order listing, creation (made only for a name not listed), opening |
| `PdfProcessor.IndexesAfterInit` | medical-chatbot/medical-chatbot/backend/pdf_processor.py:78-89 | no index is ever lost or changed; the indexes change exactly when the name was not listed and neither listing nor creation raised; whenever listing succeeds and creation is either not needed or succeeds, the result is exactly the ensured indexes (a raising `pc.Index(...)` after that changes nothing) |
| `PdfProcessor.Pinecone.ListIndexes` | medical-chatbot/medical-chatbot/backend/pdf_processor.py:78 | the listed names are exactly the account's indexes, unless the call raises |
| `PdfProcessor.Pinecone.CreateIndex` | medical-chatbot/medical-chatbot/backend/pdf_processor.py:81-86 | creation adds the index exactly when the call does not raise and the name is free; otherwise nothing changes |
| `PdfProcessor.Pinecone.OpenIndex` | medical-chatbot/medical-chatbot/backend/pdf_processor.py:89 | the handle is the index's name, unless the call raises |
| `PdfProcessor.Pinecone.Upsert` | medical-chatbot/medical-chatbot/backend/pdf_processor.py:117 | one upsert call is recorded, with the index and the batch; the indexes are unchanged |
| `PdfProcessor.InitializePinecone` | medical-chatbot/medical-chatbot/backend/pdf_processor.py:70-91 | the handle or the first raised message is the one `InitResult` gives, the indexes are the ones `IndexesAfterInit` gives, and nothing is uploaded |
| `PdfProcessor.ChunkTexts` | medical-chatbot/medical-chatbot/backend/pdf_processor.py:98 | one text per chunk, in chunk order |
| `PdfProcessor.Payload` | medical-chatbot/medical-chatbot/backend/pdf_processor.py:104-111 | the i-th record pairs the i-th chunk's id and metadata with the i-th vector; the length is the shorter of the two lengths |
| `PdfProcessor.UploadCalls` | medical-chatbot/medical-chatbot/backend/pdf_processor.py:115-117 | one upsert call per batch, in batch order, against the given index |
| `PdfProcessor.BatchesFlatten` | medical-chatbot/medical-chatbot/backend/pdf_processor.py:115-116 | the batches concatenate back to the payload |
| `PdfProcessor.BatchSizes` | medical-chatbot/medical-chatbot/backend/pdf_processor.py:114-116 | every batch has between 1 and 100 records, and all but the last have exactly 100 |
| `PdfProcessor.BatchCount` | medical-chatbot/medical-chatbot/backend/pdf_processor.py:114-115 | there are ceil(n / 100) batches |
| `PdfProcessor.BatchAt` | medical-chatbot/medical-chatbot/backend/pdf_processor.py:115-116 | batch k starts at offset 100 * k and ends at the next offset or the payload's end |
| `PdfProcessor.TwoHundredFiftyRecords` | medical-chatbot/medical-chatbot/backend/pdf_processor.py:114-117 | a payload of 250 records is sent as three upserts of 100, 100 and 50 |
| `PdfProcessor.EmptyPayloadNoUpsert` | medical-chatbot/medical-chatbot/backend/pdf_processor.py:115-117 | an empty payload issues no upsert |
| `PdfProcessor.UpsertBatches` | medical-chatbot/medical-chatbot/backend/pdf_processor.py:114-118 | the loop issues exactly the upsert calls of the batches, in order, and changes no index |
| `PdfProcessor.EmbedAndUpload` | medical-chatbot/medical-chatbot/backend/pdf_processor.py:93-120 | the chunk texts are embedded; if that raises nothing is uploaded; otherwise the zipped payload is upserted batch by batch |
| `PdfProcessor.ProcessAndIndexPdfs` | medical-chatbot/medical-chatbot/backend/pdf_processor.py:122-135 | no documents: the store is untouched and no id is drawn; otherwise one id is drawn per chunk and the index is initialised; a raising account call or embedding ends the run with nothing uploaded, and otherwise the chunks' payload is uploaded in batches |
| `App.StatusReply` | medical-chatbot/medical-chatbot/backend/app.py:34-41 | not complete gives 202 "initializing"; complete with a truthy error gives 500 with the message; otherwise 200 "ready", including an empty-string error |
| `App.QueryPrecheck` | medical-chatbot/medical-chatbot/backend/app.py:46-57 | the guards run in order: not complete gives 503, then a truthy error gives 500, then a missing or empty query gives 400; they all pass exactly when none applies |
| `App.EarlierGuardShadowsLater` | medical-chatbot/medical-chatbot/backend/app.py:46-57 | while initialising the reply ignores the error and the query; with a truthy error it ignores the query |
| `App.ProcessPdfs` | medical-chatbot/medical-chatbot/backend/app.py:72-98 | a missing or empty directory gives 400, then a path that is not a directory gives 400; a start failure gives 500 with "Error starting PDF processing: " and its message; otherwise 202 with "Processing PDFs from '<directory>' has started" and a job for that directory; a job starts exactly on 202 |
| `App.Server.constructor` | medical-chatbot/medical-chatbot/backend/app.py:14-16 | at import time nothing is set and the status is 202 "initializing" |
| `App.MissingIndexReportsError` | medical-chatbot/medical-chatbot/backend/rag_engine.py:25-26 | an engine whose index is not listed fails to build, and `/status` then answers 500 with the not-found message |
| `App.Server.InitializeEngine` | medical-chatbot/medical-chatbot/backend/app.py:18-26 | always ends complete; only success sets the engine and only failure sets the error; after a failure the status is 500 exactly when the message is non-empty |
| `App.Server.Status` | medical-chatbot/medical-chatbot/backend/app.py:33-41 | 202 with "initializing" exactly while initialising, 500 with the message exactly when the error is non-empty, 200 with "ready" exactly when it completed without one, and ready without an engine only after an empty error |
| `App.Server.HandleQuery` | medical-chatbot/medical-chatbot/backend/app.py:44-69 | a failing guard decides the reply; with no engine to call the reply is the generic 500 without the exception text; otherwise 200 with the engine's response and sources |
| `App.Server.ReadyWithoutEngine` | medical-chatbot/medical-chatbot/backend/app.py:36-41 | a ready status without an engine happens only when initialisation failed with an empty message |

## Left out

- PDF parsing (`PdfReader`, `page.extract_text`): a file is given as its per-page results, or as a failure.
- Directory enumeration (`glob` for `*.pdf`): the files are given as a sequence, in `glob`'s order.
- The internals of LangChain's `RecursiveCharacterTextSplitter`, including its `chunk_size`/`chunk_overlap` configuration (defaults 1000 and 200, read from the environment). The configured splitter is an abstract function, and no chunk-length or overlap bound is claimed.
- Embedding values and similarity ranking: vectors are opaque, and the order of matches is taken as the store returns it.
- The Pinecone and Together SDKs. Their calls are parameters, or records in `PdfProcessor.Pinecone`.
- `RagEngine.NewEngine`: a raising `self.pinecone.Index(...)` after the index check is not modelled. The query side's handle is not a value the model opens.
- `PdfProcessor.Pinecone.Upsert`: always succeeds. A batch that fails in the middle of an upload, which would raise and abort the remaining batches, is not modelled.
- `PdfProcessor.ChunkDocuments`: ids are numbered draws (`ChunkId(n)`), not random 128-bit UUIDs. Their distinctness is exact here, while for uuid4 it is only overwhelmingly likely.
- Configuration through `dotenv` and `os.getenv`: model name, namespace, index name, environment and embedding model are parameters. An unset `PINECONE_INDEX_NAME` (None) is not modelled.
- Flask routing, JSON encoding and CORS. A request body that is not a JSON object (`request.json` is None) raises outside the handlers' `try`. A "query" field of a non-string JSON type is not modelled either: `App.Server.HandleQuery` takes the field as an optional string.
- `App.ProcessPdfs`: a "directory" field of a non-string JSON type (a number, a list, an object) is not modelled. The function takes the field as an optional string, so whatever `os.path.isdir` does with such a value is not covered.
- The background threads of initialisation and ingestion, and the races on the global flags. Only the sequential flag updates are modelled; `App.ProcessPdfs` returns the directory of the job it would start.
- `print`, `tqdm` progress bars, and the command-line entry point of `pdf_processor.py`.
- The Streamlit frontend.

# rag_qdrant core, modelled in Dafny

This project models the parts of the `rag_qdrant` retrieval-augmented question
answering service that make decisions of their own. The vector database, the
embedder, the text splitter, the document loader and the language model are
opaque collaborators.

- **Retrieval confidence** (`Confidence`). One similarity query's raw scores
  become a best score in [0, 1] and a low-confidence flag:
  - when every score is at most 1, the best score is the maximum;
  - otherwise it is one minus the minimum;
  - the result is then clamped to [0, 1];
  - an empty result has no best score and is always low-confidence.
- **Context assembly** (`Context`). Every retrieved document becomes a numbered
  section, in retrieval order. Its header names the source and the page, with
  placeholders for missing metadata.
- **The question chain** (`RagChain` for `src/app/core/rag_chain.py`,
  `AppRagChain` for the closure-based copy in `app/core/rag_chain.py`). A request
  runs these steps in order:
  - one similarity query with `k = retriever_k`;
  - the confidence and context step;
  - one chat-model call;
  - a success recording.

  Each request runs inside three timing scopes, and the wrapper records one
  error and re-raises when anything raised. Both chains are proved against the
  same reference functions: `Answer` is the result, `AnswerEvents` and
  `RequestEvents` are the exact hook calls in order. So the inlined duplicate
  behaves exactly like the helper-based chain.
- **Metrics** (`Metrics`). The Prometheus counters and histograms of
  `src/app/metrics.py` form a class, `Registry`, that its hooks update in place.
  A ghost history of hook calls always replays to the current values. Lemmas
  over the histories state that:
  - each request records exactly one outcome;
  - each timing scope observes once on every exit path;
  - the low-confidence counter moves exactly when a non-empty result is
    assessed as low.
- **Ingestion** (`InitDb`, `Batching`, `VectorIndex`). This is the script
  `src/scripts/init_db.py`:
  - it collects files by a case-insensitive extension test, in walk order;
  - it creates the collection only when it is missing;
  - it streams every document's chunks through a buffer that is flushed whole
    once it holds 32 or more chunks, and flushes any remainder once at the end.

  `Batching` states the buffer rule on values and proves these properties:
  - every chunk is sent exactly once and in order;
  - in-loop batches hold at least 32 chunks, and the buffer stays below 32
    between documents;
  - the final batch holds 1 to 31 chunks;
  - one hundred single-chunk documents go out as 32, 32, 32, 4.

  The imperative `InitDb.IndexChunks` loop is proved to send exactly these
  batches.

Collaborators are parameters:
- the similarity query is `(string, nat) -> Result<seq<Pair>, Exception>`;
- the chat model is `Prompt -> Result<string, Exception>`;
- the loader is `seq<string> -> seq<Document>`;
- the splitter is `(SplitterConfig, Document) -> seq<Document>`;
- `os.walk` is the list of its entries;
- the file system and the vector database are small classes holding the state
  the script reads and changes;
- durations measured by the timing scopes are inputs (`Timings`).

## Model

| member | source | states |
|---|---|---|
| Config.DefaultSettings | config/config.py:11-12 | the query chain's defaults: `retriever_k` 4 and threshold 0.3 |
| Config.DefaultIngestSettings | src/scripts/ingest_config.py:9-19 | the ingestion defaults: data path `./data`, chunk size 1000, overlap 100, vector size 384 |
| Documents.Get | src/app/core/rag_chain.py:36-37 | `metadata.get(key, default)` gives the stored value when the key is present and the default otherwise |
| Confidence.Max | src/app/core/rag_chain.py:28 | `max(scores)` is an element of the list and bounds every element from above |
| Confidence.Min | src/app/core/rag_chain.py:28 | `min(scores)` is an element of the list and bounds every element from below |
| Confidence.Clamp | src/app/core/rag_chain.py:29 | `min(1.0, max(0.0, x))` lies in [0, 1], keeps x inside the range and maps values below/above it to 0/1 |
| Confidence.RawBest | src/app/core/rag_chain.py:28 | the pre-clamp best score: the maximum when it is at most 1, otherwise one minus the minimum |
| Confidence.Assess | src/app/core/rag_chain.py:25-32 | best score absent iff the list is empty; empty means low confidence; a best score lies in [0, 1]; with a best score, low iff a threshold is set and the best score is below it |
| Confidence.SimilarityRegime | src/app/core/rag_chain.py:28-29 | all scores at most 1 give the clamped maximum, and the maximum itself when the scores are in [0, 1] |
| Confidence.DistanceRegime | src/app/core/rag_chain.py:28-29 | any score above 1 gives the clamped `1 - min`, and 0 when every score is at least 1 |
| Confidence.MaxBySet | src/app/core/rag_chain.py:28 | the maximum depends only on which values occur |
| Confidence.MinBySet | src/app/core/rag_chain.py:28 | the minimum depends only on which values occur |
| Confidence.AssessIgnoresOrder | src/app/core/rag_chain.py:27-32 | the assessment does not depend on the order or repetition of the returned scores |
| Confidence.NoThresholdOnlyEmptyIsLow | src/app/core/rag_chain.py:25-32 | with no threshold, a result is low-confidence exactly when it is empty |
| Confidence.ThresholdOutsideRange | src/app/core/rag_chain.py:29-32 | a threshold at most 0 flags only the empty result; a threshold above 1 flags every result |
| Confidence.ThresholdMonotone | src/app/core/rag_chain.py:31-32 | a result flagged at some threshold is flagged at every higher one |
| Confidence.ScenarioSimilarity | src/app/core/rag_chain.py:25-32 | scores [0.92, 0.81] with threshold 0.3 give best 0.92, not low |
| Confidence.ScenarioEmpty | src/app/core/rag_chain.py:25-26 | no scores give no best score and low confidence |
| Confidence.ScenarioDistance | src/app/core/rag_chain.py:28-32 | scores [1.5, 1.2] give best 0.0 (1 - 1.2 clamped), low at threshold 0.3 |
| Context.NatToString | src/app/core/rag_chain.py:38 | the rank renders as a non-empty decimal numeral without a leading zero |
| Context.ParseNatToString | src/app/core/rag_chain.py:38 | the rendered rank reads back as the rank |
| Context.SourceOf | src/app/core/rag_chain.py:36 | a document's `source` metadata, or "Неизвестный источник" when it has none |
| Context.PageOf | src/app/core/rag_chain.py:37 | a document's `page` metadata, or "?" when it has none |
| Context.Header | src/app/core/rag_chain.py:38 | the header line `\n--- Отрывок <rank> (Источник: <source>, Стр: <page>) ---\n` |
| Context.Section | src/app/core/rag_chain.py:36-38 | the section of the document at 0-based position i: the header ranked i+1 with its source and page, then its text and a newline |
| Context.RenderFrom | src/app/core/rag_chain.py:35-38 | the sections of a run of documents, ranked from a given position on |
| Context.Render | src/app/core/rag_chain.py:34-38 | the context: the sections of all documents in retrieval order, ranked 1..n, empty for no documents |
| Context.RenderFromAppend | src/app/core/rag_chain.py:34-38 | rendering two runs of documents renders the second after the first, its numbering continuing |
| Context.RenderSnoc | src/app/core/rag_chain.py:35-38 | one more document appends exactly its section, numbered after all earlier ones |
| Context.RenderSplit | src/app/core/rag_chain.py:35-38 | the document at position k yields section k+1, preceded by exactly the sections of the documents before it |
| Context.RenderEmptyIff | src/app/core/rag_chain.py:34-38 | the context is empty exactly when no document was retrieved |
| Context.ScenarioPlaceholders | src/app/core/rag_chain.py:36-38 | a document without metadata is attributed to "Неизвестный источник", page "?", and the sections are numbered 1 and 2 |
| Context.BuildContext | src/app/core/rag_chain.py:34-38 | the string-accumulating loop produces the rendering of all documents in order |
| Metrics.ReplayAppend | src/app/metrics.py:52-102 | applying two histories one after the other equals applying their concatenation |
| Metrics.CallsAppend | src/app/metrics.py:52-102 | hook-call counts add up over concatenated histories |
| Metrics.LowHitsAppend | src/app/metrics.py:101-102 | low-confidence hits add up over concatenated histories |
| Metrics.ReplayCounts | src/app/metrics.py:52-102 | each counter grows by the calls of its own hook, the low-confidence counter by the low recordings, and each histogram by one observation per call of its hook |
| Metrics.HookOf | src/app/metrics.py:52-102 | which hook each recorded event comes from |
| Metrics.IsLowConfidence | src/app/metrics.py:101 | a threshold is set and the best score is below it |
| Metrics.Apply | src/app/metrics.py:52-102 | the effect of one hook call: one observation in its own histogram or one increment of its own counter, the low-confidence counter only for a low quality recording |
| Metrics.Replay | src/app/metrics.py:52-102 | the metric values after a history of hook calls, applied in order |
| Metrics.Calls | src/app/metrics.py:52-102 | how many calls of one hook a history holds |
| Metrics.LowHits | src/app/metrics.py:101-102 | how many quality recordings of a history pass the low-confidence test |
| Metrics.Registry.Valid | src/app/metrics.py:7-102 | the metric objects hold the replay of the hook history from the initial values |
| Metrics.Registry.TrackRetrievalTime | src/app/metrics.py:52-59 | one observation in the retrieval-duration histogram, nothing else changes |
| Metrics.Registry.TrackLlmTime | src/app/metrics.py:62-69 | one observation in the generation-duration histogram, nothing else changes |
| Metrics.Registry.TrackRequestTime | src/app/metrics.py:72-79 | one observation in the request-duration histogram, nothing else changes |
| Metrics.Registry.RecordRetrievedDocs | src/app/metrics.py:82-83 | one observation of the document count, nothing else changes |
| Metrics.Registry.RecordSuccess | src/app/metrics.py:86-87 | the success counter grows by one, nothing else changes |
| Metrics.Registry.RecordError | src/app/metrics.py:90-91 | the error counter grows by one, nothing else changes |
| Metrics.Registry.RecordRetrievalQuality | src/app/metrics.py:94-102 | one best-score observation; the low-confidence counter grows by one iff a threshold is set and the score is below it |
| RagChain.DocsOf | src/app/core/rag_chain.py:49 | the documents of the pairs, position by position |
| RagChain.ScoresOf | src/app/core/rag_chain.py:50 | the scores of the pairs, position by position |
| RagChain.ContextEvents | src/app/core/rag_chain.py:24-30 | the hooks of `_build_enriched_context`: the document count, then the quality recording iff there are scores |
| RagChain.Answer | src/app/core/rag_chain.py:42-78 | the request's result: the query's or the model's exception unchanged, or the model's reply with the assessment of the retrieved scores |
| RagChain.PathOf | src/app/core/rag_chain.py:44-69 | how far a request gets: stopped by a raising query, or past retrieval with its document count, recorded best score and whether the model answered |
| RagChain.Trail | src/app/core/rag_chain.py:44-69 | the hook calls of `answer_question` along a path, in the order the `with` scopes and calls run |
| RagChain.WrappedTrail | src/app/core/rag_chain.py:72-78 | those hook calls followed by one error recording iff the request raised |
| RagChain.AnswerEvents | src/app/core/rag_chain.py:42-69 | the hook calls of `answer_question` for one question |
| RagChain.RequestEvents | src/app/core/rag_chain.py:72-78 | the hook calls of `answer_question_with_metrics` for one question |
| RagChain.ExpectedCalls | src/app/core/rag_chain.py:42-78 | how many times each hook fires along a path |
| RagChain.RaisedIff | src/app/core/rag_chain.py:72-78 | a request fails exactly when its path did not reach an answer |
| RagChain.RetrievalRaised | src/app/core/rag_chain.py:44-48 | a raising query ends the request with that exception, after the retrieval and request timings only |
| RagChain.RetrievalReturned | src/app/core/rag_chain.py:44-69 | after a returning query: the answer or the model's exception, and the hook calls in order (retrieval time, document count, quality if any, generation time, success if answered, request time) |
| RagChain.AnswerCarriesAssessment | src/app/core/rag_chain.py:46-69 | an answer is the model's reply to the rendered context of the `k = retriever_k` query, with a best score in [0, 1] iff something was retrieved, and low confidence when nothing was |
| RagChain.AnswerPropagatesException | src/app/core/rag_chain.py:72-78 | a failed request returns the collaborator's exception unchanged |
| RagChain.TrailCounts | src/app/core/rag_chain.py:42-78 | how many times each hook fires along each path |
| RagChain.StoppedCounts | src/app/core/rag_chain.py:44-48 | a raising query fires only the retrieval and request timings, once each |
| RagChain.GeneratedCounts | src/app/core/rag_chain.py:44-69 | past retrieval: retrieval, documents, generation and request once each; quality once iff recorded; success once iff answered |
| RagChain.TrailLowHits | src/app/core/rag_chain.py:27-32 | along a path the low-confidence counter moves once iff a recorded best score fails the threshold |
| RagChain.OneOutcomePerRequest | src/app/core/rag_chain.py:64-78 | each request adds one success when it answered and one error when it raised, never both |
| RagChain.EachScopeObservesOnce | src/app/core/rag_chain.py:44-62 | retrieval and request timings observe once per request on every exit path; generation timing and document count once iff the query returned |
| RagChain.LowConfidenceCounted | src/app/core/rag_chain.py:27-32 | the low-confidence counter moves once iff the query returned non-empty scores assessed as low, also when generation then fails |
| RagChain.LowConfidenceMatchesResult | src/app/core/rag_chain.py:25-32 | for an answered request the counter agrees with the returned flag when a best score exists, and does not move for an empty result although the flag is set |
| RagChain.TrailOrder | src/app/core/rag_chain.py:44-78 | retrieval timing comes first, the document count precedes the quality recording, success directly follows the generation timing, and a raised request ends with its error recording and has no success |
| RagChain.BuildEnrichedContext | src/app/core/rag_chain.py:22-39 | records the document count, then the quality iff there are scores; returns the rendering of the documents and the assessment of the scores |
| RagChain.AnswerQuestion | src/app/core/rag_chain.py:42-69 | returns `Answer` and makes exactly the hook calls `AnswerEvents`, in order |
| RagChain.AnswerQuestionWithMetrics | src/app/core/rag_chain.py:72-78 | returns the same result as `answer_question`, adds one error recording when it raised, and leaves the metrics at the replay of `RequestEvents` |
| AppRagChain.AnswerQuestion | app/core/rag_chain.py:42-79 | the inlined closure returns the same `Answer` and makes the same hook calls as the helper-based chain |
| AppRagChain.AnswerQuestionWithMetrics | app/core/rag_chain.py:81-86 | the outer closure returns the same result and leaves the same metrics as `answer_question_with_metrics` |
| VectorIndex.Index.CreateCollection | src/scripts/init_db.py:29-35 | adds the collection with the given parameters and logs one creation, no upsert |
| VectorIndex.Index.AddDocuments | src/scripts/init_db.py:86 | appends one upsert of the whole batch to an existing collection |
| Batching.ConcatAppend | src/scripts/init_db.py:80-96 | concatenation distributes over appended batch lists |
| Batching.Concat | src/scripts/init_db.py:82 | all chunk lists one after the other, as `extend` builds them |
| Batching.Step | src/scripts/init_db.py:81-89 | one document: its chunks extend the buffer, which is flushed whole and emptied once it holds at least 32 |
| Batching.Fill | src/scripts/init_db.py:75-91 | the flushed batches and the buffer after the documents so far, starting empty |
| Batching.Batches | src/scripts/init_db.py:80-96 | every batch sent: the in-loop flushes, then the buffer once iff it is non-empty |
| Batching.Sizes | src/scripts/init_db.py:87 | the size of each batch, position by position |
| Batching.FillKeepsChunks | src/scripts/init_db.py:80-89 | what was flushed followed by the buffer is every chunk so far, in document order |
| Batching.FillBounds | src/scripts/init_db.py:78-89 | after each document the buffer holds fewer than 32 chunks, and every in-loop flush held at least 32 |
| Batching.BatchesKeepChunks | src/scripts/init_db.py:80-96 | the concatenated batches are exactly all chunks in load order: each chunk sent once |
| Batching.BatchesSizes | src/scripts/init_db.py:78-96 | the final flush happens iff the buffer is non-empty and then holds 1 to 31 chunks; earlier batches hold at least 32 |
| Batching.NoChunksNoBatches | src/scripts/init_db.py:95-101 | no batch is sent iff no chunk was produced |
| Batching.Repeat | src/scripts/init_db.py:78 | a list of `count` copies of one size |
| Batching.FillSingletons | src/scripts/init_db.py:78-89 | with one chunk per document, n/32 full batches are flushed and n mod 32 chunks stay buffered |
| Batching.SingletonBatches | src/scripts/init_db.py:78-96 | with one chunk per document the batch sizes are n/32 times 32, then n mod 32 if non-zero |
| Batching.HundredSingletons | src/scripts/init_db.py:78-96 | 100 single-chunk documents are sent as 32, 32, 32, 4 |
| InitDb.Lower | src/scripts/init_db.py:50 | `str.lower()` keeps the length and lowers each letter |
| InitDb.EndsWith | src/scripts/init_db.py:50 | `str.endswith` with one suffix |
| InitDb.EndsWithAny | src/scripts/init_db.py:50 | `str.endswith` with a tuple: one of the suffixes matches |
| InitDb.IsSupported | src/scripts/init_db.py:50 | the lower-cased name ends with `.pdf`, `.docx`, `.doc`, `.xlsx`, `.xls` or `.txt` |
| InitDb.EndsWithAnyMeans | src/scripts/init_db.py:50 | `endswith` with a tuple holds iff the name ends with one of its suffixes |
| InitDb.SupportedIgnoresCase | src/scripts/init_db.py:50 | a name is collected iff its lower-cased form is |
| InitDb.SupportedSuffix | src/scripts/init_db.py:50 | any name ending with one of `.pdf`, `.docx`, `.doc`, `.xlsx`, `.xls`, `.txt` is collected |
| InitDb.AcceptedExamples | src/scripts/init_db.py:50 | "Report.PDF" and the bare ".pdf" are collected |
| InitDb.PresentationRejected | src/scripts/init_db.py:50 | "slides.pptx" is not collected |
| InitDb.WebPageRejected | src/scripts/init_db.py:50 | "index.html" is not collected |
| InitDb.InnerExtensionRejected | src/scripts/init_db.py:50 | "a.pdf.bak" is not collected: only the end of the name counts |
| InitDb.Join | src/scripts/init_db.py:51 | `os.path.join` ends with the file name and starts with the directory unless the name is absolute |
| InitDb.Matching | src/scripts/init_db.py:49-51 | the joined paths of one directory's supported files, in listing order |
| InitDb.Collected | src/scripts/init_db.py:47-51 | the joined paths of the supported files of the whole walk, in walk order |
| InitDb.MatchingSound | src/scripts/init_db.py:49-51 | every path collected from a directory joins it with one of its supported files |
| InitDb.MatchingComplete | src/scripts/init_db.py:49-51 | every supported file of a directory is collected |
| InitDb.CollectedSound | src/scripts/init_db.py:47-51 | every collected path joins a walked directory with one of its supported files |
| InitDb.CollectedComplete | src/scripts/init_db.py:47-51 | every supported file of every walked directory is collected |
| InitDb.CollectedAppend | src/scripts/init_db.py:48-51 | the paths keep walk order: two parts of a walk collect the first part's paths, then the second's |
| InitDb.CollectFiles | src/scripts/init_db.py:47-51 | the nested loop collects exactly `Collected(walk)` |
| InitDb.Ensured | src/scripts/init_db.py:25-35 | the configured collection exists afterwards, with the configured size and cosine distance if it was new; existing collections are untouched and nothing else is added |
| InitDb.EnsuredIdempotent | src/scripts/init_db.py:25-35 | ensuring twice is ensuring once |
| InitDb.EnsureCollection | src/scripts/init_db.py:25-35 | one creation iff the collection was missing, none on a second call, no upsert |
| InitDb.SplitterFor | src/scripts/init_db.py:66-70 | the splitter gets the configured chunk size and overlap and the separators `\n# `, `\n## `, `\n### `, `\n\n`, `\n`, ` `, `` |
| InitDb.ChunkLists | src/scripts/init_db.py:80-81 | each document is split on its own, in load order |
| InitDb.UpsertsOf | src/scripts/init_db.py:86 | one upsert to the collection per batch, in order |
| InitDb.IndexChunks | src/scripts/init_db.py:75-97 | the document loop and final flush send exactly `Batches` of the chunk lists to the existing collection, with `total_chunks` the number of chunks and `processed_docs` the number of documents |
| InitDb.FileSystem.MakeDirs | src/scripts/init_db.py:44 | the directory exists afterwards |
| InitDb.Outcome | src/scripts/init_db.py:99-104 | nothing-to-load iff no batch was sent; otherwise `Loaded` with the number of chunks sent, the number of documents loaded and the number of files collected |
| InitDb.IngestDocs | src/scripts/init_db.py:39-104 | a missing data path is created and nothing else happens; no supported file means no collection call and no upsert; otherwise the collection is ensured (every upsert requires it to exist) and the batches are upserted in order |

## Left out

- The language model, the embedder, the text splitter, the document loader and
  the Qdrant client are foreign libraries. They are parameters or small state
  classes here, and nothing about chunk length, overlap or embeddings is proved.
- Wall-clock time, logging and the periodic progress log line every ten
  documents are left out. Durations are inputs, and log calls have no effect on
  state.
- Histogram buckets are left out: a histogram is the sequence of values it
  observed. Prometheus label handling is left out too.
- Floating point is left out. Scores and thresholds are `real`, so NaN,
  infinities and rounding are not modelled.
- InitDb.Lower: lowers ASCII letters only, while Python's `str.lower()` also
  lowers other alphabets. The accepted suffixes are ASCII, so the decision
  differs only for names whose ending is a non-ASCII letter that lowers to an
  ASCII one, which is not covered.
- Documents.Get: metadata values are strings already rendered as an f-string
  would show them, so a numeric `page` appears as its decimal text.
- Exceptions raised by the metric hooks themselves, by prompt formatting, by
  the splitter, the loader or the vector database during ingestion, and by
  `os.makedirs` are left out. Only the similarity query and the chat model may
  fail.
- InitDb.FileSystem.MakeDirs: records only the data path itself, not the
  intermediate directories `os.makedirs` creates.
- `create_rag_chain` (client, prompt-template and model construction) and
  `_get_client` are left out. Their objects are the `ChainState` collaborators
  and the shared `VectorIndex.Index`.
- The walk after the directory is created is not modelled: `IngestDocs` returns
  there, as the script does.
- AppRagChain.AnswerQuestion: its context loop is the same code as the helper's
  and is modelled by calling `Context.BuildContext` rather than repeating the
  loop.
- The e-mail attachment handler, the HTTP API, the CLI, the legacy ingest
  script, the scheduling DAG and the settings classes beyond their defaults are
  outside the modelled core.
- `.pptx` and `.html` files are not collected, because the filter in
  `src/scripts/init_db.py:50` does not list them (see
  `InitDb.PresentationRejected` and `InitDb.WebPageRejected`).

/** The ingestion script src/scripts/init_db.py: collect the supported files
    under the data directory, make sure the collection exists, then split the
    loaded documents into chunks and upsert them in batches of at least
    BatchSize, with a final partial batch.

    The file system walk, the document loader and the text splitter are
    collaborators whose code is not part of this model: the walk is its list of
    (root, dirs, files) entries, the loader a function from the file list to the
    documents in load order, the splitter a function from its configuration and
    one document to that document's chunks. */
module InitDb {
  import opened Config
  import opened Documents
  import opened Batching
  import opened VectorIndex

  /* ---------------- the extension filter ---------------- */

  const SupportedExtensions: seq<string> := [".pdf", ".docx", ".doc", ".xlsx", ".xls", ".txt"]

  function LowerChar(c: char): char
  {
    if 'A' <= c <= 'Z' then (c as int + 32) as char else c
  }

  /** `str.lower()` on ASCII letters; every other character is kept. */
  function Lower(s: string): (r: string)
    ensures |r| == |s|
    ensures forall i :: 0 <= i < |s| ==> r[i] == LowerChar(s[i])
  {
    seq(|s|, i requires 0 <= i < |s| => LowerChar(s[i]))
  }

  /** `str.endswith(suffix)`. */
  predicate EndsWith(s: string, suffix: string)
  {
    |suffix| <= |s| && s[|s| - |suffix|..] == suffix
  }

  /** `str.endswith(suffixes)` with a tuple: some suffix, tried in order, matches. */
  predicate EndsWithAny(s: string, suffixes: seq<string>)
  {
    suffixes != [] && (EndsWith(s, suffixes[0]) || EndsWithAny(s, suffixes[1..]))
  }

  lemma {:induction false} EndsWithAnyMeans(s: string, suffixes: seq<string>)
    ensures EndsWithAny(s, suffixes) <==> exists x :: x in suffixes && EndsWith(s, x)
  {
    if suffixes != [] {
      EndsWithAnyMeans(s, suffixes[1..]);
      assert suffixes == [suffixes[0]] + suffixes[1..];
    }
  }

  /** The test applied to each file name of the walk. */
  predicate IsSupported(name: string)
  {
    EndsWithAny(Lower(name), SupportedExtensions)
  }

  lemma LowerIdempotent(s: string)
    ensures Lower(Lower(s)) == Lower(s)
  {
  }

  /** The filter ignores letter case. */
  lemma SupportedIgnoresCase(name: string)
    ensures IsSupported(Lower(name)) <==> IsSupported(name)
  {
    LowerIdempotent(name);
  }

  lemma LowerAppend(a: string, b: string)
    ensures Lower(a + b) == Lower(a) + Lower(b)
  {
  }

  lemma ExtensionsAreLowerCase(ext: string)
    requires ext in SupportedExtensions
    ensures Lower(ext) == ext
  {
  }

  /** Whatever the name before it, a supported extension, in lower case, is
      accepted. */
  lemma SupportedSuffix(base: string, ext: string)
    requires ext in SupportedExtensions
    ensures IsSupported(base + ext)
  {
    LowerAppend(base, ext);
    ExtensionsAreLowerCase(ext);
    var lowered := Lower(base) + ext;
    assert lowered[|lowered| - |ext|..] == ext;
    EndsWithAnyMeans(lowered, SupportedExtensions);
  }

  /** An upper-case extension is accepted, and so is a bare extension with no
      stem before it. */
  lemma AcceptedExamples()
    ensures IsSupported("Report.PDF")
    ensures IsSupported(".pdf")
  {
    assert Lower("Report.PDF") == "report.pdf";
    assert Lower(".pdf") == ".pdf";
  }

  /** Presentations are not collected. */
  lemma PresentationRejected()
    ensures !IsSupported("slides.pptx")
  {
    assert Lower("slides.pptx") == "slides.pptx";
  }

  /** Web pages are not collected. */
  lemma WebPageRejected()
    ensures !IsSupported("index.html")
  {
    assert Lower("index.html") == "index.html";
  }

  /** Only the end of the name counts: ".pdf" followed by another extension
      is not collected. */
  lemma InnerExtensionRejected()
    ensures !IsSupported("a.pdf.bak")
  {
    assert Lower("a.pdf.bak") == "a.pdf.bak";
  }

  /* ---------------- collecting the file paths ---------------- */

  /** One entry of `os.walk`: a directory, its sub-directories and its files. */
  datatype WalkEntry = WalkEntry(root: string, dirs: seq<string>, files: seq<string>)

  /** `os.path.join(root, name)` for two POSIX path parts. */
  function Join(root: string, name: string): (path: string)
    ensures EndsWith(path, name)
    ensures (|name| > 0 && name[0] == '/') || (|root| <= |path| && path[..|root|] == root)
  {
    if |name| > 0 && name[0] == '/' then name
    else if root == [] || root[|root| - 1] == '/' then root + name
    else root + "/" + name
  }

  /** The joined paths of the supported files of one directory, in order. */
  function Matching(root: string, files: seq<string>): seq<string>
  {
    if files == [] then []
    else
      var last := files[|files| - 1];
      Matching(root, files[..|files| - 1]) + (if IsSupported(last) then [Join(root, last)] else [])
  }

  /** The paths collected from a whole walk, in walk order. */
  function Collected(walk: seq<WalkEntry>): seq<string>
  {
    if walk == [] then []
    else Collected(walk[..|walk| - 1]) + Matching(walk[|walk| - 1].root, walk[|walk| - 1].files)
  }

  lemma {:induction false} MatchingSound(root: string, files: seq<string>, p: string)
    requires p in Matching(root, files)
    ensures exists j :: 0 <= j < |files| && IsSupported(files[j]) && p == Join(root, files[j])
  {
    var front := files[..|files| - 1];
    if p in Matching(root, front) {
      MatchingSound(root, front, p);
      var j :| 0 <= j < |front| && IsSupported(front[j]) && p == Join(root, front[j]);
      assert files[j] == front[j];
    } else {
      assert IsSupported(files[|files| - 1]) && p == Join(root, files[|files| - 1]);
    }
  }

  lemma {:induction false} MatchingComplete(root: string, files: seq<string>, j: int)
    requires 0 <= j < |files| && IsSupported(files[j])
    ensures Join(root, files[j]) in Matching(root, files)
  {
    var front := files[..|files| - 1];
    if j < |front| {
      assert front[j] == files[j];
      MatchingComplete(root, front, j);
    }
  }

  /** Every collected path joins some walked directory with one of its files
      whose name passes the filter. */
  lemma {:induction false} CollectedSound(walk: seq<WalkEntry>, p: string)
    requires p in Collected(walk)
    ensures exists i, j :: 0 <= i < |walk| && 0 <= j < |walk[i].files|
              && IsSupported(walk[i].files[j]) && p == Join(walk[i].root, walk[i].files[j])
  {
    var front := walk[..|walk| - 1];
    var last := walk[|walk| - 1];
    if p in Collected(front) {
      CollectedSound(front, p);
      var i, j :| 0 <= i < |front| && 0 <= j < |front[i].files|
              && IsSupported(front[i].files[j]) && p == Join(front[i].root, front[i].files[j]);
      assert walk[i] == front[i];
    } else {
      MatchingSound(last.root, last.files, p);
      var j :| 0 <= j < |last.files| && IsSupported(last.files[j]) && p == Join(last.root, last.files[j]);
      assert walk[|walk| - 1] == last;
    }
  }

  /** Every supported file of every walked directory is collected. */
  lemma {:induction false} CollectedComplete(walk: seq<WalkEntry>, i: int, j: int)
    requires 0 <= i < |walk| && 0 <= j < |walk[i].files| && IsSupported(walk[i].files[j])
    ensures Join(walk[i].root, walk[i].files[j]) in Collected(walk)
  {
    var front := walk[..|walk| - 1];
    if i < |front| {
      assert front[i] == walk[i];
      CollectedComplete(front, i, j);
    } else {
      MatchingComplete(walk[i].root, walk[i].files, j);
    }
  }

  /** Walking two parts of a tree one after the other collects the paths of the
      first part, then those of the second. */
  lemma {:induction false} CollectedAppend(a: seq<WalkEntry>, b: seq<WalkEntry>)
    ensures Collected(a + b) == Collected(a) + Collected(b)
    decreases |b|
  {
    if b == [] {
      assert a + b == a;
    } else {
      var front := b[..|b| - 1];
      assert (a + b)[..|a + b| - 1] == a + front;
      assert (a + b)[|a + b| - 1] == b[|b| - 1];
      CollectedAppend(a, front);
    }
  }

  /** The nested loop over the walk and each directory's files. */
  method CollectFiles(walk: seq<WalkEntry>) returns (paths: seq<string>)
    ensures paths == Collected(walk)
  {
    paths := [];
    for w := 0 to |walk|
      invariant paths == Collected(walk[..w])
    {
      var entry := walk[w];
      for f := 0 to |entry.files|
        invariant paths == Collected(walk[..w]) + Matching(entry.root, entry.files[..f])
      {
        var file := entry.files[f];
        assert entry.files[..f + 1][..f] == entry.files[..f];
        if IsSupported(file) {
          paths := paths + [Join(entry.root, file)];
        }
      }
      assert entry.files[..|entry.files|] == entry.files;
      assert walk[..w + 1][..w] == walk[..w];
    }
    assert walk[..|walk|] == walk;
  }

  /* ---------------- the collection ---------------- */

  /** The collections after `_ensure_collection`: the configured one is added,
      with the configured size and cosine distance, only when it is missing. */
  function Ensured(collections: map<string, VectorParams>, settings: IngestSettings): (r: map<string, VectorParams>)
    ensures settings.collectionName in r
    ensures settings.collectionName !in collections
        ==> r[settings.collectionName] == VectorParams(settings.vectorSize, Cosine)
    ensures forall n :: n in collections ==> n in r && r[n] == collections[n]
    ensures forall n :: n in r ==> n in collections || n == settings.collectionName
  {
    if settings.collectionName in collections then collections
    else collections[settings.collectionName := VectorParams(settings.vectorSize, Cosine)]
  }

  /** Ensuring twice is ensuring once. */
  lemma EnsuredIdempotent(collections: map<string, VectorParams>, settings: IngestSettings)
    ensures Ensured(Ensured(collections, settings), settings) == Ensured(collections, settings)
  {
  }

  /** `_ensure_collection`: one `create_collection` call when the collection is
      missing, none otherwise. */
  method EnsureCollection(settings: IngestSettings, index: Index)
    modifies index
    ensures index.collections == Ensured(old(index.collections), settings)
    ensures index.created
         == old(index.created)
          + (if settings.collectionName in old(index.collections) then [] else [settings.collectionName])
    ensures index.upserts == old(index.upserts)
  {
    if !index.CollectionExists(settings.collectionName) {
      index.CreateCollection(settings.collectionName, VectorParams(settings.vectorSize, Cosine));
    }
  }

  /* ---------------- splitting and batching ---------------- */

  const Separators: seq<string> := ["\n# ", "\n## ", "\n### ", "\n\n", "\n", " ", ""]

  /** The arguments the script gives `RecursiveCharacterTextSplitter`. */
  datatype SplitterConfig = SplitterConfig(chunkSize: nat, chunkOverlap: nat, separators: seq<string>)

  function SplitterFor(settings: IngestSettings): (c: SplitterConfig)
    ensures c.chunkSize == settings.chunkSize && c.chunkOverlap == settings.chunkOverlap
    ensures c.separators == ["\n# ", "\n## ", "\n### ", "\n\n", "\n", " ", ""]
  {
    SplitterConfig(settings.chunkSize, settings.chunkOverlap, Separators)
  }

  /** Each loaded document's chunks, in load order. */
  function ChunkLists(split: (SplitterConfig, Document) -> seq<Document>, config: SplitterConfig, docs: seq<Document>)
    : (lists: seq<seq<Document>>)
    ensures |lists| == |docs|
    ensures forall i :: 0 <= i < |docs| ==> lists[i] == split(config, docs[i])
  {
    seq(|docs|, i requires 0 <= i < |docs| => split(config, docs[i]))
  }

  /** The `add_documents` calls that send the given batches to one collection. */
  function UpsertsOf(name: string, batches: seq<seq<Document>>): (r: seq<Upsert>)
    ensures |r| == |batches|
    ensures forall i :: 0 <= i < |batches| ==> r[i] == Upsert(name, batches[i])
  {
    seq(|batches|, i requires 0 <= i < |batches| => Upsert(name, batches[i]))
  }

  lemma UpsertsOfSnoc(name: string, batches: seq<seq<Document>>, batch: seq<Document>)
    ensures UpsertsOf(name, batches + [batch]) == UpsertsOf(name, batches) + [Upsert(name, batch)]
  {
  }

  /** The document loop and the final flush: every document's chunks are
      buffered, the buffer is sent whole once it reaches BatchSize, and what
      remains is sent once after the loop. The counters end at the number of
      chunks and the number of documents. */
  method IndexChunks(name: string, docs: seq<Document>, split: (SplitterConfig, Document) -> seq<Document>,
                     config: SplitterConfig, index: Index)
    returns (totalChunks: nat, processedDocs: nat)
    requires name in index.collections
    modifies index
    ensures index.upserts == old(index.upserts) + UpsertsOf(name, Batches(ChunkLists(split, config, docs)))
    ensures index.collections == old(index.collections) && index.created == old(index.created)
    ensures totalChunks == |Concat(ChunkLists(split, config, docs))|
    ensures processedDocs == |docs|
  {
    ghost var lists := ChunkLists(split, config, docs);
    totalChunks, processedDocs := 0, 0;
    var batch: seq<Document> := [];
    for k := 0 to |docs|
      invariant batch == Fill(lists[..k]).buffer && |batch| < BatchSize
      invariant index.upserts == old(index.upserts) + UpsertsOf(name, Fill(lists[..k]).flushed)
      invariant index.collections == old(index.collections) && index.created == old(index.created)
      invariant totalChunks == |Concat(lists[..k])|
      invariant processedDocs == k
    {
      var chunks := split(config, docs[k]);
      assert lists[..k + 1][..k] == lists[..k];
      assert lists[..k + 1][k] == chunks;
      batch := batch + chunks;
      totalChunks := totalChunks + |chunks|;
      if |batch| >= BatchSize {
        UpsertsOfSnoc(name, Fill(lists[..k]).flushed, batch);
        index.AddDocuments(name, batch);
        batch := [];
      }
      processedDocs := processedDocs + 1;
    }
    assert lists[..|docs|] == lists;
    if batch != [] {
      UpsertsOfSnoc(name, Fill(lists).flushed, batch);
      index.AddDocuments(name, batch);
    } else {
      assert Fill(lists).flushed + [] == Fill(lists).flushed;
    }
  }

  /* ---------------- the whole script ---------------- */

  /** The existing paths of the file system, as far as the script asks. */
  class FileSystem {
    var paths: set<string>

    constructor (existing: set<string>)
      ensures paths == existing
    {
      paths := existing;
    }

    /** `os.path.exists`. */
    predicate Exists(path: string)
      reads this
    {
      path in paths
    }

    /** `os.makedirs`. */
    method MakeDirs(path: string)
      modifies this
      ensures paths == old(paths) + {path}
    {
      paths := paths + {path};
    }
  }

  /** How `ingest_docs` finished, with the figures of its final log line. */
  datatype IngestReport =
    | DataPathCreated
    | NoFilesFound
    | NothingToLoad
    | Loaded(totalChunks: nat, processedDocs: nat, fileCount: nat)

  /** The report `ingest_docs` ends with once files were found. */
  function Outcome(lists: seq<seq<Document>>, fileCount: nat): (r: IngestReport)
    ensures r == NothingToLoad <==> Batches(lists) == []
    ensures Batches(lists) != [] ==> r == Loaded(|Concat(Batches(lists))|, |lists|, fileCount)
    ensures Batches(lists) != [] ==> r == Loaded(|Concat(lists)|, |lists|, fileCount)
  {
    NoChunksNoBatches(lists);
    BatchesKeepChunks(lists);
    var total := |Concat(lists)|;
    if total == 0 then NothingToLoad else Loaded(total, |lists|, fileCount)
  }

  /** `ingest_docs`. A missing data directory is created and nothing else
      happens; with no supported file nothing else happens either; otherwise
      the collection is ensured (every upsert requires it), and the batches of
      the loaded documents' chunks are upserted in order. */
  method IngestDocs(settings: IngestSettings, fs: FileSystem, walk: seq<WalkEntry>,
                    load: seq<string> -> seq<Document>, split: (SplitterConfig, Document) -> seq<Document>,
                    index: Index)
    returns (report: IngestReport)
    modifies fs, index
    ensures settings.dataPath !in old(fs.paths) ==>
      && report == DataPathCreated
      && fs.paths == old(fs.paths) + {settings.dataPath}
      && index.collections == old(index.collections) && index.created == old(index.created)
      && index.upserts == old(index.upserts)
    ensures settings.dataPath in old(fs.paths) ==> fs.paths == old(fs.paths)
    ensures settings.dataPath in old(fs.paths) && Collected(walk) == [] ==>
      && report == NoFilesFound
      && index.collections == old(index.collections) && index.created == old(index.created)
      && index.upserts == old(index.upserts)
    ensures settings.dataPath in old(fs.paths) && Collected(walk) != [] ==>
      var files := Collected(walk);
      var lists := ChunkLists(split, SplitterFor(settings), load(files));
      && index.collections == Ensured(old(index.collections), settings)
      && index.created
         == old(index.created)
          + (if settings.collectionName in old(index.collections) then [] else [settings.collectionName])
      && index.upserts == old(index.upserts) + UpsertsOf(settings.collectionName, Batches(lists))
      && report == Outcome(lists, |files|)
  {
    if !fs.Exists(settings.dataPath) {
      fs.MakeDirs(settings.dataPath);
      return DataPathCreated;
    }
    var files := CollectFiles(walk);
    if files == [] {
      return NoFilesFound;
    }
    EnsureCollection(settings, index);
    var config := SplitterFor(settings);
    var docs := load(files);
    var totalChunks, processedDocs := IndexChunks(settings.collectionName, docs, split, config, index);
    if totalChunks == 0 {
      return NothingToLoad;
    }
    report := Loaded(totalChunks, processedDocs, |files|);
  }
}

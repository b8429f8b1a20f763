/**
 * The upload page: the uploaded file's MIME type picks a temp-file suffix and
 * a loader; when the button is pressed the file is written to a temp file,
 * loaded, split with chunk size 1000 and chunk overlap 300, the chunk count
 * is reported, every chunk is indexed into the "clg_notes" collection, and
 * the temp file is removed.
 *
 * The loaders, the text splitter and the embedding service are parameters;
 * the disk and the collection are objects whose state the page changes.
 */
module Upload {
  import opened Documents

  const PdfType := "application/pdf"
  const TextType := "text/plain"
  const CollectionName := "clg_notes"

  /**
   * A file as the uploader widget hands it over: its name on the user's
   * machine (kept for completeness; the page writes the bytes under a
   * `tempfile` name instead), its MIME type and its bytes.
   */
  datatype UploadedFile = UploadedFile(name: string, mimeType: string, data: seq<bv8>)

  /** `file_type`: None until a file is uploaded, then the file's own MIME type. */
  function FileType(uploaded: Option<UploadedFile>): (t: Option<string>)
    ensures t.None? <==> uploaded.None?
    ensures uploaded.Some? ==> t == Some(uploaded.value.mimeType)
  {
    match uploaded
    case None => None
    case Some(f) => Some(f.mimeType)
  }

  /** The temp-file suffix: ".pdf" exactly for a PDF, ".txt" for any other type or none. */
  function Suffix(fileType: Option<string>): (s: string)
    ensures s == ".pdf" <==> fileType == Some(PdfType)
    ensures s == ".txt" <==> fileType != Some(PdfType)
  {
    if fileType == Some(PdfType) then ".pdf" else ".txt"
  }

  datatype LoaderKind = PdfLoader | TextLoader

  /** A loader bound to the file it reads. */
  datatype Loader = Loader(kind: LoaderKind, path: string)

  /** Which loader a MIME type selects; no loader for any type but PDF and plain text. */
  function LoaderFor(fileType: Option<string>): (k: Option<LoaderKind>)
    ensures k == Some(PdfLoader) <==> fileType == Some(PdfType)
    ensures k == Some(TextLoader) <==> fileType == Some(TextType)
    ensures k == None <==> fileType != Some(PdfType) && fileType != Some(TextType)
  {
    if fileType == Some(PdfType) then Some(PdfLoader)
    else if fileType == Some(TextType) then Some(TextLoader)
    else None
  }

  /** The PDF loader reads a ".pdf" temp file, every other upload is written as ".txt". */
  lemma SuffixMatchesLoader(fileType: Option<string>)
    ensures Suffix(fileType) == ".pdf" <==> LoaderFor(fileType) == Some(PdfLoader)
    ensures LoaderFor(fileType) == Some(TextLoader) ==> Suffix(fileType) == ".txt"
  {
  }

  /** The text splitter's settings, in characters. */
  datatype SplitterConfig = SplitterConfig(chunkSize: nat, chunkOverlap: nat)

  /** The page's splitter: chunk size 1000 and chunk overlap 300, so chunking advances. */
  function PageSplitter(): (c: SplitterConfig)
    ensures c.chunkSize == 1000 && c.chunkOverlap == 300
    ensures c.chunkOverlap < c.chunkSize
  {
    SplitterConfig(1000, 300)
  }

  /** One observable step of the processing, in the order the page takes them. */
  datatype Step =
    | WriteTemp(path: string, suffix: string, data: seq<bv8>)
    | Load(loader: Loader)
    | Split(config: SplitterConfig, pages: seq<Document>, chunks: seq<Document>)
    | ReportChunks(count: nat)
    | Index(collection: string, chunks: seq<Document>)
    | RemoveTemp(path: string)

  /** Where a step stands in the pipeline. */
  function Rank(s: Step): nat
  {
    match s
    case WriteTemp(_, _, _) => 0
    case Load(_) => 1
    case Split(_, _, _) => 2
    case ReportChunks(_) => 3
    case Index(_, _) => 4
    case RemoveTemp(_) => 5
  }

  /** The steps taken are a prefix of write, load, split, report, index, remove. */
  predicate InPipelineOrder(trace: seq<Step>)
  {
    |trace| <= 6 && forall i :: 0 <= i < |trace| ==> Rank(trace[i]) == i
  }

  /** How one run of the page ends. */
  datatype IngestOutcome =
    | NotRequested        // no file, or the button was not pressed
    | NoLoader            // unsupported type: `loader.load()` runs on None
    | LoadFailed          // the loader raised
    | IndexFailed         // embedding or storing raised
    | Indexed(chunks: nat)

  /** The local disk as the temp-file calls see it. */
  class Disk {
    var files: map<string, seq<bv8>>

    constructor (files: map<string, seq<bv8>>)
      ensures this.files == files
    {
      this.files := files;
    }

    /** Writes `data` to the file at `path`. */
    method Write(path: string, data: seq<bv8>)
      modifies this
      ensures files == old(files)[path := data]
    {
      files := files[path := data];
    }

    /** `os.remove`: deletes an existing file. */
    method Remove(path: string)
      requires path in files
      modifies this
      ensures files == old(files) - {path}
    {
      files := files - {path};
    }
  }

  /** The vector-store collection, as the documents stored in it, oldest first. */
  class Collection {
    const name: string
    var points: seq<Document>

    constructor (name: string, points: seq<Document>)
      ensures this.name == name && this.points == points
    {
      this.name := name;
      this.points := points;
    }

    /**
     * `from_documents`: embeds and stores every chunk, after what is already
     * there (there is no de-duplication); `reachable` is whether the
     * embedding and storage services answer.
     */
    method AddDocuments(chunks: seq<Document>, reachable: bool) returns (ok: bool)
      modifies this
      ensures ok == reachable
      ensures points == if ok then old(points) + chunks else old(points)
    {
      ok := reachable;
      if ok {
        points := points + chunks;
      }
    }
  }

  /**
   * One run of the upload page. Nothing happens unless a file is present and
   * the button is pressed. Otherwise the file is written to a fresh temp file
   * and the steps follow in pipeline order, stopping at the first failure: an
   * unsupported type stops after the write, a failing loader after the load,
   * an unreachable store after the index attempt, while a reachable one always
   * goes on to the removal. The reported count is the number of chunks,
   * exactly those chunks are added to the collection, and the temp file is
   * removed only after indexing succeeded.
   */
  method ProcessUpload(
    disk: Disk, store: Collection, uploaded: Option<UploadedFile>, pressed: bool, tmpPath: string,
    load: (LoaderKind, seq<bv8>) -> Option<seq<Document>>,
    split: (SplitterConfig, seq<Document>) -> seq<Document>,
    reachable: bool)
    returns (trace: seq<Step>, outcome: IngestOutcome)
    requires store.name == CollectionName
    requires tmpPath !in disk.files
    modifies disk, store
    ensures InPipelineOrder(trace)
    ensures trace == [] <==> outcome == NotRequested
    ensures outcome == NotRequested <==> uploaded.None? || !pressed
    ensures |trace| > 0 ==> trace[0] == WriteTemp(tmpPath, Suffix(FileType(uploaded)), uploaded.value.data)
    ensures outcome == NoLoader <==> |trace| == 1
    ensures |trace| == 1 ==> LoaderFor(FileType(uploaded)) == None
    ensures |trace| > 1 ==> LoaderFor(FileType(uploaded)) == Some(trace[1].loader.kind) && trace[1].loader.path == tmpPath
    ensures outcome == LoadFailed <==> |trace| == 2
    ensures |trace| == 2 ==> load(trace[1].loader.kind, uploaded.value.data) == None
    ensures |trace| > 2 ==> load(trace[1].loader.kind, uploaded.value.data) == Some(trace[2].pages)
    ensures |trace| > 2 ==> trace[2].config == PageSplitter() && trace[2].chunks == split(PageSplitter(), trace[2].pages)
    ensures |trace| > 3 ==> trace[3] == ReportChunks(|trace[2].chunks|)
    ensures |trace| > 4 ==> trace[4] == Index(CollectionName, trace[2].chunks)
    ensures outcome == IndexFailed <==> |trace| == 5
    ensures |trace| >= 5 ==> (|trace| == 6 <==> reachable)
    ensures |trace| == 6 ==> trace[5] == RemoveTemp(tmpPath)
    ensures outcome.Indexed? <==> |trace| == 6
    ensures outcome.Indexed? ==> outcome.chunks == |trace[4].chunks|
    ensures store.points == if outcome.Indexed? then old(store.points) + trace[4].chunks else old(store.points)
    ensures disk.files == if outcome == NotRequested || outcome.Indexed? then old(disk.files)
                          else old(disk.files)[tmpPath := uploaded.value.data]
  {
    trace := [];
    var fileType := FileType(uploaded);
    var suffix := Suffix(fileType);
    if uploaded.None? || !pressed {
      return trace, NotRequested;
    }
    var file := uploaded.value;

    disk.Write(tmpPath, file.data);
    trace := trace + [WriteTemp(tmpPath, suffix, file.data)];

    var loader: Option<Loader> := None;
    if fileType == Some(PdfType) {
      loader := Some(Loader(PdfLoader, tmpPath));
    } else if fileType == Some(TextType) {
      loader := Some(Loader(TextLoader, tmpPath));
    }
    if loader.None? {
      return trace, NoLoader;
    }

    trace := trace + [Load(loader.value)];
    var loaded := load(loader.value.kind, disk.files[loader.value.path]);
    if loaded.None? {
      return trace, LoadFailed;
    }
    var docs := loaded.value;

    var splitter := PageSplitter();
    var chunks := split(splitter, docs);
    trace := trace + [Split(splitter, docs, chunks)];
    trace := trace + [ReportChunks(|chunks|)];

    trace := trace + [Index(store.name, chunks)];
    var ok := store.AddDocuments(chunks, reachable);
    if !ok {
      return trace, IndexFailed;
    }

    disk.Remove(tmpPath);
    trace := trace + [RemoveTemp(tmpPath)];
    outcome := Indexed(|chunks|);
  }
}

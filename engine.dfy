/** The build-or-load decision for the knowledge base (`get_vectorstore`).
    The filesystem is an input; loading, splitting, embedding and the vector
    store itself are collaborators whose work is recorded, not performed. */
module Engine {
  import opened Base
  import opened Text

  type Path = string

  /** What a path names on disk: a regular file, or a directory and its entry names. */
  datatype Node = File | Directory(entries: seq<string>)

  /** The part of the filesystem the decision looks at. */
  datatype FileSystem = FileSystem(nodes: map<Path, Node>)

  /** The fixed directory the vector store is persisted to. */
  const StorageDir: Path := "./chroma_db"

  /** The entry the vector store writes into `StorageDir` when it persists; its
      on-disk format belongs to the vector store and only its presence matters here. */
  const IndexEntry: string := "chroma.sqlite3"

  /** The error `get_vectorstore` raises. */
  datatype EngineError =
    | PdfNotFound(path: Path)           // FileNotFoundError, raised by `get_vectorstore` when the PDF is missing
    | StorageNotADirectory(path: Path)  // NotADirectoryError from os.listdir on a regular file

  /** The vector store handed back, and how it came to exist. */
  datatype Store =
    | Loaded(dir: Path)                 // opened from the persisted directory, nothing ingested
    | Built(source: Path, dir: Path)    // the PDF was loaded, split, embedded and persisted

  /** Python's `os.path.exists`: true for files and directories alike. */
  predicate Exists(fs: FileSystem, p: Path) {
    p in fs.nodes
  }

  /** The storage directory exists and `os.listdir` finds something in it. */
  predicate CacheHit(fs: FileSystem) {
    Exists(fs, StorageDir) && fs.nodes[StorageDir].Directory? && fs.nodes[StorageDir].entries != []
  }

  /** The text of the `FileNotFoundError` for a missing PDF. */
  function NotFoundMessage(path: Path): (m: string)
    ensures Contains(m, path)
  {
    ContainsInfix("\U{274C} Error: ", path, " not found in project directory.");
    "\U{274C} Error: " + path + " not found in project directory."
  }

  /** The text of the exception `get_vectorstore` raises: its own message for a
      missing PDF, and the operating system's (Linux errno 20) for a storage
      path that is a regular file. */
  function ErrorText(e: EngineError): string {
    match e
    case PdfNotFound(p) => NotFoundMessage(p)
    case StorageNotADirectory(p) => "[Errno 20] Not a directory: '" + p + "'"
  }

  /** The decision itself: load the persisted store on a cache hit, otherwise
      require the PDF and build a new store from it into `StorageDir`. */
  function GetVectorstore(fs: FileSystem, pdfPath: Path): (r: Result<Store, EngineError>)
    ensures (r.Success? && r.value.Loaded?) <==> CacheHit(fs)
    ensures (r.Failure? && r.error.StorageNotADirectory?) <==> (Exists(fs, StorageDir) && fs.nodes[StorageDir].File?)
    ensures r.Success? ==> r.value.dir == StorageDir
    ensures r.Success? && r.value.Built? ==> r.value.source == pdfPath && Exists(fs, pdfPath)
    ensures r.Failure? && r.error.PdfNotFound? ==> r.error.path == pdfPath && !Exists(fs, pdfPath)
  {
    if Exists(fs, StorageDir) && fs.nodes[StorageDir].File? then
      Failure(StorageNotADirectory(StorageDir))
    else if CacheHit(fs) then
      Success(Loaded(StorageDir))
    else if !Exists(fs, pdfPath) then
      Failure(PdfNotFound(pdfPath))
    else
      Success(Built(pdfPath, StorageDir))
  }

  /** The filesystem after the call: only a build writes, and it populates `StorageDir`. */
  function After(fs: FileSystem, r: Result<Store, EngineError>): (fs': FileSystem)
    ensures r.Success? && r.value.Built? ==> CacheHit(fs')
    ensures !(r.Success? && r.value.Built?) ==> fs' == fs
    ensures forall p :: p != StorageDir ==> (p in fs'.nodes <==> p in fs.nodes)
    ensures forall p :: p != StorageDir && p in fs.nodes ==> fs'.nodes[p] == fs.nodes[p]
  {
    if r.Success? && r.value.Built? then FileSystem(fs.nodes[StorageDir := Directory([IndexEntry])])
    else fs
  }

  /** A non-empty storage directory is loaded, and no ingestion happens, whether
      or not the PDF exists. */
  lemma CacheHitLoads(fs: FileSystem, pdfPath: Path)
    requires CacheHit(fs)
    ensures GetVectorstore(fs, pdfPath) == Success(Loaded(StorageDir))
    ensures After(fs, GetVectorstore(fs, pdfPath)) == fs
  {
  }

  /** A store is loaded exactly on a cache hit; every other success is a build. */
  /** A regular file at the storage path fails the listing before the PDF is
      looked at: the error is `NotADirectoryError` for "./chroma_db" whether or
      not the PDF exists, and nothing is written. */
  lemma StorageFileFailsFirst(fs: FileSystem, pdfPath: Path)
    requires Exists(fs, StorageDir) && fs.nodes[StorageDir] == File
    ensures GetVectorstore(fs, pdfPath) == Failure(StorageNotADirectory("./chroma_db"))
    ensures After(fs, GetVectorstore(fs, pdfPath)) == fs
  {
  }

  /** A storage directory that exists but is empty is a miss: the PDF is required and built from. */
  lemma EmptyStorageIsMiss(fs: FileSystem, pdfPath: Path)
    requires Exists(fs, StorageDir) && fs.nodes[StorageDir] == Directory([])
    ensures GetVectorstore(fs, pdfPath) ==
      if Exists(fs, pdfPath) then Success(Built(pdfPath, StorageDir)) else Failure(PdfNotFound(pdfPath))
  {
  }

  /** On a miss with no PDF, the error is `FileNotFoundError` whose text names
      the path, and nothing is built or written. */
  lemma MissingPdfFails(fs: FileSystem, pdfPath: Path)
    requires !Exists(fs, StorageDir) || fs.nodes[StorageDir] == Directory([])
    requires !Exists(fs, pdfPath)
    ensures GetVectorstore(fs, pdfPath) == Failure(PdfNotFound(pdfPath))
    ensures ErrorText(GetVectorstore(fs, pdfPath).error) == NotFoundMessage(pdfPath)
    ensures Contains(ErrorText(GetVectorstore(fs, pdfPath).error), pdfPath)
    ensures After(fs, GetVectorstore(fs, pdfPath)) == fs
  {
  }

  /** A build happens exactly when there is no storage directory, or an empty
      one, and the PDF exists; it reads that PDF and persists to the fixed directory. */
  lemma BuildReadsPdfIntoStorage(fs: FileSystem, pdfPath: Path)
    ensures var r := GetVectorstore(fs, pdfPath);
      (r.Success? && r.value.Built?) <==>
        ((!Exists(fs, StorageDir) || fs.nodes[StorageDir] == Directory([])) && Exists(fs, pdfPath))
    ensures var r := GetVectorstore(fs, pdfPath);
      r.Success? && r.value.Built? ==> r.value == Built(pdfPath, "./chroma_db")
  {
  }

  /** Once a call has succeeded, every later call loads the persisted store,
      whichever PDF it names: the directory is a cache that is never rebuilt,
      so a changed PDF is not re-ingested until the directory is removed. */
  lemma SecondCallLoads(fs: FileSystem, first: Path, later: Path)
    requires GetVectorstore(fs, first).Success?
    ensures GetVectorstore(After(fs, GetVectorstore(fs, first)), later) == Success(Loaded(StorageDir))
  {
  }
}

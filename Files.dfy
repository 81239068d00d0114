/** The filesystem the stages see, as a map from path to entry. What the code
    learns by decoding a file (image size, audio length, JSON content, SHA-256)
    is an attribute of the file's record. */
module Files {
  import opened Base
  import opened Plan

  datatype FileRecord = FileRecord(
    sizeBytes: nat,
    /** modification time, in whole seconds */
    mtime: int,
    /** what PIL reports as `img.size`, or the text of the exception it raises */
    image: Result<(nat, nat), string>,
    /** the WAVE length in milliseconds, or the text of the exception mutagen raises */
    audioMillis: Result<nat, string>,
    /** the SHA-256 hex digest, or `None` when the file cannot be read */
    digest: Option<string>,
    /** the file parsed as a production plan, or the JSON decoder's message */
    plan: Result<Plan, string>,
    /** for a `status.json`: `None` when it does not parse to a non-empty object,
        otherwise its `completed_steps` (an empty list when the key is absent) */
    steps: Option<seq<string>>,
    /** for an `integrity.json`: `None` when it does not parse to a non-empty
        object, otherwise its `file_hashes` (empty when the key is absent) */
    hashes: Option<map<string, string>>)

  /** A directory has a size (what `os.path.getsize` reports) and a listing
      (what `os.listdir` returns, in its order). */
  datatype Entry = File(rec: FileRecord) | Dir(dirSize: nat, names: seq<string>)

  datatype Fs = Fs(entries: map<string, Entry>)

  /** `os.path.exists` */
  predicate Exists(fs: Fs, path: string) {
    path in fs.entries
  }

  /** `os.path.isdir` */
  predicate IsDir(fs: Fs, path: string) {
    path in fs.entries && fs.entries[path].Dir?
  }

  /** `os.path.getsize` of an existing path. */
  function GetSize(fs: Fs, path: string): nat
    requires Exists(fs, path)
  {
    match fs.entries[path]
    case File(r) => r.sizeBytes
    case Dir(n, _) => n
  }

  /** The message of the `IsADirectoryError` raised when a directory is opened as a file. */
  function IsADirectoryText(path: string): string {
    "[Errno 21] Is a directory: '" + path + "'"
  }

  /** `os.listdir`: the listing of a directory, or the text of the `OSError` it raises. */
  function ListDir(fs: Fs, path: string): (r: Result<seq<string>, string>)
    ensures r.Ok? <==> IsDir(fs, path)
  {
    if path !in fs.entries then Err("[Errno 2] No such file or directory: '" + path + "'")
    else match fs.entries[path]
      case Dir(_, names) => Ok(names)
      case File(_) => Err("[Errno 20] Not a directory: '" + path + "'")
  }

  /** `calculate_file_hash`: `None` for a missing path or one that cannot be read. */
  function Digest(fs: Fs, path: string): (r: Option<string>)
    ensures r.Some? ==> Exists(fs, path)
  {
    if path in fs.entries && fs.entries[path].File? then fs.entries[path].rec.digest else None
  }

  /** `os.makedirs(path, exist_ok=True)` on a path that is absent or already a
      directory. Only `path` itself is created: missing parents are not, and
      the new name is not added to its parent's listing. No property of the
      model depends on either. */
  function MakeDirs(fs: Fs, path: string): (r: Fs)
    ensures IsDir(r, path) || (Exists(fs, path) && !IsDir(fs, path))
    ensures forall p :: p != path ==> (p in r.entries <==> p in fs.entries)
  {
    if path in fs.entries then fs else Fs(fs.entries[path := Dir(4096, [])])
  }

  /** `path` is `root` itself or lies below it. */
  predicate Under(path: string, root: string) {
    path == root || StartsWith(path, root + "/")
  }

  /** `shutil.rmtree(root)`: every entry at or below `root` is removed. */
  function RemoveTree(fs: Fs, root: string): (r: Fs)
    ensures forall p :: p in r.entries <==> p in fs.entries && !Under(p, root)
    ensures forall p :: p in r.entries ==> r.entries[p] == fs.entries[p]
  {
    Fs(map p | p in fs.entries && !Under(p, root) :: fs.entries[p])
  }

  /** Writing `rec` at `path`: that path now holds it and nothing else changes. */
  function WriteFile(fs: Fs, path: string, rec: FileRecord): (r: Fs)
    ensures path in r.entries && r.entries[path] == File(rec)
    ensures forall p :: p != path ==> (p in r.entries <==> p in fs.entries)
    ensures forall p :: p != path && p in fs.entries ==> r.entries[p] == fs.entries[p]
  {
    Fs(fs.entries[path := File(rec)])
  }
}

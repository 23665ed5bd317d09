/** The filesystem and process interface the browser calls through.
    Entries are immutable snapshots taken when a directory is listed; every
    call that touches the disk is represented by the `Request` it issues and
    by a success flag supplied from outside. */
module FileSystemGateway {

  datatype Option<T> = None | Some(value: T)

  /** A directory as a `DirectoryInfo` describes it: last path component and full path. */
  datatype DirInfo = DirInfo(name: string, fullName: string)

  /** A file as a `FileInfo` describes it; `length` is its size in bytes. */
  datatype FileInfo = FileInfo(name: string, fullName: string, length: nat)

  /** The outcome of `GetDirectories` or `GetFiles`: the entries in the order
      the filesystem returned them, or an exception. */
  datatype Enumeration<T> = Listed(items: seq<T>) | Fails

  function Enumerated<T>(e: Enumeration<T>): seq<T> {
    match e
    case Listed(items) => items
    case Fails => []
  }

  /** What the filesystem reports about one directory at the moment it is
      loaded: its `Parent` (absent at a drive root), its subdirectories and
      its files. */
  datatype DirectoryView = DirectoryView(
    parent: Option<DirInfo>,
    subdirectories: Enumeration<DirInfo>,
    files: Enumeration<FileInfo>)

  /** A call into the filesystem, the recycle bin or the process launcher. */
  datatype Request =
    | NoRequest
    | CreateDirectoryAt(path: string)
    | CreateFileAt(path: string)
    | RecycleDirectory(path: string)
    | RecycleFile(path: string)
    | MoveFile(source: string, destination: string)
    | CopyFile(source: string, destination: string)
    | MoveDirectory(source: string, destination: string)
    | CopyDirectory(source: string, destination: string)
    | OpenInExplorer(path: string)

  predicate IsSeparator(c: char) {
    c == '\\' || c == '/'
  }

  /** `Path.Join(root, name)` on Windows: a separator is inserted only when
      neither side already supplies one, and an empty side is dropped. */
  function JoinPath(root: string, name: string): (path: string)
    ensures root <= path
    ensures |name| <= |path| && path[|path| - |name|..] == name
    ensures |root| + |name| <= |path| <= |root| + 1 + |name|
    ensures path == root + name || path == root + "\\" + name
    ensures root != [] && name != [] ==> IsSeparator(path[|root| - 1]) || IsSeparator(path[|root|])
    ensures path == root + "\\" + name <==>
      root != [] && name != [] && !IsSeparator(root[|root| - 1]) && !IsSeparator(name[0])
  {
    if root == [] then name
    else if name == [] then root
    else if IsSeparator(root[|root| - 1]) || IsSeparator(name[0]) then root + name
    else root + "\\" + name
  }
}

/** The entry store: the current directory's subdirectories (with the parent
    entry in front when there is one) and its files, kept as two lists, and
    the arithmetic that maps a displayed index onto them. */
module DataLists {
  import opened FileSystemGateway
  import opened Text

  // ---------------------------------------------------------------------
  // File size labels

  datatype SizeUnit = Bytes | KB | MB | GB

  function UnitBytes(u: SizeUnit): nat {
    match u
    case Bytes => 1
    case KB => 1024
    case MB => 1048576
    case GB => 1073741824
  }

  function UnitName(u: SizeUnit): string {
    match u
    case Bytes => "Bytes"
    case KB => "KB"
    case MB => "MB"
    case GB => "GB"
  }

  /** `u` is the largest unit in which `size` counts at least one:
      at least one `u`, and (below GB) fewer than 1024 of them. */
  predicate Fits(size: nat, u: SizeUnit) {
    UnitBytes(u) <= size && (u == GB || size < 1024 * UnitBytes(u))
  }

  /** A size in unit `u`: the integer quotient, a space, the unit's name. */
  function InUnit(size: nat, u: SizeUnit): string {
    Decimal(size / UnitBytes(u)) + " " + UnitName(u)
  }

  /** The size column of a file: the size integer-divided by the largest
      fitting unit, then the unit; an empty file reads "0 Bytes". */
  function SizeLabel(size: nat): (shown: string)
    ensures size == 0 ==> shown == "0 Bytes"
    ensures forall u :: Fits(size, u) ==> shown == InUnit(size, u)
  {
    if size >= 1073741824 then InUnit(size, GB)
    else if size >= 1048576 then InUnit(size, MB)
    else if size >= 1024 then InUnit(size, KB)
    else if size < 1024 && size > 0 then InUnit(size, Bytes)
    else "0 Bytes"
  }

  /** Every non-empty size has exactly one fitting unit. */
  lemma FitsExactlyOne(size: nat)
    requires size > 0
    ensures exists u :: Fits(size, u)
    ensures forall u, v :: Fits(size, u) && Fits(size, v) ==> u == v
  {
    if size >= 1073741824 {
      assert Fits(size, GB);
    } else if size >= 1048576 {
      assert Fits(size, MB);
    } else if size >= 1024 {
      assert Fits(size, KB);
    } else {
      assert Fits(size, Bytes);
    }
  }

  /** A label is a numeral, a space and the fitting unit's name, and the
      numeral reads back as the size floor-divided by that unit. */
  lemma SizeLabelMeaning(size: nat, u: SizeUnit)
    requires Fits(size, u)
    ensures exists digits ::
      && AllDigits(digits)
      && SizeLabel(size) == digits + " " + UnitName(u)
      && DecimalValue(digits) == size / UnitBytes(u)
    ensures SizeLabel(size) == Decimal(size / UnitBytes(u)) + " " + UnitName(u)
    ensures 1 <= size / UnitBytes(u)
    ensures u != GB ==> size / UnitBytes(u) < 1024
    ensures UnitBytes(u) * (size / UnitBytes(u)) <= size < UnitBytes(u) * (size / UnitBytes(u) + 1)
  {
    var q := size / UnitBytes(u);
    DecimalRoundTrip(q);
    assert SizeLabel(size) == Decimal(q) + " " + UnitName(u);
  }

  /** Labels at and around each unit boundary; 1536 bytes is "1 KB". */
  lemma SizeLabelExamples()
    ensures SizeLabel(0) == "0 Bytes"
    ensures SizeLabel(1023) == "1023 Bytes"
    ensures SizeLabel(1024) == "1 KB"
    ensures SizeLabel(1536) == "1 KB"
    ensures SizeLabel(1048576) == "1 MB"
    ensures SizeLabel(1073741824) == "1 GB"
  {
  }

  // ---------------------------------------------------------------------
  // The two lists and the index arithmetic

  /** One line of the listing as it is displayed. */
  datatype Entry = DirectoryEntry(directory: DirInfo) | FileEntry(file: FileInfo)

  /** The directory list (parent entry first when present, then the
      subdirectories) and the file list. */
  datatype Data = Data(directoryDatas: seq<DirInfo>, fileDatas: seq<FileInfo>) {

    function Count(): nat {
      |directoryDatas| + |fileDatas|
    }

    /** A displayed index denotes a file once it is past the directory list;
        on a displayed line this is exactly "the line shows a file". */
    predicate IsFile(index: int): (b: bool)
      ensures 0 <= index < Count() ==> (b <==> Entries()[index].FileEntry?)
    {
      index - |directoryDatas| >= 0
    }

    /** The directory shown on line `index`. */
    function GetDirectory(index: int): (d: DirInfo)
      requires 0 <= index < |directoryDatas|
      ensures index < Count() && Entries()[index] == DirectoryEntry(d)
    {
      directoryDatas[index]
    }

    /** The file shown on line `index`. */
    function GetFile(index: int): (f: FileInfo)
      requires 0 <= index - |directoryDatas| < |fileDatas|
      ensures 0 <= index < Count() && Entries()[index] == FileEntry(f)
    {
      fileDatas[index - |directoryDatas|]
    }

    /** The size label of the `index`-th file of the file list (the caller
        passes a position in the file list, not a displayed line). */
    function GetFileSizeToString(index: int): (shown: string)
      requires 0 <= index < |fileDatas|
      ensures fileDatas[index].length == 0 ==> shown == "0 Bytes"
      ensures forall u :: Fits(fileDatas[index].length, u) ==>
        shown == Decimal(fileDatas[index].length / UnitBytes(u)) + " " + UnitName(u)
    {
      SizeLabel(fileDatas[index].length)
    }

    /** Every name in either list, the parent entry's included. */
    function Names(): set<string> {
      (set d | d in directoryDatas :: d.name) + (set f | f in fileDatas :: f.name)
    }

    /** The listing in display order: directories, then files. */
    function Entries(): seq<Entry> {
      var ds, fs := directoryDatas, fileDatas;
      seq(|ds|, i requires 0 <= i < |ds| => DirectoryEntry(ds[i]))
        + seq(|fs|, i requires 0 <= i < |fs| => FileEntry(fs[i]))
    }
  }

  /** Every displayed index below the count denotes exactly one entry, and
      `IsFile`, `GetDirectory` and `GetFile` agree with the display order. */
  lemma IndexMapping(data: Data, i: int)
    requires 0 <= i < data.Count()
    ensures |data.Entries()| == data.Count()
    ensures data.IsFile(i) <==> i >= |data.directoryDatas|
    ensures !data.IsFile(i) ==> data.Entries()[i] == DirectoryEntry(data.GetDirectory(i))
    ensures data.IsFile(i) ==>
      0 <= i - |data.directoryDatas| < |data.fileDatas| && data.Entries()[i] == FileEntry(data.GetFile(i))
  {
  }

  // ---------------------------------------------------------------------
  // Loading

  function ParentEntry(view: DirectoryView): seq<DirInfo> {
    if view.parent.Some? then [view.parent.value] else []
  }

  /** The lists a load builds from what the filesystem reports: the parent,
      then the subdirectories in enumeration order, then the files. An
      enumeration that throws keeps what was added before it, and a failing
      `GetDirectories` means `GetFiles` is never asked. */
  function Loaded(view: DirectoryView): Data {
    Data(ParentEntry(view) + Enumerated(view.subdirectories),
         if view.subdirectories.Listed? then Enumerated(view.files) else [])
  }

  /** The first displayed index that is a file, as the listing is built. */
  function FirstFileIndex(view: DirectoryView): nat {
    (if view.parent.Some? then 1 else 0) + |Enumerated(view.subdirectories)|
  }

  /** After a load, index 0 is the parent when there is one, and an index is
      a file exactly from the first file index on. */
  lemma LoadedClassification(view: DirectoryView, i: int)
    requires 0 <= i < Loaded(view).Count()
    ensures Loaded(view).IsFile(i) <==> i >= FirstFileIndex(view)
    ensures view.parent.Some? ==> Loaded(view).GetDirectory(0) == view.parent.value
    ensures Loaded(view).Count() == FirstFileIndex(view) + |Loaded(view).fileDatas|
  {
  }

  // ---------------------------------------------------------------------
  // The store

  class DataList {
    var data: Data
    var hasParent: bool

    constructor ()
      ensures data == Data([], []) && !hasParent
    {
      data := Data([], []);
      hasParent := false;
    }

    /** Rebuilds both lists for `directory`; -1 when there is no directory,
        otherwise the number of entries now listed. */
    method Load(directory: Option<DirectoryView>) returns (count: int)
      modifies this
      ensures directory.None? ==> count == -1 && data == old(data) && hasParent == old(hasParent)
      ensures directory.Some? ==>
        && data == Loaded(directory.value)
        && hasParent == directory.value.parent.Some?
        && count == data.Count()
    {
      if directory.None? {
        return -1;
      }
      var view := directory.value;
      data := Data([], []);
      hasParent := false;
      if view.parent.Some? {
        hasParent := true;
        data := data.(directoryDatas := data.directoryDatas + [view.parent.value]);
      }
      match view.subdirectories {
        case Fails =>
          // the exception is reported and the partial listing kept
        case Listed(directories) =>
          var i := 0;
          while i < |directories|
            invariant 0 <= i <= |directories|
            invariant data == Data(ParentEntry(view) + directories[..i], [])
            invariant hasParent == view.parent.Some?
          {
            data := data.(directoryDatas := data.directoryDatas + [directories[i]]);
            i := i + 1;
          }
          assert directories[..i] == directories;
          match view.files {
            case Fails =>
            case Listed(files) =>
              var j := 0;
              while j < |files|
                invariant 0 <= j <= |files|
                invariant data == Data(ParentEntry(view) + directories, files[..j])
                invariant hasParent == view.parent.Some?
              {
                data := data.(fileDatas := data.fileDatas + [files[j]]);
                j := j + 1;
              }
              assert files[..j] == files;
          }
      }
      count := |data.directoryDatas| + |data.fileDatas|;
    }

    /** Whether any listed entry, the parent entry included, has this name. */
    method Exist(name: string) returns (found: bool)
      ensures found <==> name in data.Names()
    {
      var i := 0;
      while i < |data.directoryDatas|
        invariant 0 <= i <= |data.directoryDatas|
        invariant forall k :: 0 <= k < i ==> data.directoryDatas[k].name != name
      {
        if data.directoryDatas[i].name == name {
          return true;
        }
        i := i + 1;
      }
      var j := 0;
      while j < |data.fileDatas|
        invariant 0 <= j <= |data.fileDatas|
        invariant forall k :: 0 <= k < j ==> data.fileDatas[k].name != name
      {
        if data.fileDatas[j].name == name {
          return true;
        }
        j := j + 1;
      }
      return false;
    }

    /** Asks to open the file at displayed `index`; an index that does not
        denote a file is caught and reported, and nothing is opened. */
    method OpenFile(index: int) returns (req: Request)
      ensures req != NoRequest <==> data.IsFile(index) && index - |data.directoryDatas| < |data.fileDatas|
      ensures req != NoRequest ==> req == OpenInExplorer(data.GetFile(index).fullName)
    {
      var k := index - |data.directoryDatas|;
      if 0 <= k < |data.fileDatas| {
        req := OpenInExplorer(data.fileDatas[k].fullName);
      } else {
        req := NoRequest;
      }
    }

    /** Creates directory `name` under `root`; on success its entry is
        appended to the directory list, on failure nothing changes. */
    method CreateDirectory(root: string, name: string, created: bool) returns (req: Request)
      modifies this
      ensures req == CreateDirectoryAt(JoinPath(root, name))
      ensures hasParent == old(hasParent) && data.fileDatas == old(data.fileDatas)
      ensures data.directoryDatas ==
        if created then old(data.directoryDatas) + [DirInfo(name, JoinPath(root, name))]
        else old(data.directoryDatas)
    {
      req := CreateDirectoryAt(JoinPath(root, name));
      if created {
        data := data.(directoryDatas := data.directoryDatas + [DirInfo(name, JoinPath(root, name))]);
      }
    }

    /** Creates the empty file `name` under `root`; on success its entry is
        appended to the file list, on failure nothing changes. */
    method CreateFile(root: string, name: string, created: bool) returns (req: Request)
      modifies this
      ensures req == CreateFileAt(JoinPath(root, name))
      ensures hasParent == old(hasParent) && data.directoryDatas == old(data.directoryDatas)
      ensures data.fileDatas ==
        if created then old(data.fileDatas) + [FileInfo(name, JoinPath(root, name), 0)]
        else old(data.fileDatas)
    {
      req := CreateFileAt(JoinPath(root, name));
      if created {
        data := data.(fileDatas := data.fileDatas + [FileInfo(name, JoinPath(root, name), 0)]);
      }
    }

    /** Sends directory `index` to the recycle bin and drops it from the
        list; an index out of range or a failed delete changes nothing. */
    method RemoveDirectoryAt(index: int, deleted: bool) returns (req: Request)
      modifies this
      ensures hasParent == old(hasParent) && data.fileDatas == old(data.fileDatas)
      ensures 0 <= index < |old(data.directoryDatas)| ==>
        req == RecycleDirectory(old(data.directoryDatas)[index].fullName)
      ensures !(0 <= index < |old(data.directoryDatas)|) ==> req == NoRequest
      ensures data.directoryDatas ==
        if deleted && 0 <= index < |old(data.directoryDatas)| then RemovedAt(old(data.directoryDatas), index)
        else old(data.directoryDatas)
    {
      if 0 <= index < |data.directoryDatas| {
        req := RecycleDirectory(data.directoryDatas[index].fullName);
        if deleted {
          data := data.(directoryDatas := RemovedAt(data.directoryDatas, index));
        }
      } else {
        req := NoRequest;
      }
    }

    /** Sends the file at displayed `index` to the recycle bin and drops it
        from the file list; an index that is not a file or a failed delete
        changes nothing. */
    method RemoveFileAt(index: int, deleted: bool) returns (req: Request)
      modifies this
      ensures hasParent == old(hasParent) && data.directoryDatas == old(data.directoryDatas)
      ensures var k := index - |old(data.directoryDatas)|;
        && (0 <= k < |old(data.fileDatas)| ==> req == RecycleFile(old(data.fileDatas)[k].fullName))
        && (!(0 <= k < |old(data.fileDatas)|) ==> req == NoRequest)
        && data.fileDatas ==
             if deleted && 0 <= k < |old(data.fileDatas)| then RemovedAt(old(data.fileDatas), k)
             else old(data.fileDatas)
    {
      var k := index - |data.directoryDatas|;
      if 0 <= k < |data.fileDatas| {
        req := RecycleFile(data.fileDatas[k].fullName);
        if deleted {
          data := data.(fileDatas := RemovedAt(data.fileDatas, k));
        }
      } else {
        req := NoRequest;
      }
    }
  }

  /** `List.RemoveAt`: the list without its `index`-th element. */
  function RemovedAt<T>(s: seq<T>, index: nat): seq<T>
    requires index < |s|
  {
    s[..index] + s[index + 1..]
  }

  /** Removing one element keeps every other element, in order. */
  lemma RemovedAtKeepsOthers<T>(s: seq<T>, index: nat, k: nat)
    requires index < |s| && k < |s| - 1
    ensures |RemovedAt(s, index)| == |s| - 1
    ensures RemovedAt(s, index)[k] == if k < index then s[k] else s[k + 1]
  {
  }
}

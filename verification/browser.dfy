/** The browser: current directory, selection, clipboard, and the keystroke
    state machine over them. The pure functions over `Snapshot` specify each
    operation; the methods of `Program` update the fields step by step and are
    proved against them. */
module Browser {
  import opened FileSystemGateway
  import opened Text
  import opened DataLists

  // ---------------------------------------------------------------------
  // Default names for new entries

  datatype DefaultName = DirectoryName | FileName

  /** The k-th name tried: "Directory", "Directory_1", "Directory_2", ...
      or "File.txt", "File_1.txt", "File_2.txt", ... */
  function Candidate(kind: DefaultName, k: nat): string {
    match kind
    case DirectoryName => if k == 0 then "Directory" else "Directory_" + Decimal(k)
    case FileName => if k == 0 then "File.txt" else "File_" + Decimal(k) + ".txt"
  }

  /** No name is tried twice. */
  lemma CandidateInjective(kind: DefaultName, j: nat, k: nat)
    requires Candidate(kind, j) == Candidate(kind, k)
    ensures j == k
  {
    var s := Candidate(kind, j);
    if j > 0 && k > 0 {
      match kind
      case DirectoryName =>
        assert s[10..] == Decimal(j) && s[10..] == Decimal(k);
        DecimalInjective(j, k);
      case FileName =>
        assert s[5..|s| - 4] == Decimal(j) && s[5..|s| - 4] == Decimal(k);
        DecimalInjective(j, k);
    }
  }

  function Tried(kind: DefaultName, i: nat): set<string> {
    set j | 0 <= j < i :: Candidate(kind, j)
  }

  lemma {:induction false} TriedCount(kind: DefaultName, i: nat)
    ensures |Tried(kind, i)| == i
  {
    if i > 0 {
      var prev, c := Tried(kind, i - 1), Candidate(kind, i - 1);
      TriedCount(kind, i - 1);
      assert Tried(kind, i) == prev + {c};
      assert c !in prev by {
        forall j | 0 <= j < i - 1
          ensures Candidate(kind, j) != c
        {
          if Candidate(kind, j) == c {
            CandidateInjective(kind, j, i - 1);
          }
        }
      }
    }
  }

  /** A set of names that holds the first `i` candidates has at least `i`
      names, so the search for a free name stops. */
  lemma CandidatesBound(kind: DefaultName, i: nat, names: set<string>)
    requires forall j :: 0 <= j < i ==> Candidate(kind, j) in names
    ensures i <= |names|
  {
    var tried := Tried(kind, i);
    TriedCount(kind, i);
    assert names == tried + (names - tried);
    assert |names| == |tried| + |names - tried|;
  }

  /** The least k, from `from` on, whose candidate is not among `names`. */
  function FirstFree(kind: DefaultName, names: set<string>, from: nat): (k: nat)
    requires forall j :: 0 <= j < from ==> Candidate(kind, j) in names
    ensures from <= k && Candidate(kind, k) !in names
    ensures forall j :: 0 <= j < k ==> Candidate(kind, j) in names
    decreases |names| - from
  {
    if Candidate(kind, from) in names then
      CandidatesBound(kind, from + 1, names);
      FirstFree(kind, names, from + 1)
    else
      from
  }

  /** The name a new directory or file gets: the first candidate no listed
      entry has. */
  function DefaultNameFor(kind: DefaultName, data: Data): string {
    Candidate(kind, FirstFree(kind, data.Names(), 0))
  }

  // ---------------------------------------------------------------------
  // State and inputs

  /** The browser's fields together with the two lists of its store. */
  datatype Snapshot = Snapshot(
    currentDirectory: string,   // the current directory's full name
    watchedPath: string,        // the path the change watcher observes
    dataCount: int,
    selectorIndex: int,
    copiedDirectory: Option<DirInfo>,
    copiedFile: Option<FileInfo>,
    cut: bool,
    data: Data,
    hasParent: bool)

  /** A key press the input loop dispatches on. `DriveKey(n)` is the key
      `D0 + n` that selects drive n. */
  datatype Key =
    | UpArrow | DownArrow | EnterKey
    | DKey | FKey | XKey | CKey | VKey | DeleteKey
    | DriveKey(n: nat)
    | OtherKey

  /** What the world answers during one key press: the listing any reload
      sees, and whether each filesystem call that may be made succeeds. */
  datatype Environment = Environment(
    listing: DirectoryView,
    resolved: bool,       // `new DirectoryInfo(path)` succeeds
    watched: bool,      // the watcher accepts the new path
    created: bool,      // the directory or file is created
    deleted: bool,      // the recycle-bin delete succeeds
    driveReady: bool)   // the drive the key names is ready

  datatype Outcome = Outcome(state: Snapshot, request: Request)

  /** The selection is "none" (-1), the first line, or below the count the
      last load returned. */
  predicate SelectionOk(sel: int, count: int) {
    sel == -1 || sel == 0 || 0 <= sel < count
  }

  predicate ClipboardOk(s: Snapshot) {
    !(s.copiedDirectory.Some? && s.copiedFile.Some?)
  }

  /** What every key press keeps: the selection in range, the count no larger
      than the listing (creating entries does not update it), and at most one
      clipboard slot set. */
  predicate Inv(s: Snapshot) {
    && SelectionOk(s.selectorIndex, s.dataCount)
    && 0 <= s.dataCount <= s.data.Count()
    && ClipboardOk(s)
  }

  // ---------------------------------------------------------------------
  // The operations, as functions of the state

  /** `Show`: reload the current directory and put the cursor on line 0.
      `Load` is given the current directory, which is never null, so it does
      not return -1 here and the selection becomes 0 even for an empty
      listing. */
  function Shown(s: Snapshot, view: DirectoryView): Snapshot {
    var d := Loaded(view);
    s.(data := d, hasParent := view.parent.Some?, dataCount := d.Count(), selectorIndex := 0)
  }

  /** `RefreshDataList`: reload, and pull a selection that is now past the
      end back to the last line; "none" stays "none". */
  function Refreshed(s: Snapshot, view: DirectoryView): Snapshot {
    var d := Loaded(view);
    var count := d.Count();
    var sel := s.selectorIndex;
    s.(data := d, hasParent := view.parent.Some?, dataCount := count,
       selectorIndex := if sel != -1 && sel >= count then count - 1 else sel)
  }

  /** `ChangeDirectory`: the current directory is replaced when the path can
      be opened, the watcher follows only if it accepts the path, and the
      listing is shown in every case. */
  function Navigated(s: Snapshot, path: string, resolved: bool, watched: bool, view: DirectoryView): Snapshot {
    var moved :=
      if resolved then s.(currentDirectory := path, watchedPath := if watched then path else s.watchedPath)
      else s;
    Shown(moved, view)
  }

  /** `Copy` (asCut false) and `Cut` (asCut true): the selected entry goes in
      the slot of its kind, the other slot is emptied, and the listing is
      refreshed. */
  function Marked(s: Snapshot, asCut: bool, view: DirectoryView): Snapshot
    requires Inv(s) && s.selectorIndex > 0
  {
    var i := s.selectorIndex;
    var m :=
      if s.data.IsFile(i) then s.(copiedDirectory := None, copiedFile := Some(s.data.GetFile(i)))
      else s.(copiedDirectory := Some(s.data.GetDirectory(i)), copiedFile := None);
    Refreshed(m.(cut := false), view).(cut := asCut)
  }

  /** `Paste`: the filesystem call that moves (after a cut) or copies the
      clipboard entry into the current directory under its own name; a
      copied file is pasted in preference to a copied directory. */
  function PasteRequest(s: Snapshot): Request {
    if s.copiedFile.Some? then
      var f := s.copiedFile.value;
      var destination := JoinPath(s.currentDirectory, f.name);
      if s.cut then MoveFile(f.fullName, destination) else CopyFile(f.fullName, destination)
    else if s.copiedDirectory.Some? then
      var d := s.copiedDirectory.value;
      var destination := JoinPath(s.currentDirectory, d.name);
      if s.cut then MoveDirectory(d.fullName, destination) else CopyDirectory(d.fullName, destination)
    else
      NoRequest
  }

  /** `Delete`: the recycle-bin call for the selected entry. */
  function DeleteRequest(s: Snapshot): Request
    requires Inv(s) && s.selectorIndex > 0
  {
    var i := s.selectorIndex;
    if s.data.IsFile(i) then RecycleFile(s.data.GetFile(i).fullName)
    else RecycleDirectory(s.data.GetDirectory(i).fullName)
  }

  /** `CreateDirectory` and `CreateFile`: the first free default name is
      created in the current directory and, on success, appended to its
      list. The count is not updated. */
  function Created(s: Snapshot, kind: DefaultName, created: bool): Outcome {
    var name := DefaultNameFor(kind, s.data);
    var path := JoinPath(s.currentDirectory, name);
    match kind
    case DirectoryName =>
      Outcome(if created then s.(data := s.data.(directoryDatas := s.data.directoryDatas + [DirInfo(name, path)])) else s,
              CreateDirectoryAt(path))
    case FileName =>
      Outcome(if created then s.(data := s.data.(fileDatas := s.data.fileDatas + [FileInfo(name, path, 0)])) else s,
              CreateFileAt(path))
  }

  /** `CopiedPath`: the path the listing greys out. With at most one slot
      set, it is the path of whichever entry is on the clipboard, so the
      directory-first test never hides a copied file. */
  function CopiedPath(s: Snapshot): (path: string)
    ensures ClipboardOk(s) && s.copiedFile.Some? ==> path == s.copiedFile.value.fullName
    ensures ClipboardOk(s) && s.copiedDirectory.Some? ==> path == s.copiedDirectory.value.fullName
    ensures s.copiedDirectory.None? && s.copiedFile.None? ==> path == ""
  {
    if s.copiedDirectory.Some? then s.copiedDirectory.value.fullName
    else if s.copiedFile.Some? then s.copiedFile.value.fullName
    else ""
  }

  /** `InputProcess`: one key press. Only Enter, D, F, V and Delete issue a
      create, recycle, move, copy or open request; the reloads that other
      keys trigger are modelled by the listing passed in `env`. */
  function Step(s: Snapshot, drives: seq<string>, key: Key, env: Environment): (o: Outcome)
    requires Inv(s)
    ensures o.request != NoRequest ==> key.EnterKey? || key.DKey? || key.FKey? || key.VKey? || key.DeleteKey?
  {
    var i := s.selectorIndex;
    match key
    case UpArrow =>
      Outcome(if i > 0 then s.(selectorIndex := i - 1) else s, NoRequest)
    case DownArrow =>
      Outcome(if i < s.dataCount - 1 then s.(selectorIndex := i + 1) else s, NoRequest)
    case EnterKey =>
      if i == -1 then Outcome(s, NoRequest)
      else if s.data.IsFile(i) then
        Outcome(s, if i - |s.data.directoryDatas| < |s.data.fileDatas| then OpenInExplorer(s.data.GetFile(i).fullName) else NoRequest)
      else
        Outcome(Navigated(s, s.data.GetDirectory(i).fullName, env.resolved, env.watched, env.listing), NoRequest)
    case DKey => Created(s, DirectoryName, env.created)
    case FKey => Created(s, FileName, env.created)
    case XKey =>
      if i == -1 || i == 0 then Outcome(s, NoRequest) else Outcome(Marked(s, true, env.listing), NoRequest)
    case CKey =>
      if i == -1 || i == 0 then Outcome(s, NoRequest) else Outcome(Marked(s, false, env.listing), NoRequest)
    case VKey => Outcome(s, PasteRequest(s))
    case DeleteKey =>
      if i == -1 || i == 0 then Outcome(s, NoRequest) else Outcome(Refreshed(s, env.listing), DeleteRequest(s))
    case DriveKey(n) =>
      if n < |drives| && env.driveReady then Outcome(Navigated(s, drives[n], env.resolved, env.watched, env.listing), NoRequest)
      else Outcome(s, NoRequest)
    case OtherKey => Outcome(s, NoRequest)
  }

  // ---------------------------------------------------------------------
  // Properties of the state machine

  /** Every key press keeps the invariant. */
  lemma StepKeepsInv(s: Snapshot, drives: seq<string>, key: Key, env: Environment)
    requires Inv(s)
    ensures Inv(Step(s, drives, key, env).state)
  {
  }

  /** The arrows move nothing but the selection, and any other key that
      names no ready drive does nothing. */
  lemma KeysWithoutEffects(s: Snapshot, drives: seq<string>, key: Key, env: Environment)
    requires Inv(s)
    ensures key.UpArrow? || key.DownArrow? ==>
      Step(s, drives, key, env).state == s.(selectorIndex := Step(s, drives, key, env).state.selectorIndex)
    ensures key.OtherKey? || (key.DriveKey? && !(key.n < |drives| && env.driveReady)) ==>
      Step(s, drives, key, env) == Outcome(s, NoRequest)
  {
  }

  /** Up moves only from a line above 0 and Down only to a line below the
      count, so a selection in range stays in range, and each is a no-op at
      its end of the listing. */
  lemma MovesStayInRange(s: Snapshot, drives: seq<string>, env: Environment)
    requires Inv(s) && 0 <= s.selectorIndex < s.dataCount
    ensures var up := Step(s, drives, UpArrow, env).state;
      0 <= up.selectorIndex < s.dataCount && (s.selectorIndex == 0 ==> up == s)
    ensures var down := Step(s, drives, DownArrow, env).state;
      0 <= down.selectorIndex < s.dataCount && (s.selectorIndex == s.dataCount - 1 ==> down == s)
  {
  }

  /** Cut, copy and delete do nothing at all while the selection is -1 or 0,
      whether or not line 0 is the parent entry. */
  lemma FirstLineIsProtected(s: Snapshot, drives: seq<string>, key: Key, env: Environment)
    requires Inv(s) && (s.selectorIndex == -1 || s.selectorIndex == 0)
    requires key == XKey || key == CKey || key == DeleteKey
    ensures Step(s, drives, key, env) == Outcome(s, NoRequest)
  {
  }

  /** Enter does nothing at all while nothing is selected. */
  lemma EnterWithoutSelection(s: Snapshot, drives: seq<string>, env: Environment)
    requires Inv(s) && s.selectorIndex == -1
    ensures Step(s, drives, EnterKey, env) == Outcome(s, NoRequest)
  {
  }

  /** After a cut or copy exactly one clipboard slot holds the selected entry,
      the slot chosen by `IsFile`, and the cut flag tells which key it was;
      the current directory and the watcher are untouched. */
  lemma MarkSetsOneSlot(s: Snapshot, drives: seq<string>, key: Key, env: Environment)
    requires Inv(s) && s.selectorIndex > 0 && (key == XKey || key == CKey)
    ensures var t := Step(s, drives, key, env).state;
      && t.cut == (key == XKey)
      && (t.copiedFile.Some? <==> s.data.IsFile(s.selectorIndex))
      && (t.copiedDirectory.Some? <==> !s.data.IsFile(s.selectorIndex))
      && (s.data.IsFile(s.selectorIndex) ==>
            t.copiedFile == Some(s.data.GetFile(s.selectorIndex)) &&
            CopiedPath(t) == s.data.GetFile(s.selectorIndex).fullName)
      && (!s.data.IsFile(s.selectorIndex) ==>
            t.copiedDirectory == Some(s.data.GetDirectory(s.selectorIndex)) &&
            CopiedPath(t) == s.data.GetDirectory(s.selectorIndex).fullName)
      && t.currentDirectory == s.currentDirectory && t.watchedPath == s.watchedPath
  {
  }

  /** Paste changes no state, the clipboard included, so the same entry can
      be pasted again; it moves after a cut and copies otherwise, prefers a
      copied file, and targets the current directory under the entry's name. */
  lemma PasteKeepsClipboard(s: Snapshot, drives: seq<string>, env: Environment)
    requires Inv(s)
    ensures Step(s, drives, VKey, env).state == s
    ensures var r := Step(s, drives, VKey, env).request;
      && (s.copiedFile.None? && s.copiedDirectory.None? <==> r == NoRequest)
      && (s.copiedFile.Some? ==>
            r == (if s.cut then MoveFile(s.copiedFile.value.fullName, JoinPath(s.currentDirectory, s.copiedFile.value.name))
                  else CopyFile(s.copiedFile.value.fullName, JoinPath(s.currentDirectory, s.copiedFile.value.name))))
      && (s.copiedFile.None? && s.copiedDirectory.Some? ==>
            r == (if s.cut then MoveDirectory(s.copiedDirectory.value.fullName, JoinPath(s.currentDirectory, s.copiedDirectory.value.name))
                  else CopyDirectory(s.copiedDirectory.value.fullName, JoinPath(s.currentDirectory, s.copiedDirectory.value.name))))
  {
  }

  /** Enter on a directory line (the parent entry included) navigates to it:
      the selection is reset to 0, the listing is the new one, and the
      clipboard survives; on a file line it asks to open the file and
      changes nothing. */
  lemma EnterOpensOrNavigates(s: Snapshot, drives: seq<string>, env: Environment)
    requires Inv(s) && s.selectorIndex != -1
    ensures var o := Step(s, drives, EnterKey, env);
      && (s.data.IsFile(s.selectorIndex) ==> o.state == s)
      && (s.data.IsFile(s.selectorIndex) && s.selectorIndex < s.data.Count() ==>
            o.request == OpenInExplorer(s.data.GetFile(s.selectorIndex).fullName))
      && (!s.data.IsFile(s.selectorIndex) ==>
            && o.request == NoRequest
            && o.state == Navigated(s, s.data.GetDirectory(s.selectorIndex).fullName, env.resolved, env.watched, env.listing)
            && o.state.selectorIndex == 0
            && o.state.data == Loaded(env.listing)
            && o.state.dataCount == Loaded(env.listing).Count()
            && o.state.currentDirectory == (if env.resolved then s.data.GetDirectory(s.selectorIndex).fullName else s.currentDirectory)
            && o.state.copiedFile == s.copiedFile && o.state.copiedDirectory == s.copiedDirectory && o.state.cut == s.cut)
  {
  }

  /** The current directory is assigned before the watcher is re-pointed: if
      the watcher refuses the path, the browser has moved but the watcher
      still observes the old path; the listing is shown either way. */
  lemma NavigationOrder(s: Snapshot, path: string, resolved: bool, watched: bool, view: DirectoryView)
    ensures var t := Navigated(s, path, resolved, watched, view);
      && t.currentDirectory == (if resolved then path else s.currentDirectory)
      && t.watchedPath == (if resolved && watched then path else s.watchedPath)
      && t.selectorIndex == 0 && t.data == Loaded(view)
  {
  }

  /** A refresh never moves the selection except to pull it back to the last
      line, so it never resets it to 0 and leaves "none" alone. */
  lemma RefreshKeepsSelection(s: Snapshot, view: DirectoryView)
    ensures var t := Refreshed(s, view);
      && t.dataCount == Loaded(view).Count()
      && (s.selectorIndex < t.dataCount ==> t.selectorIndex == s.selectorIndex)
      && (s.selectorIndex == -1 ==> t.selectorIndex == -1)
      && (s.selectorIndex >= t.dataCount ==> t.selectorIndex == t.dataCount - 1)
      && (t.selectorIndex == 0 ==> s.selectorIndex == 0 || t.dataCount == 1)
  {
  }

  /** Creating an entry picks a name no listed entry has, changes nothing but
      the one list it appends to, and leaves the count and selection alone. */
  lemma CreateAppendsFreshName(s: Snapshot, drives: seq<string>, key: Key, env: Environment)
    requires Inv(s) && (key == DKey || key == FKey)
    ensures var o := Step(s, drives, key, env);
      var name := DefaultNameFor(if key == DKey then DirectoryName else FileName, s.data);
      && name !in s.data.Names()
      && o.state.dataCount == s.dataCount && o.state.selectorIndex == s.selectorIndex
      && (key == DKey ==>
            && o.request == CreateDirectoryAt(JoinPath(s.currentDirectory, name))
            && o.state.data.fileDatas == s.data.fileDatas
            && o.state.data.directoryDatas ==
                 s.data.directoryDatas + (if env.created then [DirInfo(name, JoinPath(s.currentDirectory, name))] else []))
      && (key == FKey ==>
            && o.request == CreateFileAt(JoinPath(s.currentDirectory, name))
            && o.state.data.directoryDatas == s.data.directoryDatas
            && o.state.data.fileDatas ==
                 s.data.fileDatas + (if env.created then [FileInfo(name, JoinPath(s.currentDirectory, name), 0)] else []))
  {
  }

  /** The default name is candidate k exactly when candidate k is free and
      every earlier candidate is taken: the least free candidate, and no
      other candidate, is chosen. */
  lemma DefaultNameIsLeastFree(kind: DefaultName, data: Data, k: nat)
    ensures DefaultNameFor(kind, data) == Candidate(kind, k) <==>
      Candidate(kind, k) !in data.Names() && forall j :: 0 <= j < k ==> Candidate(kind, j) in data.Names()
  {
    var m := FirstFree(kind, data.Names(), 0);
    if DefaultNameFor(kind, data) == Candidate(kind, k) {
      CandidateInjective(kind, m, k);
    }
    if Candidate(kind, k) !in data.Names() && forall j :: 0 <= j < k ==> Candidate(kind, j) in data.Names() {
      assert !(m < k);
      assert !(k < m);
    }
  }

  /** With nothing listed the first directory is "Directory". */
  lemma FirstDirectoryName()
    ensures DefaultNameFor(DirectoryName, Data([], [])) == "Directory"
  {
  }

  /** With a "Directory" listed the next directory is "Directory_1". */
  lemma SecondDirectoryName(root: string)
    ensures DefaultNameFor(DirectoryName, Data([DirInfo("Directory", root)], [])) == "Directory_1"
  {
    assert Data([DirInfo("Directory", root)], []).Names() == {"Directory"};
    assert Candidate(DirectoryName, 1) == "Directory_1";
  }

  /** With "Directory" and "Directory_1" listed the next is "Directory_2". */
  lemma ThirdDirectoryName(root: string)
    ensures DefaultNameFor(DirectoryName, Data([DirInfo("Directory", root), DirInfo("Directory_1", root)], [])) == "Directory_2"
  {
    var data := Data([DirInfo("Directory", root), DirInfo("Directory_1", root)], []);
    assert data.Names() == {"Directory", "Directory_1"};
    assert Candidate(DirectoryName, 1) == "Directory_1";
    assert Candidate(DirectoryName, 2) == "Directory_2";
  }

  /** With a "File.txt" listed the next file is "File_1.txt". */
  lemma SecondFileName(root: string)
    ensures DefaultNameFor(FileName, Data([], [FileInfo("File.txt", root, 0)])) == "File_1.txt"
  {
    assert Data([], [FileInfo("File.txt", root, 0)]).Names() == {"File.txt"};
    assert Candidate(FileName, 1) == "File_1.txt";
  }

  // ---------------------------------------------------------------------
  // The browser object

  class Program {
    var currentDirectory: string
    var watchedPath: string
    var dataCount: int
    var selectorIndex: int
    var copiedDirectory: Option<DirInfo>
    var copiedFile: Option<FileInfo>
    var cut: bool
    const dataList: DataList
    const driveList: seq<string>

    ghost function State(): Snapshot
      reads this, dataList
    {
      Snapshot(currentDirectory, watchedPath, dataCount, selectorIndex,
               copiedDirectory, copiedFile, cut, dataList.data, dataList.hasParent)
    }

    ghost predicate Valid()
      reads this, dataList
    {
      Inv(State())
    }

    /** Opens `startPath`, watches it, and shows it. */
    constructor (startPath: string, drives: seq<string>, listing: DirectoryView)
      ensures fresh(dataList) && driveList == drives
      ensures Valid()
      ensures State() == Shown(Snapshot(startPath, startPath, 0, 0, None, None, false, Data([], []), false), listing)
    {
      currentDirectory := startPath;
      watchedPath := startPath;
      dataCount := 0;
      selectorIndex := 0;
      copiedDirectory := None;
      copiedFile := None;
      cut := false;
      dataList := new DataList();
      driveList := drives;
      new;
      Show(listing);
    }

    method InputProcess(key: Key, env: Environment) returns (req: Request)
      requires Valid()
      modifies this, dataList
      ensures Valid()
      ensures Outcome(State(), req) == Step(old(State()), driveList, key, env)
    {
      req := NoRequest;
      match key {
        case UpArrow =>
          if selectorIndex > 0 {
            selectorIndex := selectorIndex - 1;
          }
        case DownArrow =>
          if selectorIndex < dataCount - 1 {
            selectorIndex := selectorIndex + 1;
          }
        case EnterKey =>
          if selectorIndex != -1 {
            if dataList.data.IsFile(selectorIndex) {
              req := dataList.OpenFile(selectorIndex);
            } else {
              ChangeDirectory(dataList.data.GetDirectory(selectorIndex).fullName, env.resolved, env.watched, env.listing);
            }
          }
        case DKey =>
          req := CreateDirectory(env.created);
        case FKey =>
          req := CreateFile(env.created);
        case XKey =>
          if selectorIndex != -1 && selectorIndex != 0 {
            Cut(env.listing);
          }
        case CKey =>
          if selectorIndex != -1 && selectorIndex != 0 {
            Copy(env.listing);
          }
        case VKey =>
          req := Paste();
        case DeleteKey =>
          if selectorIndex != -1 && selectorIndex != 0 {
            req := Delete(env.deleted, env.listing);
          }
        case DriveKey(n) =>
          if n < |driveList| && env.driveReady {
            ChangeDirectory(driveList[n], env.resolved, env.watched, env.listing);
          }
        case OtherKey =>
      }
    }

    /** The first default name of `kind` that `Exist` reports free. */
    method FreeName(kind: DefaultName) returns (name: string)
      ensures name == DefaultNameFor(kind, dataList.data)
    {
      ghost var names := dataList.data.Names();
      name := Candidate(kind, 0);
      var i := 1;
      var taken := dataList.Exist(name);
      while taken
        invariant 1 <= i
        invariant name == Candidate(kind, i - 1)
        invariant taken <==> name in names
        invariant forall j :: 0 <= j < i - 1 ==> Candidate(kind, j) in names
        decreases |names| - (i - 1)
      {
        CandidatesBound(kind, i, names);
        name := Candidate(kind, i);
        i := i + 1;
        taken := dataList.Exist(name);
      }
    }

    method CreateDirectory(created: bool) returns (req: Request)
      requires Valid()
      modifies dataList
      ensures Valid()
      ensures Outcome(State(), req) == Created(old(State()), DirectoryName, created)
    {
      var name := FreeName(DirectoryName);
      req := dataList.CreateDirectory(currentDirectory, name, created);
    }

    method CreateFile(created: bool) returns (req: Request)
      requires Valid()
      modifies dataList
      ensures Valid()
      ensures Outcome(State(), req) == Created(old(State()), FileName, created)
    {
      var name := FreeName(FileName);
      req := dataList.CreateFile(currentDirectory, name, created);
    }

    method Cut(listing: DirectoryView)
      requires Valid() && selectorIndex > 0
      modifies this, dataList
      ensures Valid()
      ensures State() == Marked(old(State()), true, listing)
    {
      Copy(listing);
      cut := true;
    }

    method Copy(listing: DirectoryView)
      requires Valid() && selectorIndex > 0
      modifies this, dataList
      ensures Valid()
      ensures State() == Marked(old(State()), false, listing)
    {
      cut := false;
      if dataList.data.IsFile(selectorIndex) {
        copiedDirectory := None;
        copiedFile := Some(dataList.data.GetFile(selectorIndex));
      } else {
        copiedDirectory := Some(dataList.data.GetDirectory(selectorIndex));
        copiedFile := None;
      }
      RefreshDataList(listing);
    }

    method Paste() returns (req: Request)
      ensures req == PasteRequest(State())
    {
      if copiedFile.Some? {
        if cut {
          return MoveFile(copiedFile.value.fullName, JoinPath(currentDirectory, copiedFile.value.name));
        }
        req := CopyFile(copiedFile.value.fullName, JoinPath(currentDirectory, copiedFile.value.name));
      } else if copiedDirectory.Some? {
        if cut {
          return MoveDirectory(copiedDirectory.value.fullName, JoinPath(currentDirectory, copiedDirectory.value.name));
        }
        req := CopyDirectory(copiedDirectory.value.fullName, JoinPath(currentDirectory, copiedDirectory.value.name));
      } else {
        req := NoRequest;
      }
    }

    method Delete(deleted: bool, listing: DirectoryView) returns (req: Request)
      requires Valid() && selectorIndex > 0
      modifies this, dataList
      ensures Valid()
      ensures req == DeleteRequest(old(State()))
      ensures State() == Refreshed(old(State()), listing)
    {
      if dataList.data.IsFile(selectorIndex) {
        req := dataList.RemoveFileAt(selectorIndex, deleted);
        RefreshDataList(listing);
      } else {
        req := dataList.RemoveDirectoryAt(selectorIndex, deleted);
        RefreshDataList(listing);
      }
    }

    method Show(listing: DirectoryView)
      requires Valid()
      modifies this, dataList
      ensures Valid()
      ensures State() == Shown(old(State()), listing)
      ensures selectorIndex == (if dataCount != -1 then 0 else -1)
    {
      dataCount := dataList.Load(Some(listing));
      selectorIndex := -1;
      if dataCount != -1 {
        selectorIndex := 0;
      }
    }

    method ChangeDirectory(path: string, resolved: bool, watched: bool, listing: DirectoryView)
      requires Valid()
      modifies this, dataList
      ensures Valid()
      ensures State() == Navigated(old(State()), path, resolved, watched, listing)
    {
      if resolved {
        currentDirectory := path;
        if watched {
          watchedPath := currentDirectory;
        }
      }
      Show(listing);
    }

    /** Also what the watcher runs when the directory tree changes. */
    method RefreshDataList(listing: DirectoryView)
      requires selectorIndex >= -1 && ClipboardOk(State())
      modifies this, dataList
      ensures Valid()
      ensures State() == Refreshed(old(State()), listing)
    {
      dataCount := dataList.Load(Some(listing));
      if dataCount != -1 && selectorIndex != -1 {
        if selectorIndex >= dataCount {
          selectorIndex := dataCount - 1;
        }
      }
    }
  }
}

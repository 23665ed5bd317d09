# Console file explorer: listing and selection model

A Dafny model of the bookkeeping core of a keyboard-driven console file
browser (C#, `ConFileExplorer`). Two classes hold everything:

- `DataList` is the entry store. It keeps the current directory as two
  lists. The directory list holds the parent entry (when the directory has
  a parent) followed by the subdirectories. The file list holds the files.
  A displayed index maps onto these lists by arithmetic: it is a file once
  it is past the directory list. The store rebuilds both lists on `Load`,
  appends on create, removes on delete, answers name lookups (`Exist`) and
  formats file sizes.
- `Program` is the browser. It holds the current directory, the selection
  (`selectorIndex`, with −1 for "none"), the count of the last load
  (`dataCount`), the clipboard (`copiedDirectory`, `copiedFile` and the
  `cut` flag) and the path the change watcher observes. One key press runs
  one step of its state machine: move up or down, open or enter, create,
  cut, copy, paste, delete, or switch drive.

Files:

- `gateway.dfy` (module `FileSystemGateway`) holds the entry snapshots,
  the directory listing as the filesystem reports it, the `Request` values
  that stand for filesystem and process calls, and `Path.Join`.
- `text.dfy` (module `Text`) gives the decimal text of an integer, as
  string interpolation writes it.
- `data_list.dfy` (module `DataLists`) holds the size labels, the `Data`
  value (the two lists, as the private inner `Data` class holds them), the
  load specification and the `DataList` class.
- `browser.dfy` (module `Browser`) holds the default-name search, the
  browser state as a `Snapshot` value, one pure function per operation
  (`Shown`, `Refreshed`, `Navigated`, `Marked`, `Created`, `PasteRequest`,
  `DeleteRequest`, and `Step` for a whole key press), the lemmas about them,
  and the `Program` class. Each method of `Program` is proved to leave
  `State()` equal to the matching function of the old state, and to keep
  `Valid()`.

`Valid()` is the invariant every key press keeps. It has three parts:

- the selection is −1, 0, or below `dataCount`;
- `dataCount` is between 0 and the number of listed entries (creating an
  entry does not update it);
- at most one clipboard slot is set.

This invariant is what makes every list access in `Copy`, `Cut`, `Delete`
and Enter stay in range.

Behaviour as the code has it, kept in the model:

- `Load` clears both lists first and has no rollback. If `GetDirectories`
  throws, only the parent entry remains and `GetFiles` is never asked. If
  `GetFiles` throws, the file list stays empty. The count returned is the
  size of this partial listing.
- `Show` sets the selection to 0 whenever `Load` did not return −1, even
  for an empty listing. `Program` always loads its current directory, which
  is never null, so `Load` never returns −1 there.
- Cut, copy and delete refuse index 0 even when line 0 is a real entry at
  a drive root, because there is no parent entry there.
- `Exist` also matches the parent entry's name.
- The size label divides with integers before formatting, so it never
  shows decimals: 1536 bytes is "1 KB".
- `ChangeDirectory` assigns the current directory before it re-points the
  watcher. It shows the listing in every case.
- Creating a directory or file does not update `dataCount`. Only a reload
  does.
- Paste leaves the clipboard as it is, so a cut entry can be pasted again.

## Model

| member | source | states |
|---|---|---|
| `Text.Decimal` | Main/Program/DataList.cs:35-47 | The text of a number is a non-empty run of digits with no leading zero unless the number is 0. |
| `Text.DecimalRoundTrip` | Main/Program/DataList.cs:35-47 | Reading the digits back gives the number, so the text shows exactly the integer value. |
| `Text.DecimalInjective` | Main/Program/Program.cs:196-211 | Different counters give different texts, so "Directory_{i}" never repeats a name. |
| `FileSystemGateway.JoinPath` | Main/Program/Program.cs:249 | The joined path is the directory followed by the name, with at most one `\` between them. A `\` is inserted exactly when both sides are non-empty and neither supplies a separator at the seam. When both are non-empty, a separator always ends up at the seam. |
| `DataLists.FitsExactlyOne` | Main/Program/DataList.cs:33-48 | Every non-zero size has exactly one unit in which it counts at least 1 and (below GB) under 1024. |
| `DataLists.SizeLabel` | Main/Program/DataList.cs:28-51 | An empty file reads "0 Bytes". Any other size reads as the shortest numeral of the size integer-divided by its one fitting unit, a space, and the unit's name. |
| `DataLists.SizeLabelMeaning` | Main/Program/DataList.cs:28-51 | A label is exactly the shortest numeral of the size divided by the fitting unit, a space and the unit's name. The numeral reads back as that quotient, which lies in [1, 1024) below GB. |
| `DataLists.Data.GetFileSizeToString` | Main/Program/DataList.cs:28-51 | The label of the file at that position of the file list is `SizeLabel` of its length: "0 Bytes" when empty, else the quotient by the fitting unit and the unit's name. |
| `DataLists.SizeLabelExamples` | Main/Program/DataList.cs:28-51 | 0 gives "0 Bytes", 1023 gives "1023 Bytes", 1024 and 1536 give "1 KB", 1048576 gives "1 MB" and 1073741824 gives "1 GB". |
| `DataLists.Data.IsFile` | Main/Program/DataList.cs:198 | On a displayed line, `IsFile` holds exactly when the line shows a file. |
| `DataLists.Data.GetDirectory` | Main/Program/DataList.cs:203 | Returns the directory shown on that displayed line. |
| `DataLists.Data.GetFile` | Main/Program/DataList.cs:205 | Returns the file shown on that displayed line. |
| `DataLists.IndexMapping` | Main/Program/DataList.cs:198-205 | Each index below the count denotes exactly one displayed entry. `IsFile` holds from the directory count on, and `GetDirectory`/`GetFile` return that entry. |
| `DataLists.LoadedClassification` | Main/Program/DataList.cs:66-96 | After a load, line 0 is the parent when there is one, and a line is a file exactly from the parent-plus-subdirectories count on. |
| `DataLists.RemovedAtKeepsOthers` | Main/Program/DataList.cs:251 | Removing one element keeps every other element in its relative order. |
| `DataLists.DataList.constructor` | Main/Program/DataList.cs:54-57 | A new store has both lists empty and no parent flag. |
| `DataLists.DataList.Load` | Main/Program/DataList.cs:59-104 | No directory gives −1 and changes nothing. Otherwise the old lists are discarded, the lists become the parent, the subdirectories and the files in enumeration order (partial when an enumeration throws), `hasParent` tells whether a parent was added, and the result is the number of entries. |
| `DataLists.DataList.Exist` | Main/Program/DataList.cs:170-191 | True exactly when some directory entry (the parent included) or some file has that name. |
| `DataLists.DataList.OpenFile` | Main/Program/DataList.cs:156-166 | Asks to open the file's full path exactly when the index denotes a listed file. Any other index is caught and nothing is opened. |
| `DataLists.DataList.CreateDirectory` | Main/Program/DataList.cs:210-222 | Asks to create root joined with name. On success exactly one entry with that name and path is appended to the directory list. On failure nothing changes, and the file list never changes. |
| `DataLists.DataList.CreateFile` | Main/Program/DataList.cs:224-240 | Same as `CreateDirectory`, appending an empty file to the file list. |
| `DataLists.DataList.RemoveDirectoryAt` | Main/Program/DataList.cs:245-257 | For an index in range, asks to recycle that directory and on success removes only that entry. An index out of range or a failed delete changes nothing. |
| `DataLists.DataList.RemoveFileAt` | Main/Program/DataList.cs:259-271 | For a displayed index that is a file, asks to recycle it and on success removes only `fileDatas[index − directory count]`. Otherwise nothing changes. |
| `Browser.CandidateInjective` | Main/Program/Program.cs:194-211 | Two default-name candidates are equal only for the same counter. |
| `Browser.TriedCount` | Main/Program/Program.cs:196-211 | The first i candidates are i distinct names. |
| `Browser.CandidatesBound` | Main/Program/Program.cs:196-211 | A set that holds the first i candidates has at least i names, so the name search ends. |
| `Browser.FirstFree` | Main/Program/Program.cs:192-214 | Returns the least counter whose candidate is not listed, and every earlier candidate is listed. |
| `Browser.DefaultNameIsLeastFree` | Main/Program/Program.cs:192-214 | The default name is candidate k if and only if candidate k is unlisted and every earlier candidate is listed. |
| `Browser.FirstDirectoryName` | Main/Program/Program.cs:194-201 | In an empty listing the new directory is "Directory". |
| `Browser.SecondDirectoryName` | Main/Program/Program.cs:194-201 | With "Directory" listed the new directory is "Directory_1". |
| `Browser.ThirdDirectoryName` | Main/Program/Program.cs:194-201 | With "Directory" and "Directory_1" listed the new directory is "Directory_2". |
| `Browser.SecondFileName` | Main/Program/Program.cs:206-213 | With "File.txt" listed the new file is "File_1.txt". |
| `Browser.Step` | Main/Program/Program.cs:85-190 | Only Enter, D, F, V and Delete issue a create, recycle, move, copy or open request. The reloads that cut, copy, delete and drive keys trigger are modelled by the listing given as input. |
| `Browser.StepKeepsInv` | Main/Program/Program.cs:85-190 | Every key press keeps the invariant: selection in range, count no larger than the listing, at most one clipboard slot. |
| `Browser.KeysWithoutEffects` | Main/Program/Program.cs:85-190 | The arrows change nothing but the selection. Any other key that names no ready drive changes nothing and makes no call. |
| `Browser.MovesStayInRange` | Main/Program/Program.cs:90-111 | From a selection in [0, count), Up and Down stay in [0, count). Up at 0 and Down at the last line change nothing. |
| `Browser.EnterWithoutSelection` | Main/Program/Program.cs:114-118 | Enter with the selection at −1 changes nothing and makes no call. |
| `Browser.FirstLineIsProtected` | Main/Program/Program.cs:144-176 | With the selection at −1 or 0, cut, copy and delete change nothing and make no call. |
| `Browser.MarkSetsOneSlot` | Main/Program/Program.cs:216-239 | After cut or copy exactly one slot holds the selected entry, the file slot iff `IsFile`. `cut` is true only after Cut, and `CopiedPath` is that entry's path. |
| `Browser.CopiedPath` | Main/Program/Program.cs:16 | With at most one clipboard slot set, the greyed-out path is the path of whichever entry is on the clipboard (the file's when a file is copied), and empty when nothing is. |
| `Browser.PasteKeepsClipboard` | Main/Program/Program.cs:241-272 | Paste changes no state, the clipboard included. It makes no call with an empty clipboard, prefers a copied file, moves iff `cut`, and targets the current directory joined with the entry's name. |
| `Browser.EnterOpensOrNavigates` | Main/Program/Program.cs:114-131 | On a file line Enter asks to open that file and changes nothing. On a directory line (the parent included) it makes no request and is exactly `ChangeDirectory` to that entry (`Navigated`): selection 0, the new listing, the clipboard kept. |
| `Browser.NavigationOrder` | Main/Program/Program.cs:352-368 | The current directory changes iff the path can be opened. The watcher follows only if it also accepts the path. The listing is shown with selection 0 in every case. |
| `Browser.RefreshKeepsSelection` | Main/Program/Program.cs:371-395 | A refresh keeps the selection unless it is now past the end, where it becomes the last line. −1 stays −1, and the selection becomes 0 only if it was 0 or a single line remains. |
| `Browser.CreateAppendsFreshName` | Main/Program/Program.cs:192-214 | D and F create an unlisted name in the current directory. On success they append only to their own list, and they leave the count and the selection as they were. |
| `Browser.Program.constructor` | Main/Program/Program.cs:29-68 | Starts in the start path, watching it, with an empty clipboard, and shows it. The model's constructor stops after this first `Show`. |
| `Browser.Program.InputProcess` | Main/Program/Program.cs:85-190 | The new state and the call made are exactly `Step` of the old state, and `Valid()` is kept. |
| `Browser.Program.FreeName` | Main/Program/Program.cs:192-214 | The counting loop over `Exist` returns the first free default name. |
| `Browser.Program.CreateDirectory` | Main/Program/Program.cs:192-202 | Creates the first free "Directory…" name in the current directory. Only the store changes, not `dataCount`. |
| `Browser.Program.CreateFile` | Main/Program/Program.cs:204-214 | Creates the first free "File….txt" name in the current directory. Only the store changes, not `dataCount`. |
| `Browser.Program.Cut` | Main/Program/Program.cs:216-221 | Marks the selected entry as `Copy` does, then sets `cut`. |
| `Browser.Program.Copy` | Main/Program/Program.cs:223-239 | Clears `cut`, puts the selected entry in the slot of its kind and empties the other slot, then refreshes. |
| `Browser.Program.Paste` | Main/Program/Program.cs:241-272 | Returns the move or copy call for the clipboard entry and changes nothing. |
| `Browser.Program.Delete` | Main/Program/Program.cs:274-288 | Asks to recycle the selected file or directory, then refreshes. The new state is the refresh of the old state. |
| `Browser.Program.Show` | Main/Program/Program.cs:290-311 | Reloads the current directory. The selection is 0 when the load did not return −1 and −1 otherwise, and the load never returns −1 here. |
| `Browser.Program.ChangeDirectory` | Main/Program/Program.cs:352-368 | Assigns the current directory, then re-points the watcher, and shows the listing in every case (`Navigated`). |
| `Browser.Program.RefreshDataList` | Main/Program/Program.cs:371-395 | Reloads, and clamps a selection past the end to the last line (`Refreshed`). It establishes `Valid()`. |

## Left out

- Console output is not modelled: `ShowData`, `ShowPath`, `ShowDisk`, `ShowVersion`, `DrawCursor`, `Screen` and `ExceptionHandler`. A reported exception is a no-op in the model.
- The `FileSystemWatcher` is modelled only by the path it observes. Its events run `RefreshDataList` on another thread, which can interleave with a key press. The model treats `RefreshDataList` as an ordinary sequential call, so that race is not captured.
- Filesystem and process calls are `Request` values plus success flags supplied from outside. This covers create, recycle-bin delete, move, copy and `Process.Start`. A failed move or copy in `Paste` changes nothing.
- `GetDirectories`, `GetFiles` and `Parent` are one `DirectoryView` parameter per reload. The model does not check that this view belongs to the current path.
- `DirectoryInfo` path normalisation (`GetFullPath`) is not modelled. A path is its own full name, and a created entry's name is the name it was given.
- `Path.Combine` is modelled as `Path.Join`. The two agree whenever the second argument is not rooted, and the generated names never are.
- Drive keys: `DriveKey(n)` stands for `ConsoleKey.D0 + n`. The loop over the drive list is collapsed to the one drive whose index matches. For n ≥ 10 the real key codes run into other keys; that overlap is not modelled.
- The drive list is taken once at start-up as a list of names. Readiness is an input of the key press.
- `Main.cs` is not modelled: it only chooses the start path from the arguments and constructs `Program`.
- The constructor's endless `while (true) Update();` loop (Program.cs:70-73) is not modelled, and neither is `Update` (Program.cs:76-83), which reads one key and calls `InputProcess`. The model's constructor stops after the first `Show`. Each key press is one call of `InputProcess`.
- The constructor assumes the start path can be opened and watched. In the code a failure there is an uncaught exception.
- Creation times, the version text and `GetFileSizeToString`'s placement on screen are not modelled.
- 32-bit wrap-around of `selectorIndex`, `dataCount` and the name counter is not modelled. The selection and the count stay at most the number of listed entries. The name counter is at most that number plus one.
- A newly created file's length is taken as 0, which is what its `FileInfo` reports for an empty file.

/**
 * The file-system monitor: `detect_folder_changes`, which compares two scans of the
 * gallery, and the decision logic of `GalleryEventHandler`, which filters and debounces
 * watchdog events and guards against overlapping rescans.
 */
module FolderMonitor {
  import opened Optional
  import opened PyValue
  import opened PyText
  import opened PosixPath
  import opened JsonSanitizer
  import opened FolderScanner
  import opened Revisions

  /** One folder of a scan: file name to record. */
  type Folder = map<string, Record>

  /** The dictionary `{"folders": {folder: {file: change}}}` that `detect_folder_changes` returns. */
  datatype Changes = Changes(folders: Folders)

  /** `folders.get(name, {})` */
  function FolderOf(folders: Folders, name: string): Folder
  {
    if name in folders then folders[name] else map[]
  }

  /** `{"action": action, **data}`: the action first, overridden by a field of the same name in `data`. */
  function Tagged(action: string, data: Record): Record
  {
    map k | k in data.Keys + {"action"} :: if k in data then data[k] else PyStr(action)
  }

  /** The entry the inner loop writes for one file name, None when it writes nothing. */
  function FileChange(oldFolder: Folder, newFolder: Folder, filename: string): Option<Record>
  {
    if filename !in oldFolder then
      if filename in newFolder then Some(Tagged("create", newFolder[filename])) else None
    else if filename !in newFolder then Some(map["action" := PyStr("remove")])
    else if oldFolder[filename] != newFolder[filename] then Some(Tagged("update", newFolder[filename]))
    else None
  }

  /** The entries `f` gives for the keys in `keys`, skipping the keys it gives nothing for. */
  function Collect<V>(keys: set<string>, f: string -> Option<V>): map<string, V>
  {
    map k | k in keys && f(k).Some? :: f(k).value
  }

  /** Handling one more key adds its entry, if any, and nothing else. */
  lemma CollectStep<V>(keys: set<string>, k: string, f: string -> Option<V>)
    ensures Collect(keys + {k}, f) == if f(k).Some? then Collect(keys, f)[k := f(k).value] else Collect(keys, f)
  {
    var after := Collect(keys + {k}, f);
    var expected := if f(k).Some? then Collect(keys, f)[k := f(k).value] else Collect(keys, f);
    assert after.Keys == expected.Keys;
  }

  /** `FileChange` for every file name of one folder. */
  function FileChanges(oldFolder: Folder, newFolder: Folder): string -> Option<Record>
  {
    f => FileChange(oldFolder, newFolder, f)
  }

  /** `folder_changes` for one folder: an entry for every file whose presence or record differs. */
  function FolderDiff(oldFolder: Folder, newFolder: Folder): Folder
  {
    Collect(oldFolder.Keys + newFolder.Keys, FileChanges(oldFolder, newFolder))
  }

  /** The changes of one folder, None when there are none (`if folder_changes:`). */
  function FolderEntry(oldFolders: Folders, newFolders: Folders, d: string): Option<Folder>
  {
    var diff := FolderDiff(FolderOf(oldFolders, d), FolderOf(newFolders, d));
    if diff == map[] then None else Some(diff)
  }

  /** `FolderEntry` for every folder name. */
  function FolderEntries(oldFolders: Folders, newFolders: Folders): string -> Option<Folder>
  {
    d => FolderEntry(oldFolders, newFolders, d)
  }

  /** `changes["folders"]`: the folders, among those of either scan, that have at least one change. */
  function ChangesBetween(oldFolders: Folders, newFolders: Folders): Folders
  {
    Collect(oldFolders.Keys + newFolders.Keys, FolderEntries(oldFolders, newFolders))
  }

  /** `detect_folder_changes(old_folders, new_folders)`: the loop over the folder names of both scans. */
  method DetectFolderChanges(oldFolders: Folders, newFolders: Folders) returns (changes: Changes)
    ensures changes.folders == ChangesBetween(oldFolders, newFolders)
  {
    changes := Changes(map[]);
    var allFolders := oldFolders.Keys + newFolders.Keys;
    var remaining := allFolders;
    while remaining != {}
      invariant remaining <= allFolders
      invariant changes.folders == Collect(allFolders - remaining, FolderEntries(oldFolders, newFolders))
      decreases remaining
    {
      var folderName :| folderName in remaining;
      var oldFolder := FolderOf(oldFolders, folderName);
      var newFolder := FolderOf(newFolders, folderName);
      var folderChanges := DetectFileChanges(oldFolder, newFolder);
      CollectStep(allFolders - remaining, folderName, FolderEntries(oldFolders, newFolders));
      assert FolderEntries(oldFolders, newFolders)(folderName) == FolderEntry(oldFolders, newFolders, folderName);
      if folderChanges != map[] {
        changes := Changes(changes.folders[folderName := folderChanges]);
      }
      assert allFolders - (remaining - {folderName}) == (allFolders - remaining) + {folderName};
      remaining := remaining - {folderName};
    }
    assert allFolders - remaining == allFolders;
  }

  /** The inner loop of `detect_folder_changes`: the changes of one folder. */
  method DetectFileChanges(oldFolder: Folder, newFolder: Folder) returns (folderChanges: Folder)
    ensures folderChanges == FolderDiff(oldFolder, newFolder)
  {
    folderChanges := map[];
    var allFiles := oldFolder.Keys + newFolder.Keys;
    var files := allFiles;
    while files != {}
      invariant files <= allFiles
      invariant folderChanges == Collect(allFiles - files, FileChanges(oldFolder, newFolder))
      decreases files
    {
      var filename :| filename in files;
      CollectStep(allFiles - files, filename, FileChanges(oldFolder, newFolder));
      assert FileChanges(oldFolder, newFolder)(filename) == FileChange(oldFolder, newFolder, filename);
      if filename !in oldFolder {
        folderChanges := folderChanges[filename := Tagged("create", newFolder[filename])];
      } else if filename !in newFolder {
        folderChanges := folderChanges[filename := map["action" := PyStr("remove")]];
      } else if oldFolder[filename] != newFolder[filename] {
        folderChanges := folderChanges[filename := Tagged("update", newFolder[filename])];
      }
      assert allFiles - (files - {filename}) == (allFiles - files) + {filename};
      files := files - {filename};
    }
    assert allFiles - files == allFiles;
  }

  /** `Tagged` puts the action under "action" and keeps every field of a record that has none of that name. */
  lemma TaggedFields(action: string, data: Record)
    requires "action" !in data
    ensures Tagged(action, data).Keys == data.Keys + {"action"}
    ensures Tagged(action, data)["action"] == PyStr(action)
    ensures forall k :: k in data ==> Tagged(action, data)[k] == data[k]
    ensures Tagged(action, data) - {"action"} == data
  {
  }

  /** Only folders of one of the two scans appear, and never with an empty set of changes. */
  lemma ChangedFoldersNonEmpty(oldFolders: Folders, newFolders: Folders)
    ensures ChangesBetween(oldFolders, newFolders).Keys <= oldFolders.Keys + newFolders.Keys
    ensures forall d :: d in ChangesBetween(oldFolders, newFolders) ==> ChangesBetween(oldFolders, newFolders)[d] != map[]
  {
  }

  /** Every folder's entry in the changes is exactly what `FolderDiff` gives for it; missing folders have none. */
  lemma ChangesOfFolder(oldFolders: Folders, newFolders: Folders, d: string)
    ensures FolderOf(ChangesBetween(oldFolders, newFolders), d) == FolderDiff(FolderOf(oldFolders, d), FolderOf(newFolders, d))
  {
    var diff := FolderDiff(FolderOf(oldFolders, d), FolderOf(newFolders, d));
    if d !in oldFolders.Keys + newFolders.Keys {
      assert diff.Keys == {};
    }
  }

  /** A file only in the new scan is reported as created, with all of its new fields. */
  lemma CreatedFile(oldFolders: Folders, newFolders: Folders, d: string, f: string)
    requires f !in FolderOf(oldFolders, d) && f in FolderOf(newFolders, d)
    ensures d in ChangesBetween(oldFolders, newFolders) && f in ChangesBetween(oldFolders, newFolders)[d]
    ensures ChangesBetween(oldFolders, newFolders)[d][f] == Tagged("create", newFolders[d][f])
  {
    ChangesOfFolder(oldFolders, newFolders, d);
    assert f in FolderDiff(FolderOf(oldFolders, d), FolderOf(newFolders, d));
  }

  /** A file only in the old scan is reported as removed, by the action alone. */
  lemma RemovedFile(oldFolders: Folders, newFolders: Folders, d: string, f: string)
    requires f in FolderOf(oldFolders, d) && f !in FolderOf(newFolders, d)
    ensures d in ChangesBetween(oldFolders, newFolders) && f in ChangesBetween(oldFolders, newFolders)[d]
    ensures ChangesBetween(oldFolders, newFolders)[d][f] == map["action" := PyStr("remove")]
  {
    ChangesOfFolder(oldFolders, newFolders, d);
    assert f in FolderDiff(FolderOf(oldFolders, d), FolderOf(newFolders, d));
  }

  /** A file in both scans is reported exactly when its record differs, and then as updated with its new fields. */
  lemma UpdatedFile(oldFolders: Folders, newFolders: Folders, d: string, f: string)
    requires f in FolderOf(oldFolders, d) && f in FolderOf(newFolders, d)
    ensures (d in ChangesBetween(oldFolders, newFolders) && f in ChangesBetween(oldFolders, newFolders)[d])
      <==> oldFolders[d][f] != newFolders[d][f]
    ensures oldFolders[d][f] != newFolders[d][f] ==>
      ChangesBetween(oldFolders, newFolders)[d][f] == Tagged("update", newFolders[d][f])
  {
    ChangesOfFolder(oldFolders, newFolders, d);
    var diff := FolderDiff(oldFolders[d], newFolders[d]);
    assert FolderOf(ChangesBetween(oldFolders, newFolders), d) == diff;
    assert f in diff <==> oldFolders[d][f] != newFolders[d][f];
  }

  /** A file in neither scan is not mentioned. */
  lemma UnknownFile(oldFolders: Folders, newFolders: Folders, d: string, f: string)
    requires f !in FolderOf(oldFolders, d) && f !in FolderOf(newFolders, d)
    ensures !(d in ChangesBetween(oldFolders, newFolders) && f in ChangesBetween(oldFolders, newFolders)[d])
  {
    ChangesOfFolder(oldFolders, newFolders, d);
  }

  /** Comparing a scan with itself reports nothing. */
  lemma NoChangesForSameScan(folders: Folders)
    ensures ChangesBetween(folders, folders) == map[]
  {
    forall d | d in folders
      ensures FolderDiff(folders[d], folders[d]) == map[]
    {
      assert FolderDiff(folders[d], folders[d]).Keys == {};
    }
    assert ChangesBetween(folders, folders).Keys == {};
  }

  /** An entry of the changes that tells the client to drop the file. */
  predicate IsRemoval(c: Record)
  {
    "action" in c && c["action"] == PyStr("remove")
  }

  /**
   * How a client brings its copy of one folder up to date: removed files are dropped,
   * created and updated ones take the reported fields without "action", others stay.
   */
  function ApplyFolder(folder: Folder, diff: Folder): Folder
  {
    map f | f in folder.Keys + diff.Keys && !(f in diff && IsRemoval(diff[f]))
      :: if f in diff then diff[f] - {"action"} else folder[f]
  }

  /** How a client brings its copy of all folders up to date; a folder left empty disappears. */
  function ApplyChanges(folders: Folders, changes: Changes): Folders
  {
    map d | d in folders.Keys + changes.folders.Keys && ApplyFolder(FolderOf(folders, d), FolderOf(changes.folders, d)) != map[]
      :: ApplyFolder(FolderOf(folders, d), FolderOf(changes.folders, d))
  }

  /** No record of the scan has a field named "action" (the scanner's records never do). */
  predicate Untagged(folders: Folders)
  {
    forall d, f :: d in folders && f in folders[d] ==> "action" !in folders[d][f]
  }

  /** No folder of the scan is empty (the scanner never records an empty one). */
  predicate NoEmptyFolder(folders: Folders)
  {
    forall d :: d in folders ==> folders[d] != map[]
  }

  /** Applying the changes of one folder to its old contents gives its new contents. */
  lemma ApplyFolderDiff(oldFolder: Folder, newFolder: Folder)
    requires forall f :: f in newFolder ==> "action" !in newFolder[f]
    ensures ApplyFolder(oldFolder, FolderDiff(oldFolder, newFolder)) == newFolder
  {
    var diff := FolderDiff(oldFolder, newFolder);
    var applied := ApplyFolder(oldFolder, diff);
    forall f | f in newFolder
      ensures f in applied && applied[f] == newFolder[f]
    {
      TaggedFields("create", newFolder[f]);
      TaggedFields("update", newFolder[f]);
      if f in diff {
        assert diff[f] == Tagged("create", newFolder[f]) || diff[f] == Tagged("update", newFolder[f]);
        assert !IsRemoval(diff[f]);
      }
    }
    assert applied.Keys == newFolder.Keys;
  }

  /**
   * The round trip the front end relies on: a client holding the old scan that applies the
   * changes ends up holding the new scan.
   */
  lemma ApplyDetectedChanges(oldFolders: Folders, newFolders: Folders)
    requires NoEmptyFolder(newFolders) && Untagged(newFolders)
    ensures ApplyChanges(oldFolders, Changes(ChangesBetween(oldFolders, newFolders))) == newFolders
  {
    var applied := ApplyChanges(oldFolders, Changes(ChangesBetween(oldFolders, newFolders)));
    forall d
      ensures (d in applied <==> d in newFolders) && (d in newFolders ==> applied[d] == newFolders[d])
    {
      ApplyAtFolder(oldFolders, newFolders, d);
    }
    MapsEqual(applied, newFolders);
  }

  /** Maps with the same keys and the same value under each key are equal. */
  lemma MapsEqual<K, V>(a: map<K, V>, b: map<K, V>)
    requires forall k :: (k in a <==> k in b) && (k in b ==> a[k] == b[k])
    ensures a == b
  {
  }

  /** One folder of the round trip. */
  lemma ApplyAtFolder(oldFolders: Folders, newFolders: Folders, d: string)
    requires NoEmptyFolder(newFolders) && Untagged(newFolders)
    ensures var applied := ApplyChanges(oldFolders, Changes(ChangesBetween(oldFolders, newFolders)));
      (d in applied <==> d in newFolders) && (d in newFolders ==> applied[d] == newFolders[d])
  {
    var changes := ChangesBetween(oldFolders, newFolders);
    ChangesOfFolder(oldFolders, newFolders, d);
    var n := FolderOf(newFolders, d);
    assert forall f :: f in n ==> "action" !in n[f];
    ApplyFolderDiff(FolderOf(oldFolders, d), n);
    var folder := ApplyFolder(FolderOf(oldFolders, d), FolderOf(changes, d));
    assert folder == n;
    if d in newFolders {
      assert n != map[];
    } else {
      assert n == map[];
    }
  }

  /** The changes as the Python dictionary `{"folders": {...}}` that `if changes:` examines and that is sent. */
  function ChangesValue(changes: Changes): Value
  {
    PyDict(map["folders" := PyDict(map d | d in changes.folders ::
      PyDict(map f | f in changes.folders[d] :: PyDict(changes.folders[d][f])))])
  }

  /**
   * As written, the rescan tests `if changes:` on the whole dictionary, which always holds
   * the key "folders": the test passes even when no folder changed.
   */
  lemma ChangesAlwaysTruthy(oldFolders: Folders, newFolders: Folders)
    ensures Truthy(ChangesValue(Changes(ChangesBetween(oldFolders, newFolders))))
    ensures Truthy(ChangesValue(Changes(ChangesBetween(oldFolders, oldFolders))))
    ensures ChangesBetween(oldFolders, oldFolders) == map[]
  {
    NoChangesForSameScan(oldFolders);
    assert "folders" in ChangesValue(Changes(ChangesBetween(oldFolders, newFolders))).fields;
    assert "folders" in ChangesValue(Changes(ChangesBetween(oldFolders, oldFolders))).fields;
  }

  /** The test the rescan evidently means: at least one folder has a change. */
  predicate HasGalleryChanges(changes: Changes)
  {
    changes.folders != map[]
  }

  /** The test before sending: `if changes:` as written, a folder with a change as meant. */
  predicate ShouldSend(rev: Revision, changes: Changes)
  {
    match rev
    case AsWritten => Truthy(ChangesValue(changes))
    case Corrected => HasGalleryChanges(changes)
  }

  /** Two scans with no empty folder differ in some file of some folder when they differ at all. */
  lemma {:induction false} ScansDifferInAFile(oldFolders: Folders, newFolders: Folders) returns (d: string, f: string)
    requires NoEmptyFolder(oldFolders) && NoEmptyFolder(newFolders)
    requires oldFolders != newFolders
    ensures f in FolderOf(oldFolders, d) || f in FolderOf(newFolders, d)
    ensures FileChange(FolderOf(oldFolders, d), FolderOf(newFolders, d), f).Some?
  {
    if oldFolders.Keys != newFolders.Keys {
      if exists k :: k in oldFolders && k !in newFolders {
        d :| d in oldFolders && d !in newFolders;
        f :| f in oldFolders[d];
      } else {
        d :| d in newFolders && d !in oldFolders;
        f :| f in newFolders[d];
      }
    } else {
      d :| d in oldFolders && oldFolders[d] != newFolders[d];
      var o := oldFolders[d];
      var n := newFolders[d];
      if o.Keys != n.Keys {
        if exists k :: k in o && k !in n {
          f :| f in o && f !in n;
        } else {
          f :| f in n && f !in o;
        }
      } else {
        f :| f in o && o[f] != n[f];
      }
    }
  }

  /** With the corrected test, an update is sent exactly when the new scan differs from the old one. */
  lemma GalleryChangesWhenScansDiffer(oldFolders: Folders, newFolders: Folders)
    requires NoEmptyFolder(oldFolders) && NoEmptyFolder(newFolders)
    ensures HasGalleryChanges(Changes(ChangesBetween(oldFolders, newFolders))) <==> oldFolders != newFolders
  {
    if oldFolders == newFolders {
      NoChangesForSameScan(oldFolders);
    } else {
      var d, f := ScansDifferInAFile(oldFolders, newFolders);
      ChangesOfFolder(oldFolders, newFolders, d);
      assert f in FolderDiff(FolderOf(oldFolders, d), FolderOf(newFolders, d));
      assert d in ChangesBetween(oldFolders, newFolders);
    }
  }

  /** A record as the scanner stores it has no field named "action". */
  lemma RecordUntagged(name: string, r: Record)
    requires WellFormedRecord(name, r)
    ensures "action" !in r
  {
    assert "action" !in RecordFields;
  }

  /** Between two scans of the scanner, a folder has changes exactly when the scans differ. */
  lemma ScanChangesWhenScansDiffer(oldFolders: Folders, newFolders: Folders)
    requires WellFormedFolders(oldFolders) && WellFormedFolders(newFolders)
    ensures HasGalleryChanges(Changes(ChangesBetween(oldFolders, newFolders))) <==> oldFolders != newFolders
  {
    WellFormedScan(oldFolders);
    WellFormedScan(newFolders);
    GalleryChangesWhenScansDiffer(oldFolders, newFolders);
  }

  /** The scanner's folders have neither empty folders nor a field named "action". */
  lemma WellFormedScan(folders: Folders)
    requires WellFormedFolders(folders)
    ensures NoEmptyFolder(folders) && Untagged(folders)
  {
    forall d, f | d in folders && f in folders[d]
      ensures "action" !in folders[d][f]
    {
      assert WellFormedFolder(folders[d]);
      RecordUntagged(f, folders[d][f]);
    }
  }

  /** A watchdog event: its type ("created", "moved", ...), the path it names, and whether that is a directory. */
  datatype Event = Event(eventType: string, srcPath: string, isDirectory: bool)

  /** Suffixes of editors' temporary files, whose events are ignored. */
  const TemporarySuffixes: seq<string> := [".swp", ".tmp", "~"]

  /** The event types that start (or restart) the debounce timer. */
  const RescanEventTypes: set<string> := {"created", "deleted", "modified", "moved"}

  /** The events `on_any_event` returns on at once: directories and temporary files. */
  predicate Ignored(event: Event)
  {
    event.isDirectory || EndsWithAny(event.srcPath, TemporarySuffixes)
  }

  /** A file event is ignored exactly when its path ends with one of the three temporary suffixes. */
  lemma IgnoredFileEvents(event: Event)
    requires !event.isDirectory
    ensures Ignored(event) <==>
      EndsWith(event.srcPath, ".swp") || EndsWith(event.srcPath, ".tmp") || EndsWith(event.srcPath, "~")
  {
    if EndsWith(event.srcPath, ".swp") {
      assert EndsWith(event.srcPath, TemporarySuffixes[0]);
    } else if EndsWith(event.srcPath, ".tmp") {
      assert EndsWith(event.srcPath, TemporarySuffixes[1]);
    } else if EndsWith(event.srcPath, "~") {
      assert EndsWith(event.srcPath, TemporarySuffixes[2]);
    }
  }

  /** An event of this type and real path was recorded less than `interval` seconds before `now`. */
  predicate Recent(processed: map<(string, string), real>, interval: real, key: (string, string), now: real)
  {
    key in processed && now - processed[key] < interval
  }

  /** Once an event is recorded at `t`, the same event is dropped until `t + interval` and taken again from then on. */
  lemma DebounceWindow(processed: map<(string, string), real>, interval: real, key: (string, string), t: real, later: real)
    requires t <= later
    ensures Recent(processed[key := t], interval, key, later) <==> later < t + interval
  {
  }

  /**
   * `thread_target` of `rescan_and_send_changes`: scan the tree under the basename of the
   * resolved base path and compare the result with the last scan.
   */
  method ScanForChanges(tree: Entry, basePath: string, lastKnownFolders: Folders) returns (changes: Changes, newFolders: Folders)
    ensures newFolders == DirFolders(tree, "", Basename(basePath), true)
    ensures changes.folders == ChangesBetween(lastKnownFolders, newFolders)
  {
    var folderName := Basename(basePath);
    var newFoldersData, _ := ScanForImages(tree, basePath, folderName, true);
    var oldFoldersData := lastKnownFolders;
    changes := DetectFolderChanges(oldFoldersData, newFoldersData);
    newFolders := newFoldersData;
  }

  /** A rescan yields a scanner result, and it has changes exactly when it differs from the last one. */
  lemma RescanFacts(tree: Entry, basePath: string, lastKnownFolders: Folders)
    requires WellFormedFolders(lastKnownFolders)
    ensures WellFormedFolders(DirFolders(tree, "", Basename(basePath), true))
    ensures var newFolders := DirFolders(tree, "", Basename(basePath), true);
      HasGalleryChanges(Changes(ChangesBetween(lastKnownFolders, newFolders))) <==> lastKnownFolders != newFolders
  {
    DirFoldersWellFormed(tree, "", Basename(basePath), true);
    ScanChangesWhenScansDiffer(lastKnownFolders, DirFolders(tree, "", Basename(basePath), true));
  }

  /** `debounce_timer.cancel()` on the timer firing at `deadline`, when there is one: a pending timer stops. */
  function Cancel(pending: multiset<real>, deadline: Option<real>): multiset<real>
  {
    if deadline.Some? then pending - multiset{deadline.value} else pending
  }

  /**
   * Cancelling stops one pending timer with the referenced deadline, if one is pending, and
   * leaves every other timer pending.
   */
  lemma CancelStopsOne(pending: multiset<real>, deadline: Option<real>)
    ensures deadline.None? ==> Cancel(pending, deadline) == pending
    ensures deadline.Some? ==>
      Cancel(pending, deadline)[deadline.value] == if pending[deadline.value] > 0 then pending[deadline.value] - 1 else 0
    ensures forall t :: deadline != Some(t) ==> Cancel(pending, deadline)[t] == pending[t]
    ensures |Cancel(pending, deadline)| == if deadline.Some? && deadline.value in pending then |pending| - 1 else |pending|
  {
  }

  /**
   * `GalleryEventHandler`: the table of recently processed events, the debounce timer the
   * handler refers to (as the time it fires), the flag that keeps two rescans apart, and the
   * last scan whose changes were reported. `pendingDeadlines` holds the times at which the
   * started timers that are neither cancelled nor fired yet will fire: dropping the reference
   * to a timer does not stop it.
   */
  class GalleryEventHandler {
    /** `os.path.realpath(base_path)` */
    const basePath: string
    const debounceInterval: real
    var processedEvents: map<(string, string), real>
    var debounceDeadline: Option<real>
    var pendingDeadlines: multiset<real>
    var runningScan: bool
    var lastKnownFolders: Folders

    /** The last scan is one the scanner produced. */
    ghost predicate Valid()
      reads this
    {
      WellFormedFolders(lastKnownFolders)
    }

    /**
     * The handler as `FileSystemMonitor` sets it up: `basePath` is the resolved monitor path,
     * while the initial scan keys its root folder by the basename of `monitorPath` as given.
     */
    constructor (monitorPath: string, basePath: string, debounceInterval: real, tree: Entry)
      ensures this.basePath == basePath && this.debounceInterval == debounceInterval
      ensures processedEvents == map[] && debounceDeadline == None && pendingDeadlines == multiset{} && !runningScan
      ensures lastKnownFolders == DirFolders(tree, "", Basename(monitorPath), true)
      ensures Valid()
    {
      this.basePath := basePath;
      this.debounceInterval := debounceInterval;
      processedEvents := map[];
      debounceDeadline := None;
      pendingDeadlines := multiset{};
      runningScan := false;
      var folders, _ := ScanForImages(tree, monitorPath, Basename(monitorPath), true);
      lastKnownFolders := folders;
      new;
      DirFoldersWellFormed(tree, "", Basename(monitorPath), true);
    }

    /**
     * `on_any_event` at time `now`, where `realPath` is what `os.path.realpath` gives for the
     * event's path. Returns whether the debounce timer was (re)started. Restarting cancels
     * the timer the handler refers to, which does nothing once that timer has fired.
     */
    method OnAnyEvent(event: Event, realPath: string, now: real) returns (debounced: bool)
      requires Valid()
      modifies this
      ensures var key := (event.eventType, realPath);
        if Ignored(event) || Recent(old(processedEvents), debounceInterval, key, now) then
          !debounced && processedEvents == old(processedEvents)
        else
          processedEvents == old(processedEvents)[key := now] && (debounced <==> event.eventType in RescanEventTypes)
      ensures debounceDeadline == if debounced then Some(now + debounceInterval) else old(debounceDeadline)
      ensures pendingDeadlines == if !debounced then old(pendingDeadlines)
        else Cancel(old(pendingDeadlines), old(debounceDeadline)) + multiset{now + debounceInterval}
      ensures runningScan == old(runningScan) && lastKnownFolders == old(lastKnownFolders)
      ensures Valid()
    {
      debounced := false;
      if event.isDirectory {
        return;
      }
      if EndsWithAny(event.srcPath, TemporarySuffixes) {
        return;
      }
      var eventKey := (event.eventType, realPath);
      if eventKey in processedEvents {
        var lastProcessedTime := processedEvents[eventKey];
        if now - lastProcessedTime < debounceInterval {
          return;
        }
      }
      processedEvents := processedEvents[eventKey := now];
      if event.eventType in RescanEventTypes {
        pendingDeadlines := Cancel(pendingDeadlines, debounceDeadline) + multiset{now + debounceInterval};
        debounceDeadline := Some(now + debounceInterval);
        debounced := true;
      }
    }

    /**
     * A timer firing at `fired` and calling `rescan_and_send_changes`: the timer is no longer
     * pending, and the guard at the start skips the rescan while another one runs.
     */
    method BeginRescan(fired: real) returns (started: bool)
      requires Valid()
      modifies this
      ensures started <==> !old(runningScan)
      ensures runningScan
      ensures pendingDeadlines == old(pendingDeadlines) - multiset{fired}
      ensures processedEvents == old(processedEvents) && debounceDeadline == old(debounceDeadline)
      ensures lastKnownFolders == old(lastKnownFolders)
      ensures Valid()
    {
      pendingDeadlines := pendingDeadlines - multiset{fired};
      if runningScan {
        started := false;
        return;
      }
      runningScan := true;
      started := true;
    }

    /**
     * The rest of `rescan_and_send_changes` once the guard let it through, on the directory
     * tree found at that moment: rescan under the basename of the resolved path, compare with
     * the last scan, send the sanitised changes when `rev`'s test passes, remember the new
     * scan, drop the reference to the timer and clear the flag. Returns what was sent. As
     * written every rescan sends; as meant only one whose scan differs from the last. A timer
     * started while the scan ran is not cancelled: it stays pending and fires later.
     */
    method FinishRescan(tree: Entry, rev: Revision) returns (sent: Option<Value>)
      requires Valid()
      modifies this
      ensures lastKnownFolders == DirFolders(tree, "", Basename(basePath), true)
      ensures Valid()
      ensures sent.Some? <==> ShouldSend(rev, Changes(ChangesBetween(old(lastKnownFolders), lastKnownFolders)))
      ensures rev == AsWritten ==> sent.Some?
      ensures rev == Corrected ==> (sent.Some? <==> old(lastKnownFolders) != lastKnownFolders)
      ensures sent.Some? ==> sent.value == Sanitize(ChangesValue(Changes(ChangesBetween(old(lastKnownFolders), lastKnownFolders))))
      ensures debounceDeadline == None && !runningScan
      ensures unchanged(this`processedEvents, this`pendingDeadlines)
    {
      var changes, newFoldersData := ScanForChanges(tree, basePath, lastKnownFolders);
      RescanFacts(tree, basePath, lastKnownFolders);
      ChangesAlwaysTruthy(lastKnownFolders, newFoldersData);
      if ShouldSend(rev, changes) {
        sent := Some(Sanitize(ChangesValue(changes)));
      } else {
        sent := None;
      }
      lastKnownFolders := newFoldersData;
      debounceDeadline := None;
      runningScan := false;
    }
  }

  /**
   * A rescan over the same tree as the initial scan of a handler whose monitor path is
   * already resolved: as written it sends `{"folders": {}}`, as meant it sends nothing.
   */
  method RescanUnchanged(tree: Entry, basePath: string, debounceInterval: real, rev: Revision) returns (sent: Option<Value>)
    ensures rev == AsWritten ==> sent == Some(PyDict(map["folders" := PyDict(map[])]))
    ensures rev == Corrected ==> sent == None
  {
    var handler := new GalleryEventHandler(basePath, basePath, debounceInterval, tree);
    sent := handler.FinishRescan(tree, rev);
    NoChangesForSameScan(handler.lastKnownFolders);
    assert ChangesValue(Changes(map[])) == PyDict(map["folders" := PyDict(map[])]);
    SanitizeKeepsSafe(PyDict(map["folders" := PyDict(map[])]));
  }

  /**
   * An event at `t0` starts the timer, which fires at `t0 + debounceInterval` and rescans. A
   * second event at `t1`, during that rescan, finds the fired timer still referred to: its
   * cancelling does nothing, and a new timer starts. The end of the rescan drops the
   * reference to the new timer but does not stop it: it is still to fire afterwards.
   */
  method EventDuringRescan(tree: Entry, basePath: string, debounceInterval: real, rev: Revision,
                           first: Event, firstPath: string, t0: real,
                           second: Event, secondPath: string, t1: real)
    returns (started: bool, pending: multiset<real>)
    requires !Ignored(first) && first.eventType in RescanEventTypes
    requires !Ignored(second) && second.eventType in RescanEventTypes
    requires t0 + debounceInterval <= t1
    ensures started
    ensures pending == multiset{t1 + debounceInterval}
  {
    var handler := new GalleryEventHandler(basePath, basePath, debounceInterval, tree);
    var debounced := handler.OnAnyEvent(first, firstPath, t0);
    assert handler.pendingDeadlines == multiset{t0 + debounceInterval};
    assert handler.processedEvents == map[(first.eventType, firstPath) := t0];
    started := handler.BeginRescan(t0 + debounceInterval);
    assert handler.pendingDeadlines == multiset{};
    assert !Recent(handler.processedEvents, debounceInterval, (second.eventType, secondPath), t1);
    assert Cancel(multiset{}, Some(t0 + debounceInterval)) == multiset{};
    debounced := handler.OnAnyEvent(second, secondPath, t1);
    assert handler.pendingDeadlines == multiset{t1 + debounceInterval};
    var _ := handler.FinishRescan(tree, rev);
    pending := handler.pendingDeadlines;
  }
}

# ComfyUI-Gallery backend, modelled in Dafny

This project models the sequential logic of the Python backend of the ComfyUI gallery
extension, and proves properties of that model.

- **Folder scanner.** `_scan_for_images` and its nested `scan_directory` walk the output
  directory. For every folder holding at least one image, video or GIF, they build a
  dictionary from file name to record. A record has the name, the `/static_gallery/` URL,
  the modification time, the metadata and an `image`/`media` type tag.
- **Change detector.** `detect_folder_changes` diffs two such scans folder by folder and file
  by file. It tags each differing file `create`, `remove` or `update`.
- **Event handler.** `GalleryEventHandler` drops directory and temporary-file events, and
  debounces the rest through a table keyed by event type and resolved path. It keeps two
  rescans apart with the `running_scan` flag. A rescan sends the sanitised changes to the
  front end.
- **JSON sanitiser.** `sanitize_json_data` replaces NaN and the infinities with `None` and
  any other object with its text.
- **Gallery routes.** The argument checks and path computations of the `/Gallery/delete` and
  `/Gallery/move` routes.

Modules, one per file:

- `Optional`, `PyValue`, `PyText` and `PosixPath` model the parts of Python the code relies
  on: `None`, values and truthiness, `dict.get`, `str.startswith`, `str.endswith`,
  `str.lower`, `str.replace` and `str.split`, and `os.path.join`, `basename` and `dirname`.
- `Revisions` names the two readings of the places where the code evidently misbehaves: `AsWritten` and `Corrected` (see "## Findings").
- `JsonSanitizer` is `sanitize_json_data`.
- `FolderScanner` is `folder_scanner.py`. The scan state lives in the class `Scanner`, whose
  recursive method `ScanDirectory` updates `foldersData` and `currentFiles` as the Python
  closure does. Each method is proved against the functions `DirFolders`, `SubFolders` and
  `Content`, which define the result over an abstract directory tree (`Entry`).
- `FolderMonitor` is `folder_monitor.py`:
  - `DetectFolderChanges` and `DetectFileChanges` are the two nested loops, proved equal to
    the map diff `ChangesBetween`.
  - `GalleryEventHandler` is a class with the handler's fields. `OnAnyEvent` decides about
    one event. `BeginRescan` is the `running_scan` guard. `FinishRescan` is the rest of
    `rescan_and_send_changes`.
- `GalleryRoutes` holds `delete_image` and `move_image` as methods over a file-system
  oracle. They return the reply and the file-system operations they performed.

Inputs from the environment:

- The clock is the parameter `now`.
- The directory tree is the parameter `tree`. `os.listdir` failing, `getmtime` failing and
  `buildMetadata` failing are fields of that tree.
- `os.path.realpath` of an event path is the parameter `realPath`.
- The file system the routes see is a `FileSystem` value. It has `exists`, `isdir`,
  `realpath` and `normpath` as functions, and says which operations raise.

## Model

| member | source | states |
|---|---|---|
| PyText.Lower | folder_scanner.py:31 | lower-casing keeps the length and folds every character on its own |
| PyText.ReplaceAbsent | folder_scanner.py:42 | `str.replace` leaves a string without an occurrence of the pattern unchanged |
| PyText.ReplaceLeftmost | server.py:217-218 | `str.replace` keeps the text before the leftmost occurrence, substitutes it, and continues after it |
| PyText.ReplaceCharRemovesIt | folder_scanner.py:42 | replacing a character by another leaves none of it and keeps the length |
| PyText.ReplaceCharKeepsPrefix | folder_scanner.py:42 | a prefix without the replaced character is kept verbatim |
| PyText.BeforeFirst | server.py:215 | `split('/')[0]` is the longest prefix without `/`, ended by a `/` or by the end of the string |
| PosixPath.JoinShape | folder_scanner.py:21-24 | the join ends with the second part; an absolute second part replaces the first; otherwise the first part is kept in front and at most one `/` is inserted, and only after a first part not ending in `/` |
| PosixPath.JoinRelative | folder_scanner.py:21-24 | a relative name joined under a directory that does not end in `/` is the directory, one `/` and the name |
| PosixPath.BasenameIsLastComponent | folder_monitor.py:76 | the basename is the last component of the path: a suffix without `/` that starts the path or follows a `/` |
| PosixPath.DirnameIsHead | server.py:240 | the dirname is the path before its basename with the separating `/`s stripped, except that a head made only of `/`s is kept whole |
| PosixPath.BasenameOfJoin | server.py:237 | the basename of a plain name joined under a directory is that name |
| PosixPath.DirnameOfJoin | server.py:240 | the dirname of a plain name joined under a directory is that directory |
| JsonSanitizer.Sanitize | server.py:36-49 | the result is JSON-safe at every depth; dict keys and list lengths are kept; non-finite floats become `None`; finite floats, ints, strings, bools and `None` are kept; other objects become their text |
| JsonSanitizer.SanitizeComponents | server.py:38-41 | each dict value and list element, in order, is the sanitised original |
| JsonSanitizer.SanitizeKeepsSafe | server.py:36-49 | a JSON-safe value is returned unchanged |
| JsonSanitizer.SanitizeFixedPoints | server.py:36-49 | the values sanitising leaves unchanged are exactly the JSON-safe ones |
| JsonSanitizer.SanitizeIdempotent | server.py:36-49 | sanitising twice equals sanitising once |
| FolderScanner.RegularFiles | folder_scanner.py:20-27 | `file_entries` holds only regular files |
| FolderScanner.RegularFilesMembers | folder_scanner.py:20-27 | `file_entries` holds exactly the regular-file entries of the listing |
| FolderScanner.Scanner.constructor | folder_scanner.py:8-10 | the scan starts with no folders, no files and `changed` false |
| FolderScanner.Scanner.ScanDirectory | folder_scanner.py:12-69 | the recursion adds exactly the folders of `DirFolders` to `folders_data` and the file paths of `DirFiles` to `current_files`; an unreadable directory adds nothing |
| FolderScanner.BuildFolderContent | folder_scanner.py:30-62 | the second loop builds exactly `Content` of the file entries |
| FolderScanner.ScanForImages | folder_scanner.py:6-72 | the result is the folders of the whole tree, and `changed` is always false |
| FolderScanner.UrlShape | folder_scanner.py:38-42 | every URL starts with `/static_gallery/` and contains no backslash |
| FolderScanner.RootFileUrl | folder_scanner.py:37-41 | for a name without a backslash, a file of the root is served at `/static_gallery/<filename>` |
| FolderScanner.SubfolderFileUrl | folder_scanner.py:37-42 | for a subfolder and a name without a backslash, a file below the root is served at `/static_gallery/<subfolder>/<filename>` |
| FolderScanner.BackslashNamesShareUrl | folder_scanner.py:38-42 | the root file `<d>\<f>` and the file `<f>` of the folder `<d>` get the same URL, `/static_gallery/<d>/<f>`, since line 42 turns the backslash into `/` |
| FolderScanner.MakeRecordWellFormed | folder_scanner.py:53-60 | a gallery file's record has the six fields, its `name` equals its key, its type is `image` exactly for the still-image extensions, videos and GIFs get `{}` metadata, and its URL is well formed and its timestamp is a finite float |
| FolderScanner.MetadataFallback | folder_scanner.py:44-51 | an image whose metadata build fails, and every video or GIF, gets `{}` as metadata |
| FolderScanner.ContentMembers | folder_scanner.py:30-62 | a name is recorded exactly when a file of that name has a gallery extension and a readable, finite modification time |
| FolderScanner.ContentWellFormed | folder_scanner.py:53-60 | every record of a folder is well formed under its key |
| FolderScanner.DirFoldersWellFormed | folder_scanner.py:64-66 | no folder of a scan is empty, and every record in it is well formed |
| FolderScanner.SubFoldersWellFormed | folder_scanner.py:20-25 | the same for the folders that the subdirectories add |
| FolderScanner.HiddenDirectorySkipped | folder_scanner.py:23 | an entry whose name starts with `.` adds no folder to the scan |
| FolderScanner.SubFoldersExcluded | folder_scanner.py:22-25 | without `include_subfolders`, no subdirectory is entered |
| FolderScanner.ScanWithoutSubfolders | folder_scanner.py:22-25 | without `include_subfolders`, the base key is the only key a scan can produce |
| FolderScanner.DirKeysBelowBase | folder_scanner.py:64 | the key of a folder below the root is longer than the base key |
| FolderScanner.SubKeysBelowBase | folder_scanner.py:24 | the keys that entered subdirectories add are longer than the base key |
| FolderScanner.RootFolder | folder_scanner.py:64-66 | the base key is present exactly when the root directly holds a gallery file with a readable, finite time, and it then maps to the root's own files |
| FolderMonitor.DetectFolderChanges | folder_monitor.py:170-198 | the loop over the folder names of both scans computes exactly `ChangesBetween` |
| FolderMonitor.DetectFileChanges | folder_monitor.py:178-193 | the loop over one folder's file names computes exactly `FolderDiff` |
| FolderMonitor.TaggedFields | folder_monitor.py:189-193 | `{"action": a, **data}` has the action plus every field of an untagged record, unchanged |
| FolderMonitor.ChangedFoldersNonEmpty | folder_monitor.py:174-196 | every reported folder comes from one of the two scans and has at least one change |
| FolderMonitor.ChangesOfFolder | folder_monitor.py:174-196 | a folder's entry is exactly the diff of its old and new contents, and a folder in neither scan has none |
| FolderMonitor.CreatedFile | folder_monitor.py:188-189 | a file only in the new scan is reported as `create` with all its new fields |
| FolderMonitor.RemovedFile | folder_monitor.py:190-191 | a file only in the old scan is reported as exactly `{"action": "remove"}` |
| FolderMonitor.UpdatedFile | folder_monitor.py:192-193 | a file in both scans is reported exactly when its record differs, and then as `update` with its new fields |
| FolderMonitor.UnknownFile | folder_monitor.py:182-184 | a file in neither scan is not reported |
| FolderMonitor.NoChangesForSameScan | folder_monitor.py:195-196 | comparing a scan with itself reports no folder |
| FolderMonitor.ApplyFolderDiff | folder_monitor.py:184-193 | applying one folder's changes to its old contents gives its new contents |
| FolderMonitor.ApplyDetectedChanges | folder_monitor.py:170-198 | applying the changes to the old scan gives the new scan |
| FolderMonitor.ChangesAlwaysTruthy | folder_monitor.py:102 | the `changes` dictionary is truthy whatever the scans, even when nothing changed |
| FolderMonitor.ScansDifferInAFile | folder_monitor.py:184-193 | two different scans without empty folders differ in a file that gets a change |
| FolderMonitor.GalleryChangesWhenScansDiffer | folder_monitor.py:102 | with the corrected test, some folder has changes exactly when the scans differ |
| FolderMonitor.ScanChangesWhenScansDiffer | folder_monitor.py:77-102 | the same for any two scans the scanner produced |
| FolderMonitor.WellFormedScan | folder_scanner.py:53-66 | a scan has no empty folder and no record with an `action` field |
| FolderMonitor.IgnoredFileEvents | folder_monitor.py:28-33 | a file event is ignored exactly when its path ends in `.swp`, `.tmp` or `~` |
| FolderMonitor.DebounceWindow | folder_monitor.py:38-48 | once recorded at `t`, an event is dropped until `t + debounce_interval` and taken again from then on |
| FolderMonitor.ScanForChanges | folder_monitor.py:72-82 | the rescan scans the tree under the basename of the resolved path and compares the result with the last scan |
| FolderMonitor.RescanFacts | folder_monitor.py:76-102 | a rescan yields a well-formed scan, and it has changes exactly when it differs from the last scan |
| FolderMonitor.GalleryEventHandler.constructor | folder_monitor.py:131-137 | the handler starts with no recorded events, no timer referred to or pending, the flag clear, and the initial scan of the monitored path |
| FolderMonitor.GalleryEventHandler.OnAnyEvent | folder_monitor.py:26-62 | ignored and recent events change nothing. Any other event is recorded at `now`, and restarts the timer exactly when its type is created, deleted, modified or moved. A restart cancels the timer referred to, if it is still pending, and adds one firing at `now + debounce_interval`. The flag and the last scan are untouched |
| FolderMonitor.CancelStopsOne | folder_monitor.py:58-59 | cancelling stops one pending timer with the referred deadline, if there is one, and no other |
| FolderMonitor.GalleryEventHandler.BeginRescan | folder_monitor.py:64-70 | a firing timer stops being pending; the rescan starts exactly when none is running, and the flag is set afterwards |
| FolderMonitor.ShouldSend | folder_monitor.py:102 | the send test of each revision: `if changes:` on the whole dictionary as written, a changed folder as meant |
| FolderMonitor.GalleryEventHandler.FinishRescan | folder_monitor.py:72-116 | the new scan becomes the last scan. The sanitised changes are sent exactly when the revision's test passes: as written after every rescan, as meant exactly when the new scan differs from the previous one. The reference to the timer is dropped and the flag cleared; the event table and the pending timers are kept |
| FolderMonitor.EventDuringRescan | folder_monitor.py:56-111 | an event starts the timer, which fires and rescans. An event during that rescan finds the fired timer still referred to, so cancelling it does nothing, and a new timer starts. The end of the rescan drops the reference to that timer without stopping it: it is the one timer still pending afterwards |
| FolderMonitor.RescanUnchanged | folder_monitor.py:76-106 | a rescan of the same tree by a handler on a resolved path sends `{"folders": {}}` as written and nothing as meant |
| GalleryRoutes.SiblingPassesPrefixCheck | server.py:182 | the `startswith` test accepts a sibling such as `/comfy/output2/x.png` for `/comfy/output` |
| GalleryRoutes.SiblingOutside | server.py:228-231 | the corrected test rejects every sibling whose name extends the directory's name |
| GalleryRoutes.JoinInside | server.py:208-209 | a relative name joined under a directory passes the corrected test |
| GalleryRoutes.InsideImpliesPrefix | server.py:228-231 | the corrected test only rejects more than the `startswith` test |
| GalleryRoutes.Contained | server.py:182 | the containment test of each revision: `startswith` as written, the corrected test as meant |
| GalleryRoutes.DeleteImage | server.py:157-191 | for either revision, each step has its reply: 500 for a body that is not a JSON object; 400 for a missing `image_path`; 500 for a non-string one; 400 without the `/static_gallery/` prefix; 404 for a missing file; 403 when the revision's containment test fails; 500 when the removal raises; otherwise 200. A file is removed only with the 200, and only if it exists, passes the revision's containment test and its removal does not raise |
| GalleryRoutes.DeleteFromSibling | server.py:166-187 | deleting `/static_gallery/../output2/x.png` from output directory `/comfy/output`: as written the sibling file `/comfy/output2/x.png` is removed with a 200; as meant the request gets the 403 |
| GalleryRoutes.DeleteAcceptsScannerUrls | server.py:168-169 | for subfolder and file names without a backslash, the suffix after `/static_gallery/` of the URL the scanner builds is the file's path relative to the root the scan walked |
| GalleryRoutes.DeleteResolvesScannerUrl | server.py:176 | for names without a backslash, the delete route resolves a scanner URL to that relative path under `output_dir/../output`, whichever root the scan walked |
| GalleryRoutes.MoveArgumentStatusAsWritten | server.py:198-204 | as written, a non-string `source_path` gives 500 before the 400 check; the checks pass exactly for two non-empty strings |
| GalleryRoutes.MoveArgumentStatus | server.py:203-204 | as intended, 400 exactly when an argument is missing or empty and 500 for a non-string one; they pass exactly for two non-empty strings |
| GalleryRoutes.MissingSourceAnswered500 | server.py:201 | a request without `source_path` is answered 500 as written and 400 as intended |
| GalleryRoutes.MoveArgumentStatusDiffers | server.py:201-204 | the two differ exactly when the source is not a string and an argument is missing or empty |
| GalleryRoutes.ArgumentStatus | server.py:198-204 | the argument checks of each revision: `MoveArgumentStatusAsWritten` as written, `MoveArgumentStatus` as meant |
| GalleryRoutes.MoveImage | server.py:193-253 | for either revision, each step has its reply: the revision's argument status, 404, 403 when the revision's containment test fails, 500 when a file operation raises, or 200. Paths have `base/base` rewritten to `base/`, and a directory target gets the source's basename. A file is moved only with the 200, and only from an existing source that passes the revision's containment test for both the output directory and the ComfyUI root |
| GalleryRoutes.MoveWithoutSource | server.py:198-204 | a move whose body names only the target is answered 500 as written and 400 as meant, and moves nothing |
| GalleryRoutes.PerformMove | server.py:239-246 | the target's directory is created only when missing, then the file is moved; the reply is 200 exactly when the move happened, and no raising operation is counted as performed |

## Left out

- Threads, `threading.Timer`, `queue.Queue`, the scan lock, the watchdog `Observer` and its sleep loop:
  - These are concurrency and timing.
  - A timer is modelled as the time it fires. `debounceDeadline` is the timer the handler refers to, and `pendingDeadlines` holds every started timer that is neither cancelled nor fired.
  - Line 111 only drops the reference: a timer started during a rescan stays pending.
  - A timer firing is the caller's call of `BeginRescan` with its time, then `FinishRescan` when the rescan was started. The model does not enforce that only pending timers fire, or that they fire in time order.
  - Two pending timers with the same deadline cannot be told apart, so a cancel stops one of them.
- The exception branch of `thread_target` (folder_monitor.py:85-98):
  - `_scan_for_images` catches every error itself, so the model's scan never raises.
  - An exception put in the queue is not modelled.
  - Neither is the timer left in place after such an exception.
- `FileSystemMonitor.start_monitoring`, `_start_observer_thread` and `stop_monitoring`: these are thread management.
- aiohttp routing and responses, `PromptServer` route registration, `send_sync`, and the static route's directory. These are framework I/O. A sent message is the method's result.
- `get_gallery_images` and the monitor start/stop routes (server.py:51-155): these are I/O plumbing around the scanner and the monitor.
- The real file system:
  - `os.listdir`, `isdir`, `isfile`, `getmtime`, `realpath`, `normpath`, `exists`, `os.remove`, `shutil.move` and `os.makedirs` are the tree or the `FileSystem` oracle.
  - The partial effects of a `makedirs` that raises halfway are not modelled.
  - Symbolic-link cycles are not modelled; the tree is finite.
- `os.path.relpath` (folder_scanner.py:35): the relative path the recursion carries stands in for it. That is what it gives for directories reached through the recursion.
- `datetime` formatting and IEEE floats:
  - A modification time is a `Float`: finite (an exact real), infinite or NaN.
  - `fromtimestamp` raising for a NaN or infinite time is modelled, and such a file is skipped. Its raising for a finite time outside the platform's range is not.
  - Its date text is part of the tree.
  - Clock readings are reals.
- Python equality beyond structure: `NaN != NaN` and `1 == 1.0 == True` are not modelled. Records are compared structurally.
- Dictionary order and non-string dictionary keys: maps are unordered and keyed by strings.
- `str.lower` beyond ASCII: only `A`-`Z` are folded.
- `buildMetadata` and its module: metadata_extractor.py is not part of this model. Its result, or its failure, is part of each file entry.
- The watchdog name patterns given to the handler: they filter before `on_any_event` and belong to the library.
- `FolderScanner.RootFileUrl`: says nothing about a name with a backslash. Line 42 turns it into `/`, so the URL no longer names the file (`BackslashNamesShareUrl`).
- `FolderScanner.SubfolderFileUrl`: says nothing about a subfolder or name with a backslash, for the same reason.
- `GalleryRoutes.DeleteAcceptsScannerUrls`: for a file such as `a\b.png`, the URL's suffix is `a/b.png`, which is not the file's path. The lemma requires names without a backslash.
- `GalleryRoutes.DeleteResolvesScannerUrl`: requires names without a backslash for the same reason. A URL built for the root file `a\b.png` resolves to `a/b.png`, which is another file when a folder `a` holds `b.png`. The model states both URLs are equal (`BackslashNamesShareUrl`), and does not treat the rewrite as a finding: on Windows the backslash is the separator, and the rewrite is evidently meant for it.
- `GalleryRoutes.DeleteImage`: resolves `image_path` under `output_dir/../output` (server.py:176). The scanner builds the URL relative to the root it scanned, `normpath(output_dir/../output/relative_path)` (server.py:55, 109, 118). The two agree only for the default `relative_path` `./`. `DeleteResolvesScannerUrl` states where the route looks, and the model does not claim it finds the scanned file for any other `relative_path`.
- The text of exception messages: a 500 reply carries `ExceptionMessage`.
- `__init__.py` and `simple_node.py`: registration code with no logic.
- The TypeScript metadata-extraction engine: none of its source files is part of this model.
- `FolderMonitor.GalleryEventHandler.constructor`: the initial scan keys the root folder by the basename of the path as given. Rescans use the basename of its resolved path (folder_monitor.py:18, 76, 136). For a monitored path given through a symbolic link or with a trailing `/`, the two basenames differ. Every folder key starts with that basename, so every key changes: the first rescan reports every file of every folder as removed under its old key and created under its new one. This is modelled as written, and not listed as a finding.

## Findings

`DeleteImage`, `MoveImage` and `FinishRescan` take a `Revision`. `AsWritten` gives the code as written and `Corrected` gives the evident intent, and the demonstrations show the two apart on the input of each row.

| source | as written | input that shows it | evidently intended | confidence | as-written member | corrected member |
|---|---|---|---|---|---|---|
| server.py:201 | `"source_path:" + source_path` runs before the missing-argument check. A missing or non-string `source_path` raises and is answered 500 | a body `{"target_path": "a.png"}` | a missing argument is answered 400 by lines 203-204 | high (not executed) | GalleryRoutes.MoveWithoutSource | GalleryRoutes.MoveArgumentStatus |
| folder_monitor.py:102 | `if changes:` tests the whole dictionary, which always holds the key `folders`. An update is sent after every rescan, even when nothing changed | two identical scans: `changes == {"folders": {}}` is truthy | send only when some folder changed | high (not executed) | FolderMonitor.RescanUnchanged | FolderMonitor.GalleryChangesWhenScansDiffer |
| server.py:182 | the containment test is `startswith` on the bare directory string. A sibling directory whose name extends the output directory's name passes. The same holds for lines 228-231 | `image_path` `/static_gallery/../output2/x.png`, which resolves to `/comfy/output2/x.png`, for output directory `/comfy/output` | the path is the directory itself or lies below it | medium (not executed) | GalleryRoutes.DeleteFromSibling | GalleryRoutes.SiblingOutside |

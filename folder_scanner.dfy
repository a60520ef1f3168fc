/**
 * `_scan_for_images`: walks the gallery's output directory and builds, for every folder
 * that holds at least one image, video or GIF, a dictionary from file name to the file's
 * record (name, URL, modification time, metadata, type).
 */
module FolderScanner {
  import opened Optional
  import opened PyValue
  import opened PyText
  import opened PosixPath

  /**
   * What `os.path.getmtime` gives for a file, with the "%Y-%m-%d %H:%M:%S" text
   * `datetime.fromtimestamp` makes of it. For a NaN or infinite time `fromtimestamp` raises
   * and the file is skipped; a finite time outside the range it accepts is not modelled.
   */
  datatype Stat = Stat(mtime: Float, date: string)

  /**
   * One entry of a directory as `os.listdir`, `os.path.isdir` and `os.path.isfile` see it,
   * symbolic links already followed.
   * - File: a regular file. `stat` is None when `getmtime` raises; `metadata` is what
   *   `buildMetadata` returns as its third component, None when it raises.
   * - Directory: `readable` is false when `os.listdir` raises on it.
   * - Special: neither a directory nor a regular file (a dangling link, a socket).
   */
  datatype Entry =
    | File(name: string, stat: Option<Stat>, metadata: Option<Value>)
    | Directory(name: string, readable: bool, entries: seq<Entry>)
    | Special(name: string)

  /** Folder key to file name to record, the `folders_data` dictionary. */
  type Folders = map<string, map<string, Record>>

  const GalleryExtensions: seq<string> := [".png", ".jpg", ".jpeg", ".webp", ".mp4", ".gif", ".webm"]
  const ImageExtensions: seq<string> := [".png", ".jpg", ".jpeg", ".webp"]
  const StaticPrefix: string := "/static_gallery/"
  /** The six fields of a file record. */
  const RecordFields: set<string> := {"name", "url", "timestamp", "date", "metadata", "type"}

  /** The name ends, ignoring case, in one of the gallery's extensions. */
  predicate IsGalleryFile(name: string)
  {
    EndsWithAny(Lower(name), GalleryExtensions)
  }

  /** The name ends, ignoring case, in one of the still-image extensions. */
  predicate IsImageFile(name: string)
  {
    EndsWithAny(Lower(name), ImageExtensions)
  }

  /**
   * The subfolder part of a file's URL. `os.path.relpath` of the scanned directory against
   * the base gives "." for the base itself and the relative path otherwise; "." becomes "".
   */
  function Subfolder(relativePath: string): string
  {
    var relPath := if relativePath == "" then "." else relativePath;
    if relPath != "." then relPath else ""
  }

  /** The URL the static route serves a file under, with every backslash turned into `/`. */
  function FileUrl(subfolder: string, filename: string): string
  {
    var url := if |subfolder| > 0 then StaticPrefix + subfolder + "/" + filename else StaticPrefix + filename;
    ReplaceAll(url, "\\", "/")
  }

  /** Only still images get the metadata `buildMetadata` extracts; a failure gives `{}`. */
  function FileMetadata(e: Entry): Value
    requires e.File?
  {
    if IsImageFile(e.name) then e.metadata.GetOr(PyDict(map[])) else PyDict(map[])
  }

  /** The record stored for a gallery file whose modification time could be read. */
  function MakeRecord(e: Entry, st: Stat, relativePath: string): Record
    requires e.File?
  {
    map[
      "name" := PyStr(e.name),
      "url" := PyStr(FileUrl(Subfolder(relativePath), e.name)),
      "timestamp" := PyFloat(st.mtime),
      "date" := PyStr(st.date),
      "metadata" := FileMetadata(e),
      "type" := PyStr(if IsImageFile(e.name) then "image" else "media")]
  }

  /**
   * The record the second loop stores for a regular file, None when it skips the file:
   * not a gallery file, `getmtime` raised, or `fromtimestamp` raised on a non-finite time.
   */
  function FileRecord(e: Entry, relativePath: string): Option<Record>
    requires e.File?
  {
    if IsGalleryFile(e.name) && e.stat.Some? && IsFinite(e.stat.value.mtime) then
      Some(MakeRecord(e, e.stat.value, relativePath))
    else None
  }

  /** The regular files of a listing, in order: the `file_entries` list of the first loop. */
  function RegularFiles(es: seq<Entry>): (r: seq<Entry>)
    ensures forall j :: 0 <= j < |r| ==> r[j].File?
  {
    if es == [] then []
    else RegularFiles(es[..|es| - 1]) + if es[|es| - 1].File? then [es[|es| - 1]] else []
  }

  /** `folder_content` once the second loop has handled `files`; a later file of the same name wins. */
  function Content(files: seq<Entry>, relativePath: string): map<string, Record>
    requires forall j :: 0 <= j < |files| ==> files[j].File?
  {
    if files == [] then map[]
    else
      var c := Content(files[..|files| - 1], relativePath);
      var f := files[|files| - 1];
      match FileRecord(f, relativePath)
      case Some(r) => c[f.name := r]
      case None => c
  }

  /** The folder's key: the base name for the root, the base name joined with the relative path below it. */
  function FolderKey(basePath: string, relativePath: string): string
  {
    if relativePath != "" then Join(basePath, relativePath) else basePath
  }

  /** A subdirectory is scanned only when subfolders are included and its name does not start with `.`. */
  predicate Entered(e: Entry, includeSubfolders: bool)
  {
    e.Directory? && includeSubfolders && !StartsWith(e.name, ".")
  }

  /**
   * The folders `scan_directory(dir, relative_path)` adds to `folders_data`: those of its
   * entered subdirectories in listing order, then its own, if it holds any gallery file.
   * A directory whose listing fails adds nothing.
   */
  function DirFolders(dir: Entry, relativePath: string, basePath: string, includeSubfolders: bool): Folders
    decreases dir, 1
  {
    if !(dir.Directory? && dir.readable) then map[]
    else
      var sub := SubFolders(dir, |dir.entries|, relativePath, basePath, includeSubfolders);
      var content := Content(RegularFiles(dir.entries), relativePath);
      if content == map[] then sub else sub[FolderKey(basePath, relativePath) := content]
  }

  /** The folders added while the first loop handles the first `i` entries of `dir`. */
  function SubFolders(dir: Entry, i: nat, relativePath: string, basePath: string, includeSubfolders: bool): Folders
    requires dir.Directory? && i <= |dir.entries|
    decreases dir, 0, i
  {
    if i == 0 then map[]
    else
      var e := dir.entries[i - 1];
      var before := SubFolders(dir, i - 1, relativePath, basePath, includeSubfolders);
      if Entered(e, includeSubfolders) then
        before + DirFolders(e, Join(relativePath, e.name), basePath, includeSubfolders)
      else before
  }

  /** The full paths of the regular files a scan of `dir` adds to `current_files`. */
  function DirFiles(dir: Entry, dirPath: string, includeSubfolders: bool): set<string>
    decreases dir, 1
  {
    if !(dir.Directory? && dir.readable) then {}
    else SubFiles(dir, |dir.entries|, dirPath, includeSubfolders)
  }

  /** The file paths added while the first loop handles the first `i` entries of `dir`. */
  function SubFiles(dir: Entry, i: nat, dirPath: string, includeSubfolders: bool): set<string>
    requires dir.Directory? && i <= |dir.entries|
    decreases dir, 0, i
  {
    if i == 0 then {}
    else
      var e := dir.entries[i - 1];
      var before := SubFiles(dir, i - 1, dirPath, includeSubfolders);
      if Entered(e, includeSubfolders) then before + DirFiles(e, Join(dirPath, e.name), includeSubfolders)
      else if e.File? then before + {Join(dirPath, e.name)}
      else before
  }

  /** The state `_scan_for_images` keeps while its nested `scan_directory` recurses. */
  class Scanner {
    const fullBasePath: string
    const basePath: string
    const includeSubfolders: bool
    var foldersData: Folders
    var currentFiles: set<string>
    var changed: bool

    constructor (fullBasePath: string, basePath: string, includeSubfolders: bool)
      ensures this.fullBasePath == fullBasePath && this.basePath == basePath
      ensures this.includeSubfolders == includeSubfolders
      ensures foldersData == map[] && currentFiles == {} && !changed
    {
      this.fullBasePath := fullBasePath;
      this.basePath := basePath;
      this.includeSubfolders := includeSubfolders;
      foldersData := map[];
      currentFiles := {};
      changed := false;
    }

    /** `scan_directory(dir_path, relative_path)`, where `dir` is what the path names. */
    method ScanDirectory(dir: Entry, dirPath: string, relativePath: string)
      modifies this
      decreases dir
      ensures foldersData == old(foldersData) + DirFolders(dir, relativePath, basePath, includeSubfolders)
      ensures currentFiles == old(currentFiles) + DirFiles(dir, dirPath, includeSubfolders)
      ensures changed == old(changed)
    {
      if !(dir.Directory? && dir.readable) {
        // os.listdir raised: the error is printed and the directory contributes nothing
        assert DirFolders(dir, relativePath, basePath, includeSubfolders) == map[];
        return;
      }
      var folderContent: map<string, Record>;
      var fileEntries: seq<Entry> := [];
      var i := 0;
      while i < |dir.entries|
        invariant 0 <= i <= |dir.entries|
        invariant foldersData == old(foldersData) + SubFolders(dir, i, relativePath, basePath, includeSubfolders)
        invariant currentFiles == old(currentFiles) + SubFiles(dir, i, dirPath, includeSubfolders)
        invariant fileEntries == RegularFiles(dir.entries[..i])
        invariant changed == old(changed)
      {
        var entry := dir.entries[i];
        var fullPath := Join(dirPath, entry.name);
        assert dir.entries[..i + 1] == dir.entries[..i] + [entry];
        if entry.Directory? {
          if includeSubfolders && !StartsWith(entry.name, ".") {
            var nextRelativePath := Join(relativePath, entry.name);
            ghost var before := foldersData;
            ScanDirectory(entry, fullPath, nextRelativePath);
            MapUnionAssociative(old(foldersData), SubFolders(dir, i, relativePath, basePath, includeSubfolders),
              DirFolders(entry, nextRelativePath, basePath, includeSubfolders));
          }
        } else if entry.File? {
          fileEntries := fileEntries + [entry];
          currentFiles := currentFiles + {fullPath};
        }
        i := i + 1;
      }
      assert dir.entries[..i] == dir.entries;
      folderContent := BuildFolderContent(fileEntries, relativePath);
      var folderKey := if relativePath != "" then Join(basePath, relativePath) else basePath;
      if folderContent != map[] {
        foldersData := foldersData[folderKey := folderContent];
        MapUnionUpdate(old(foldersData), SubFolders(dir, |dir.entries|, relativePath, basePath, includeSubfolders),
          folderKey, folderContent);
      }
    }
  }

  /** The second loop of `scan_directory`: the records of the gallery files among `fileEntries`. */
  method BuildFolderContent(fileEntries: seq<Entry>, relativePath: string) returns (folderContent: map<string, Record>)
    requires forall k :: 0 <= k < |fileEntries| ==> fileEntries[k].File?
    ensures folderContent == Content(fileEntries, relativePath)
  {
    folderContent := map[];
    var j := 0;
    while j < |fileEntries|
      invariant 0 <= j <= |fileEntries|
      invariant folderContent == Content(fileEntries[..j], relativePath)
    {
      var entry := fileEntries[j];
      assert fileEntries[..j + 1] == fileEntries[..j] + [entry];
      ContentSnoc(fileEntries[..j], entry, relativePath);
      if IsGalleryFile(entry.name) {
        // when getmtime or fromtimestamp raises, the error is printed and the file skipped
        if entry.stat.Some? && IsFinite(entry.stat.value.mtime) {
          var timestamp := entry.stat.value.mtime;
          var dateStr := entry.stat.value.date;
          var relPath := if relativePath == "" then "." else relativePath;
          var filename := entry.name;
          var subfolder := if relPath != "." then relPath else "";
          var urlPath := if |subfolder| > 0 then StaticPrefix + subfolder + "/" + filename
                         else StaticPrefix + filename;
          urlPath := ReplaceAll(urlPath, "\\", "/");
          var metadata := PyDict(map[]);
          if IsImageFile(entry.name) {
            metadata := entry.metadata.GetOr(PyDict(map[]));
          }
          var fileRecord := map[
            "name" := PyStr(entry.name),
            "url" := PyStr(urlPath),
            "timestamp" := PyFloat(timestamp),
            "date" := PyStr(dateStr),
            "metadata" := metadata,
            "type" := PyStr(if IsImageFile(entry.name) then "image" else "media")];
          assert urlPath == FileUrl(Subfolder(relativePath), entry.name);
          assert metadata == FileMetadata(entry);
          assert fileRecord == MakeRecord(entry, entry.stat.value, relativePath);
          folderContent := folderContent[filename := fileRecord];
        }
      }
      j := j + 1;
    }
    assert fileEntries[..j] == fileEntries;
  }

  /** Handling one more file: its record, if any, is stored under its name. */
  lemma ContentSnoc(files: seq<Entry>, f: Entry, relativePath: string)
    requires forall j :: 0 <= j < |files| ==> files[j].File?
    requires f.File?
    ensures Content(files + [f], relativePath) ==
      match FileRecord(f, relativePath)
      case Some(r) => Content(files, relativePath)[f.name := r]
      case None => Content(files, relativePath)
  {
    assert (files + [f])[..|files|] == files;
  }

  /** `_scan_for_images(full_base_path, base_path, include_subfolders)` over the tree at `full_base_path`. */
  method ScanForImages(tree: Entry, fullBasePath: string, basePath: string, includeSubfolders: bool)
    returns (foldersData: Folders, changed: bool)
    ensures foldersData == DirFolders(tree, "", basePath, includeSubfolders)
    ensures !changed
  {
    var scanner := new Scanner(fullBasePath, basePath, includeSubfolders);
    scanner.ScanDirectory(tree, fullBasePath, "");
    foldersData, changed := scanner.foldersData, scanner.changed;
  }

  /**
   * A record as the scanner stores it under the key `name`: the six fields, `name` equal to
   * the key, a gallery extension, the type tag, empty metadata for videos and GIFs, and a
   * URL under the static route with no backslash in it.
   */
  predicate WellFormedRecord(name: string, r: Record)
  {
    && r.Keys == RecordFields
    && r["name"] == PyStr(name)
    && r["timestamp"].PyFloat? && IsFinite(r["timestamp"].x)
    && IsGalleryFile(name)
    && r["type"] == PyStr(if IsImageFile(name) then "image" else "media")
    && (!IsImageFile(name) ==> r["metadata"] == PyDict(map[]))
    && r["url"].PyStr? && StartsWith(r["url"].s, StaticPrefix) && '\\' !in r["url"].s
  }

  /** Every record of one folder is well formed under its key. */
  predicate WellFormedFolder(c: map<string, Record>)
  {
    forall n :: n in c ==> WellFormedRecord(n, c[n])
  }

  /** Every folder holds at least one record, and every record is well formed. */
  predicate WellFormedFolders(f: Folders)
  {
    forall k :: k in f ==> f[k] != map[] && WellFormedFolder(f[k])
  }

  /** Directory entries carry the names `os.listdir` gives: non-empty and without `/`. */
  predicate NamesValid(dir: Entry)
    decreases dir
  {
    dir.Directory? ==>
      forall i :: 0 <= i < |dir.entries| ==>
        dir.entries[i].name != [] && '/' !in dir.entries[i].name && NamesValid(dir.entries[i])
  }

  /** A URL starts with the static prefix and keeps no backslash. */
  lemma UrlShape(subfolder: string, filename: string)
    ensures StartsWith(FileUrl(subfolder, filename), StaticPrefix)
    ensures '\\' !in FileUrl(subfolder, filename)
  {
    var rest := if |subfolder| > 0 then subfolder + "/" + filename else filename;
    assert (if |subfolder| > 0 then StaticPrefix + subfolder + "/" + filename else StaticPrefix + filename)
      == StaticPrefix + rest;
    ReplaceCharKeepsPrefix(StaticPrefix, rest, '\\', '/');
    ReplaceCharRemovesIt(StaticPrefix + rest, '\\', '/');
  }

  /** A file directly in the scanned root is served at `/static_gallery/<filename>`. */
  lemma RootFileUrl(filename: string)
    requires '\\' !in filename
    ensures FileUrl(Subfolder(""), filename) == StaticPrefix + filename
  {
    CharAbsent(StaticPrefix + filename, '\\');
    ReplaceAbsent(StaticPrefix + filename, "\\", "/");
  }

  /**
   * A backslash is an ordinary character in a POSIX file name, but the URL turns it into `/`:
   * the root file `<d>\\<f>` and the file `<f>` of the folder `<d>` share one URL.
   */
  lemma BackslashNamesShareUrl(d: string, f: string)
    requires d != "" && d != "."
    requires '\\' !in d && '\\' !in f
    ensures FileUrl(Subfolder(""), d + "\\" + f) == FileUrl(Subfolder(d), f) == StaticPrefix + d + "/" + f
  {
    var p := StaticPrefix + d;
    assert StaticPrefix + (d + "\\" + f) == p + ("\\" + f);
    forall i | 0 <= i < |p|
      ensures p[i] != '\\'
    {
      if i < |StaticPrefix| {
        assert p[i] == StaticPrefix[i];
      } else {
        assert p[i] == d[i - |StaticPrefix|];
      }
    }
    ReplaceCharKeepsPrefix(p, "\\" + f, '\\', '/');
    ReplaceAtStart("\\" + f, "\\", "/");
    assert ("\\" + f)[1..] == f;
    CharAbsent(f, '\\');
    ReplaceAbsent(f, "\\", "/");
    SubfolderFileUrl(d, f);
  }

  /** A file below the root is served at `/static_gallery/<subfolder>/<filename>`. */
  lemma SubfolderFileUrl(relativePath: string, filename: string)
    requires relativePath != "" && relativePath != "."
    requires '\\' !in relativePath && '\\' !in filename
    ensures FileUrl(Subfolder(relativePath), filename) == StaticPrefix + relativePath + "/" + filename
  {
    var url := StaticPrefix + relativePath + "/" + filename;
    CharAbsent(url, '\\');
    ReplaceAbsent(url, "\\", "/");
  }

  /** Every gallery file gets a well-formed record, whatever its metadata and time. */
  lemma MakeRecordWellFormed(e: Entry, st: Stat, relativePath: string)
    requires e.File? && IsGalleryFile(e.name) && IsFinite(st.mtime)
    ensures WellFormedRecord(e.name, MakeRecord(e, st, relativePath))
  {
    UrlShape(Subfolder(relativePath), e.name);
  }

  /** An image whose metadata could not be built, and every video or GIF, is stored with `{}` as metadata. */
  lemma MetadataFallback(e: Entry, st: Stat, relativePath: string)
    requires e.File? && (e.metadata.None? || !IsImageFile(e.name))
    ensures MakeRecord(e, st, relativePath)["metadata"] == PyDict(map[])
  {
  }

  /** The regular files of a listing are exactly its `File` entries. */
  lemma {:induction false} RegularFilesMembers(es: seq<Entry>)
    ensures forall e :: e in RegularFiles(es) <==> e in es && e.File?
  {
    if es != [] {
      RegularFilesMembers(es[..|es| - 1]);
      assert es == es[..|es| - 1] + [es[|es| - 1]];
    }
  }

  /** A name is a key of the folder content exactly when some gallery file of that name has a readable, finite time. */
  lemma {:induction false} ContentMembers(files: seq<Entry>, relativePath: string)
    requires forall j :: 0 <= j < |files| ==> files[j].File?
    ensures forall n :: n in Content(files, relativePath) <==>
      exists f :: f in files && f.name == n && IsGalleryFile(f.name) && f.stat.Some? && IsFinite(f.stat.value.mtime)
  {
    if files != [] {
      var init := files[..|files| - 1];
      ContentMembers(init, relativePath);
      assert files == init + [files[|files| - 1]];
    }
  }

  /** Every record of a folder's content is well formed under its key. */
  lemma {:induction false} ContentWellFormed(files: seq<Entry>, relativePath: string)
    requires forall j :: 0 <= j < |files| ==> files[j].File?
    ensures WellFormedFolder(Content(files, relativePath))
  {
    if files != [] {
      var f := files[|files| - 1];
      ContentWellFormed(files[..|files| - 1], relativePath);
      if FileRecord(f, relativePath).Some? {
        MakeRecordWellFormed(f, f.stat.value, relativePath);
      }
    }
  }

  /** Every folder the scan of a directory produces is non-empty and holds well-formed records. */
  lemma {:induction false} DirFoldersWellFormed(dir: Entry, relativePath: string, basePath: string, includeSubfolders: bool)
    ensures WellFormedFolders(DirFolders(dir, relativePath, basePath, includeSubfolders))
    decreases dir, 1
  {
    if dir.Directory? && dir.readable {
      var sub := SubFolders(dir, |dir.entries|, relativePath, basePath, includeSubfolders);
      var content := Content(RegularFiles(dir.entries), relativePath);
      SubFoldersWellFormed(dir, |dir.entries|, relativePath, basePath, includeSubfolders);
      ContentWellFormed(RegularFiles(dir.entries), relativePath);
      if content != map[] {
        var k := FolderKey(basePath, relativePath);
        var updated := sub[k := content];
        assert WellFormedFolders(updated) by {
          forall k' | k' in updated
            ensures updated[k'] != map[] && WellFormedFolder(updated[k'])
          {
            if k' != k { assert updated[k'] == sub[k']; }
          }
        }
      }
    }
  }

  /** The folders of the first `i` entries are well formed. */
  lemma {:induction false} SubFoldersWellFormed(dir: Entry, i: nat, relativePath: string, basePath: string, includeSubfolders: bool)
    requires dir.Directory? && i <= |dir.entries|
    ensures WellFormedFolders(SubFolders(dir, i, relativePath, basePath, includeSubfolders))
    decreases dir, 0, i
  {
    if i > 0 {
      var e := dir.entries[i - 1];
      SubFoldersWellFormed(dir, i - 1, relativePath, basePath, includeSubfolders);
      if Entered(e, includeSubfolders) {
        var before := SubFolders(dir, i - 1, relativePath, basePath, includeSubfolders);
        var added := DirFolders(e, Join(relativePath, e.name), basePath, includeSubfolders);
        DirFoldersWellFormed(e, Join(relativePath, e.name), basePath, includeSubfolders);
        assert WellFormedFolders(before + added) by {
          forall k | k in before + added
            ensures (before + added)[k] != map[] && WellFormedFolder((before + added)[k])
          {
            if k in added { assert (before + added)[k] == added[k]; }
            else { assert (before + added)[k] == before[k]; }
          }
        }
      }
    }
  }

  /** A subdirectory whose name starts with `.`, like any entry that is not entered, contributes no folder. */
  lemma HiddenDirectorySkipped(dir: Entry, i: nat, relativePath: string, basePath: string, includeSubfolders: bool)
    requires dir.Directory? && i < |dir.entries| && StartsWith(dir.entries[i].name, ".")
    ensures SubFolders(dir, i + 1, relativePath, basePath, includeSubfolders)
      == SubFolders(dir, i, relativePath, basePath, includeSubfolders)
  {
  }

  /** Without subfolders, no subdirectory contributes a folder. */
  lemma {:induction false} SubFoldersExcluded(dir: Entry, i: nat, relativePath: string, basePath: string)
    requires dir.Directory? && i <= |dir.entries|
    ensures SubFolders(dir, i, relativePath, basePath, false) == map[]
    decreases i
  {
    if i > 0 {
      SubFoldersExcluded(dir, i - 1, relativePath, basePath);
    }
  }

  /** With `include_subfolders` false, the only folder a scan can report is the base itself. */
  lemma ScanWithoutSubfolders(tree: Entry, basePath: string)
    ensures DirFolders(tree, "", basePath, false).Keys <= {basePath}
  {
    if tree.Directory? && tree.readable {
      SubFoldersExcluded(tree, |tree.entries|, "", basePath);
    }
  }

  /** The keys of folders found below the root are longer than the base key. */
  lemma {:induction false} DirKeysBelowBase(dir: Entry, relativePath: string, basePath: string, includeSubfolders: bool)
    requires NamesValid(dir) && relativePath != [] && relativePath[0] != '/'
    ensures forall k :: k in DirFolders(dir, relativePath, basePath, includeSubfolders) ==> |k| > |basePath|
    decreases dir, 1
  {
    if dir.Directory? && dir.readable {
      SubKeysBelowBase(dir, |dir.entries|, relativePath, basePath, includeSubfolders);
      assert !StartsWith(relativePath, "/");
    }
  }

  /** The keys of the folders the first `i` entries contribute are longer than the base key. */
  lemma {:induction false} SubKeysBelowBase(dir: Entry, i: nat, relativePath: string, basePath: string, includeSubfolders: bool)
    requires dir.Directory? && i <= |dir.entries| && NamesValid(dir)
    requires relativePath == [] || relativePath[0] != '/'
    ensures forall k :: k in SubFolders(dir, i, relativePath, basePath, includeSubfolders) ==> |k| > |basePath|
    decreases dir, 0, i
  {
    if i > 0 {
      var e := dir.entries[i - 1];
      SubKeysBelowBase(dir, i - 1, relativePath, basePath, includeSubfolders);
      if Entered(e, includeSubfolders) {
        assert e.name[0] in e.name;
        assert !StartsWith(e.name, "/");
        var next := Join(relativePath, e.name);
        assert next != [] && next[0] != '/';
        DirKeysBelowBase(e, next, basePath, includeSubfolders);
      }
    }
  }

  /**
   * The base folder appears in the result exactly when the root directly holds a gallery
   * file whose modification time can be read and is finite, and then it holds the root's own files.
   */
  lemma RootFolder(tree: Entry, basePath: string, includeSubfolders: bool)
    requires tree.Directory? && tree.readable && NamesValid(tree)
    ensures basePath in DirFolders(tree, "", basePath, includeSubfolders) <==>
      exists e :: e in tree.entries && e.File? && IsGalleryFile(e.name) && e.stat.Some? && IsFinite(e.stat.value.mtime)
    ensures basePath in DirFolders(tree, "", basePath, includeSubfolders) ==>
      DirFolders(tree, "", basePath, includeSubfolders)[basePath] == Content(RegularFiles(tree.entries), "")
  {
    var files := RegularFiles(tree.entries);
    var sub := SubFolders(tree, |tree.entries|, "", basePath, includeSubfolders);
    var content := Content(files, "");
    assert DirFolders(tree, "", basePath, includeSubfolders) ==
      if content == map[] then sub else sub[basePath := content];
    SubKeysBelowBase(tree, |tree.entries|, "", basePath, includeSubfolders);
    assert basePath !in sub;
    RegularFilesMembers(tree.entries);
    ContentMembers(files, "");
    if exists e :: e in tree.entries && e.File? && IsGalleryFile(e.name) && e.stat.Some? && IsFinite(e.stat.value.mtime) {
      var e :| e in tree.entries && e.File? && IsGalleryFile(e.name) && e.stat.Some? && IsFinite(e.stat.value.mtime);
      assert e in files;
      assert e.name in content;
    } else {
      assert content.Keys == {};
    }
  }

  lemma MapUnionAssociative<K, V>(a: map<K, V>, b: map<K, V>, c: map<K, V>)
    ensures (a + b) + c == a + (b + c)
  {
  }

  lemma MapUnionUpdate<K, V>(a: map<K, V>, b: map<K, V>, k: K, v: V)
    ensures (a + b)[k := v] == a + b[k := v]
  {
  }
}

/**
 * The checks and path computations of the `/Gallery/delete` and `/Gallery/move` routes.
 * The file system is an oracle: which paths exist and are directories, what
 * `os.path.realpath` and `os.path.normpath` give, and which operations raise.
 */
module GalleryRoutes {
  import opened Optional
  import opened PyValue
  import opened PyText
  import opened PosixPath
  import opened FolderScanner
  import opened Revisions

  /** The body of a response: a text, or the message of an exception (not modelled). */
  datatype Body = Text(text: string) | ExceptionMessage

  /** A `web.Response`: its status code and its body. */
  datatype Reply = Reply(status: int, body: Body)

  /** An operation that changes the file system. */
  datatype FsOp = Remove(path: string) | MakeDirs(path: string) | Move(source: string, target: string)

  /** What the routes learn from, and ask of, the file system. */
  datatype FileSystem = FileSystem(
    pathExists: string -> bool,
    isDir: string -> bool,
    realPath: string -> string,
    normPath: string -> string,
    fails: FsOp -> bool)

  /** The reply when an exception reaches the handler's `except`. */
  const ServerError: Reply := Reply(500, ExceptionMessage)

  /** `path.startswith(directory)`, the containment test the routes perform. */
  predicate PrefixCheck(path: string, directory: string)
  {
    StartsWith(path, directory)
  }

  /** `path` is `directory` or lies below it: the prefix ends at a path separator. */
  predicate InsideDirectory(path: string, directory: string)
  {
    StartsWith(path, directory)
      && (|path| == |directory| || (directory != [] && directory[|directory| - 1] == '/') || path[|directory|] == '/')
  }

  /** As written, a sibling whose name extends the directory's name passes the prefix test. */
  lemma SiblingPassesPrefixCheck()
    ensures PrefixCheck("/comfy/output2/x.png", "/comfy/output")
    ensures !InsideDirectory("/comfy/output2/x.png", "/comfy/output")
  {
    assert "/comfy/output2/x.png"[..|"/comfy/output"|] == "/comfy/output";
  }

  /** No sibling of a directory whose name extends the directory's name is inside it. */
  lemma SiblingOutside(directory: string, c: char, rest: string)
    requires directory != [] && directory[|directory| - 1] != '/' && c != '/'
    ensures !InsideDirectory(directory + [c] + rest, directory)
  {
    assert (directory + [c] + rest)[|directory|] == c;
  }

  /** A relative, non-empty name joined under a directory is inside it. */
  lemma JoinInside(directory: string, name: string)
    requires directory != [] && name != [] && name[0] != '/'
    ensures InsideDirectory(Join(directory, name), directory)
  {
    assert name[..1] != "/";
    var r := Join(directory, name);
    assert r[..|directory|] == directory;
  }

  /** The containment test the routes perform, as written (`startswith`) or as meant. */
  predicate Contained(rev: Revision, path: string, directory: string)
  {
    match rev
    case AsWritten => PrefixCheck(path, directory)
    case Corrected => InsideDirectory(path, directory)
  }

  /** Whatever is inside a directory also passes the prefix test: the correction only rejects more. */
  lemma InsideImpliesPrefix(path: string, directory: string)
    requires InsideDirectory(path, directory)
    ensures PrefixCheck(path, directory)
  {
  }

  // ---- /Gallery/delete ----

  /**
   * The file `delete_image` resolves a gallery URL to:
   * `normpath(join(output_dir, "..", "output", url[len("/static_gallery/"):]))`.
   */
  function DeleteTarget(outputDir: string, url: string, fs: FileSystem): string
    requires StartsWith(url, StaticPrefix)
  {
    fs.normPath(Join(Join(Join(outputDir, ".."), "output"), url[|StaticPrefix|..]))
  }

  /**
   * `delete_image` on the parsed request body (None when it is not JSON), with
   * `folder_paths.get_output_directory()` as `outputDir`; `rev` chooses the containment test,
   * `startswith` as written or `InsideDirectory` as meant. Each check has its reply: 500 for a
   * body that is not a JSON object, 400 without `image_path`, 500 for a non-string one, 400
   * without the static prefix, 404 for a missing file, 403 outside the output directory, 500
   * when the removal raises. A file is removed only with the 200 reply.
   */
  method DeleteImage(request: Option<Value>, outputDir: string, fs: FileSystem, rev: Revision)
    returns (reply: Reply, removed: Option<string>)
    ensures request.None? || !request.value.PyDict? ==> reply == ServerError && removed.None?
    ensures request.Some? && request.value.PyDict? ==>
      var url := GetField(request.value.fields, "image_path");
      && (!Truthy(url) ==> reply == Reply(400, Text("image_path is required")))
      && (Truthy(url) && !url.PyStr? ==> reply == ServerError)
      && (url.PyStr? && url.s != [] && !StartsWith(url.s, StaticPrefix) ==>
            reply == Reply(400, Text("Invalid image_path format")))
      && (url.PyStr? && StartsWith(url.s, StaticPrefix) ==>
            var path := DeleteTarget(outputDir, url.s, fs);
            && (!fs.pathExists(path) ==> reply == Reply(404, Text("File not found: " + path)))
            && (fs.pathExists(path) && !Contained(rev, path, fs.realPath(outputDir)) ==>
                  reply == Reply(403, Text("Access denied: File outside of output directory")))
            && (fs.pathExists(path) && Contained(rev, path, fs.realPath(outputDir)) ==>
                  if fs.fails(Remove(path)) then reply == ServerError
                  else reply == Reply(200, Text("Image deleted: " + url.s)) && removed == Some(path)))
    ensures removed.Some? <==> reply.status == 200
    ensures removed.Some? ==>
      fs.pathExists(removed.value) && Contained(rev, removed.value, fs.realPath(outputDir)) && !fs.fails(Remove(removed.value))
  {
    removed := None;
    if request.None? || !request.value.PyDict? {
      return ServerError, None;
    }
    var imageUrl := GetField(request.value.fields, "image_path");
    if !Truthy(imageUrl) {
      return Reply(400, Text("image_path is required")), None;
    }
    if !imageUrl.PyStr? {
      return ServerError, None;
    }
    var relativePath;
    if StartsWith(imageUrl.s, StaticPrefix) {
      relativePath := imageUrl.s[|StaticPrefix|..];
    } else {
      return Reply(400, Text("Invalid image_path format")), None;
    }
    var fullImagePath := fs.normPath(Join(Join(Join(outputDir, ".."), "output"), relativePath));
    if !fs.pathExists(fullImagePath) {
      return Reply(404, Text("File not found: " + fullImagePath)), None;
    }
    if !Contained(rev, fullImagePath, fs.realPath(outputDir)) {
      return Reply(403, Text("Access denied: File outside of output directory")), None;
    }
    if fs.fails(Remove(fullImagePath)) {
      return ServerError, None;
    }
    reply := Reply(200, Text("Image deleted: " + imageUrl.s));
    removed := Some(fullImagePath);
  }

  /**
   * The URLs the scanner hands out pass the format check, and the delete route recovers
   * from them the path of the file relative to the root the scanner walked.
   */
  lemma DeleteAcceptsScannerUrls(relativePath: string, filename: string)
    requires '\\' !in relativePath && '\\' !in filename
    ensures StartsWith(FileUrl(Subfolder(relativePath), filename), StaticPrefix)
    ensures FileUrl(Subfolder(relativePath), filename)[|StaticPrefix|..] ==
      if relativePath == "" || relativePath == "." then filename else relativePath + "/" + filename
  {
    UrlShape(Subfolder(relativePath), filename);
    if relativePath == "" || relativePath == "." {
      assert Subfolder(relativePath) == Subfolder("");
      RootFileUrl(filename);
      assert (StaticPrefix + filename)[|StaticPrefix|..] == filename;
    } else {
      SubfolderFileUrl(relativePath, filename);
      assert (StaticPrefix + relativePath + "/" + filename)[|StaticPrefix|..] == relativePath + "/" + filename;
    }
  }

  /**
   * The delete route resolves a scanner URL under `output_dir/../output`, whatever root the
   * scan that built it walked: the two agree only for a scan of that directory itself.
   */
  lemma DeleteResolvesScannerUrl(outputDir: string, relativePath: string, filename: string, fs: FileSystem)
    requires '\\' !in relativePath && '\\' !in filename
    ensures StartsWith(FileUrl(Subfolder(relativePath), filename), StaticPrefix)
    ensures DeleteTarget(outputDir, FileUrl(Subfolder(relativePath), filename), fs)
      == fs.normPath(Join(Join(Join(outputDir, ".."), "output"),
           if relativePath == "" || relativePath == "." then filename else relativePath + "/" + filename))
  {
    DeleteAcceptsScannerUrls(relativePath, filename);
  }

  // ---- /Gallery/move ----

  /**
   * The status the argument checks of `move_image` end in, as written: the concatenation
   * `"source_path:" + source_path` raises for any source that is not a string (500) before
   * the check for missing arguments (400) is reached; 0 means the checks pass.
   */
  function MoveArgumentStatusAsWritten(source: Value, target: Value): (status: int)
    ensures status in {0, 400, 500}
    ensures status == 0 <==> source.PyStr? && source.s != [] && target.PyStr? && target.s != []
  {
    if !source.PyStr? then 500
    else if !Truthy(source) || !Truthy(target) then 400
    else if !target.PyStr? then 500
    else 0
  }

  /** The argument checks as evidently intended: a missing or empty argument is a 400. */
  function MoveArgumentStatus(source: Value, target: Value): (status: int)
    ensures status == 400 <==> !Truthy(source) || !Truthy(target)
    ensures status == 500 <==> Truthy(source) && Truthy(target) && !(source.PyStr? && target.PyStr?)
    ensures status == 0 <==> source.PyStr? && source.s != [] && target.PyStr? && target.s != []
  {
    if !Truthy(source) || !Truthy(target) then 400
    else if !source.PyStr? || !target.PyStr? then 500
    else 0
  }

  /** The argument checks of `move_image`, as written or as meant. */
  function ArgumentStatus(rev: Revision, source: Value, target: Value): int
  {
    match rev
    case AsWritten => MoveArgumentStatusAsWritten(source, target)
    case Corrected => MoveArgumentStatus(source, target)
  }

  /** A request without `source_path` is answered 500 as written, and 400 as intended. */
  lemma MissingSourceAnswered500()
    ensures MoveArgumentStatusAsWritten(GetField(map["target_path" := PyStr("a.png")], "source_path"), PyStr("a.png")) == 500
    ensures MoveArgumentStatus(GetField(map["target_path" := PyStr("a.png")], "source_path"), PyStr("a.png")) == 400
  {
  }

  /** The two versions differ exactly when the source is not a string and an argument is missing or empty. */
  lemma MoveArgumentStatusDiffers(source: Value, target: Value)
    ensures MoveArgumentStatusAsWritten(source, target) != MoveArgumentStatus(source, target)
      <==> !source.PyStr? && (!Truthy(source) || !Truthy(target))
  {
  }

  /**
   * A path of `move_image`: `join(output_dir, p)` then the text `base/base` replaced by
   * `base/`, where `base` is the part of the source path before its first `/`.
   */
  function MovePath(outputDir: string, sourcePath: string, p: string): string
  {
    var base := BeforeFirst(sourcePath, '/');
    ReplaceAll(Join(outputDir, p), base + "/" + base, base + "/")
  }

  /** The security test of `move_image`: both resolved paths are inside the output directory and the ComfyUI root. */
  predicate MoveAllowed(rev: Revision, fullSource: string, fullTarget: string, outputDir: string, comfyPath: string, fs: FileSystem)
  {
    && Contained(rev, fs.realPath(fullSource), fs.realPath(outputDir))
    && Contained(rev, fs.realPath(fullTarget), fs.realPath(outputDir))
    && Contained(rev, fs.realPath(fullSource), fs.realPath(comfyPath))
    && Contained(rev, fs.realPath(fullTarget), fs.realPath(comfyPath))
  }

  /** Where the file goes: into the target when it is a directory, under the source's basename. */
  function FinalTarget(fullSource: string, fullTarget: string, fs: FileSystem): string
  {
    if fs.isDir(fullTarget) then Join(fullTarget, Basename(fullSource)) else fullTarget
  }

  /**
   * `move_image` on the parsed request body (None when it is not JSON), with the output
   * directory and the ComfyUI root. Returns the reply and the operations that succeeded in
   * order. `rev` chooses the argument checks and the containment test, as written or as meant.
   */
  method MoveImage(request: Option<Value>, outputDir: string, comfyPath: string, fs: FileSystem, rev: Revision)
    returns (reply: Reply, performed: seq<FsOp>)
    ensures request.None? || !request.value.PyDict? ==> reply == ServerError && performed == []
    ensures request.Some? && request.value.PyDict? ==>
      var source := GetField(request.value.fields, "source_path");
      var target := GetField(request.value.fields, "target_path");
      && (ArgumentStatus(rev, source, target) == 400 ==>
            reply == Reply(400, Text("source_path and target_path are required")) && performed == [])
      && (ArgumentStatus(rev, source, target) == 500 ==> reply == ServerError && performed == [])
      && (ArgumentStatus(rev, source, target) == 0 ==>
            var fullSource := MovePath(outputDir, source.s, source.s);
            var fullTarget := MovePath(outputDir, source.s, target.s);
            var finalTarget := FinalTarget(fullSource, fullTarget, fs);
            var targetDir := Dirname(finalTarget);
            && (!fs.pathExists(fullSource) ==>
                  reply == Reply(404, Text("Source file not found: " + fullSource)) && performed == [])
            && (fs.pathExists(fullSource) && !MoveAllowed(rev, fullSource, fullTarget, outputDir, comfyPath, fs) ==>
                  reply == Reply(403, Text("Access denied: File outside of allowed directory")) && performed == [])
            && (fs.pathExists(fullSource) && MoveAllowed(rev, fullSource, fullTarget, outputDir, comfyPath, fs) ==>
                  var made := if fs.pathExists(targetDir) then [] else [MakeDirs(targetDir)];
                  if made != [] && fs.fails(MakeDirs(targetDir)) then reply == ServerError && performed == []
                  else if fs.fails(Move(fullSource, finalTarget)) then reply == ServerError && performed == made
                  else (reply == Reply(200, Text("Image moved from " + source.s + " to " + target.s))
                    && performed == made + [Move(fullSource, finalTarget)])))
    ensures reply.status == 200 <==> performed != [] && performed[|performed| - 1].Move?
    ensures forall i :: 0 <= i < |performed| ==> !fs.fails(performed[i])
    ensures forall i :: 0 <= i < |performed| && performed[i].Move? ==>
      && fs.pathExists(performed[i].source)
      && Contained(rev, fs.realPath(performed[i].source), fs.realPath(outputDir))
      && Contained(rev, fs.realPath(performed[i].source), fs.realPath(comfyPath))
    ensures |performed| <= 2
  {
    performed := [];
    if request.None? || !request.value.PyDict? {
      return ServerError, [];
    }
    var sourceValue := GetField(request.value.fields, "source_path");
    var targetValue := GetField(request.value.fields, "target_path");
    var status := ArgumentStatus(rev, sourceValue, targetValue);
    if status == 400 {
      return Reply(400, Text("source_path and target_path are required")), [];
    } else if status == 500 {
      return ServerError, [];
    }
    var sourcePath := sourceValue.s;
    var targetPath := targetValue.s;
    var fullSourcePath := Join(outputDir, sourcePath);
    var fullTargetPath := Join(outputDir, targetPath);
    var base := BeforeFirst(sourcePath, '/');
    fullSourcePath := ReplaceAll(fullSourcePath, base + "/" + base, base + "/");
    fullTargetPath := ReplaceAll(fullTargetPath, base + "/" + base, base + "/");
    if !fs.pathExists(fullSourcePath) {
      return Reply(404, Text("Source file not found: " + fullSourcePath)), [];
    }
    if !Contained(rev, fs.realPath(fullSourcePath), fs.realPath(outputDir))
      || !Contained(rev, fs.realPath(fullTargetPath), fs.realPath(outputDir))
      || !Contained(rev, fs.realPath(fullSourcePath), fs.realPath(comfyPath))
      || !Contained(rev, fs.realPath(fullTargetPath), fs.realPath(comfyPath))
    {
      return Reply(403, Text("Access denied: File outside of allowed directory")), [];
    }
    var finalTarget := FinalTarget(fullSourcePath, fullTargetPath, fs);
    reply, performed := PerformMove(fullSourcePath, finalTarget, fs, "Image moved from " + sourcePath + " to " + targetPath);
  }

  /**
   * The last steps of `move_image`, once the checks passed: create the directory of the final
   * target when it is missing, then move the file. Returns the reply and the operations that succeeded.
   */
  method PerformMove(fullSource: string, finalTarget: string, fs: FileSystem, success: string)
    returns (reply: Reply, performed: seq<FsOp>)
    ensures !fs.pathExists(Dirname(finalTarget)) && fs.fails(MakeDirs(Dirname(finalTarget))) ==>
      reply == ServerError && performed == []
    ensures fs.pathExists(Dirname(finalTarget)) ==>
      performed == (if fs.fails(Move(fullSource, finalTarget)) then [] else [Move(fullSource, finalTarget)])
    ensures !fs.pathExists(Dirname(finalTarget)) && !fs.fails(MakeDirs(Dirname(finalTarget))) ==>
      performed == [MakeDirs(Dirname(finalTarget))] + (if fs.fails(Move(fullSource, finalTarget)) then [] else [Move(fullSource, finalTarget)])
    ensures reply == if performed != [] && performed[|performed| - 1] == Move(fullSource, finalTarget) then Reply(200, Text(success)) else ServerError
    ensures forall i :: 0 <= i < |performed| ==> !fs.fails(performed[i])
    ensures forall i :: 0 <= i < |performed| && performed[i].Move? ==> performed[i].source == fullSource
    ensures |performed| <= 2
  {
    performed := [];
    var targetDir := Dirname(finalTarget);
    if !fs.pathExists(targetDir) {
      if fs.fails(MakeDirs(targetDir)) {
        return ServerError, [];
      }
      performed := performed + [MakeDirs(targetDir)];
    }
    if fs.fails(Move(fullSource, finalTarget)) {
      return ServerError, performed;
    }
    performed := performed + [Move(fullSource, finalTarget)];
    reply := Reply(200, Text(success));
  }

  // ---- delete and move on concrete requests ----

  /**
   * Deleting `/static_gallery/../output2/x.png` from the output directory `/comfy/output`, on
   * any file system where that URL resolves to the existing file `/comfy/output2/x.png` of the
   * sibling directory output2: as written the file is removed with a 200; as meant the
   * request is refused with a 403.
   */
  method DeleteFromSibling(fs: FileSystem, rev: Revision) returns (reply: Reply, removed: Option<string>)
    requires fs.normPath("/comfy/output/../output/../output2/x.png") == "/comfy/output2/x.png"
    requires fs.realPath("/comfy/output") == "/comfy/output"
    requires fs.pathExists("/comfy/output2/x.png") && !fs.fails(Remove("/comfy/output2/x.png"))
    ensures rev == AsWritten ==>
      reply == Reply(200, Text("Image deleted: " + "/static_gallery/../output2/x.png")) && removed == Some("/comfy/output2/x.png")
    ensures rev == Corrected ==> reply == Reply(403, Text("Access denied: File outside of output directory")) && removed == None
  {
    var url := "/static_gallery/../output2/x.png";
    assert StartsWith(url, StaticPrefix) && url[|StaticPrefix|..] == "../output2/x.png";
    JoinRelative("/comfy/output", "..");
    assert Join("/comfy/output", "..") == "/comfy/output/..";
    JoinRelative("/comfy/output/..", "output");
    assert Join("/comfy/output/..", "output") == "/comfy/output/../output";
    JoinRelative("/comfy/output/../output", "../output2/x.png");
    assert Join("/comfy/output/../output", "../output2/x.png") == "/comfy/output/../output/../output2/x.png";
    assert DeleteTarget("/comfy/output", url, fs) == "/comfy/output2/x.png";
    SiblingPassesPrefixCheck();
    var request := map["image_path" := PyStr(url)];
    assert GetField(request, "image_path") == PyStr(url);
    assert Truthy(PyStr(url));
    reply, removed := DeleteImage(Some(PyDict(request)), "/comfy/output", fs, rev);
  }

  /**
   * Moving with a body that names only the target: as written the logging concatenation
   * raises and the reply is a 500; as meant it is the 400 for a missing argument.
   */
  method MoveWithoutSource(outputDir: string, comfyPath: string, fs: FileSystem, rev: Revision)
    returns (reply: Reply, performed: seq<FsOp>)
    ensures rev == AsWritten ==> reply == ServerError && performed == []
    ensures rev == Corrected ==>
      reply == Reply(400, Text("source_path and target_path are required")) && performed == []
  {
    MissingSourceAnswered500();
    reply, performed := MoveImage(Some(PyDict(map["target_path" := PyStr("a.png")])), outputDir, comfyPath, fs, rev);
  }
}

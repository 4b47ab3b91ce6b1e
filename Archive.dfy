/** The server's store (main.py): the directory tree below the service
    account's home directory, where the archive root `collected_data`
    holds one folder per machine and one file per report. Paths are
    resolved as POSIX resolves them, name by name, so that the names "",
    "." and ".." that survive `basename` lead where they lead on a real
    system. */
module Archive {
  import opened Options
  import opened Text
  import opened Tree
  import opened Json

  /** The archive root's name in the home directory (main.py:7-8). */
  const RootName := "collected_data"

  /** A place a path leads to: a place below the home directory, given by
      the names that lead there from it, or the home directory's parent,
      whose contents the model does not hold. */
  datatype Loc = Beyond | At(path: seq<string>)

  /** Names a directory can hold: not empty, not "." or "..", and free of
      '/' and NUL. */
  predicate Ordinary(name: string) {
    name != "" && name != "." && name != ".." && '/' !in name && '\0' !in name
  }

  predicate IsDirLoc(home: map<string, Node>, loc: Loc) {
    loc.Beyond? || IsDirAt(home, loc.path)
  }

  /** Where the path component `name` leads from the directory at `at`;
      None when the path does not resolve, because `at` is no directory
      (ENOENT, ENOTDIR) or the name holds a NUL character (ValueError). An
      empty name, the trailing slash of a joined path or a doubled
      separator inside one, stays where it is, as "." does. */
  function Step(home: map<string, Node>, at: seq<string>, name: string): (r: Option<Loc>)
    requires '/' !in name
    ensures r.Some? <==> IsDirAt(home, at) && '\0' !in name
    ensures r.Some? && r.value.Beyond? ==> at == [] && name == ".."
    ensures r.Some? && Ordinary(name) ==> r.value == At(at + [name])
  {
    if !IsDirAt(home, at) || '\0' in name then None
    else if name == "" || name == "." then Some(At(at))
    else if name == ".." then Some(if at == [] then Beyond else At(Parent(at)))
    else Some(At(at + [name]))
  }

  /** A step that does not end in a directory is an ordinary name added
      to the path. */
  lemma StepToNonDir(home: map<string, Node>, at: seq<string>, name: string)
    requires '/' !in name
    requires Step(home, at, name).Some? && !IsDirLoc(home, Step(home, at, name).value)
    ensures Ordinary(name) && Step(home, at, name) == Some(At(at + [name]))
  {
    if name == ".." && at != [] {
      DirAncestors(home, at, Parent(at));
    }
  }

  // ------------------------------------------------------------- ingest

  /** Why an upload failed, in place of the exception's message. */
  datatype Cause =
      /** The body is no JSON object, so subscripting it raises. */
    | NotAnObject
      /** `KeyError`: the object lacks the key. */
    | MissingKey(key: string)
      /** `TypeError`: the value under the key is not a string. */
    | NotText(key: string)
      /** `FileExistsError`: a file bears a directory's name. */
    | NameClash
      /** `IsADirectoryError`: the file to write is a directory. */
    | IsADirectory
      /** `ValueError`: a name holds a NUL character. */
    | EmbeddedNul

  /** The answer to an upload: status 200 or status 500 with the cause. */
  datatype Response = Success | Error(cause: Cause)

  datatype Ingestion = Ingestion(home: map<string, Node>, response: Response)

  /** The archive root made when it is not a directory (main.py:19-20);
      None when a file bears its name. */
  function RootMade(home: map<string, Node>): (r: Option<map<string, Node>>)
    ensures r.Some? ==> IsDirAt(r.value, [RootName])
  {
    if IsDirAt(home, [RootName]) then Some(home)
    else if IsFileAt(home, [RootName]) then None
    else Some(Put(home, [RootName], Dir(map[])))
  }

  /** Where the machine folder is and the tree once it exists
      (main.py:22-24), or why it could not be made. */
  datatype Target = Made(home: map<string, Node>, dir: seq<string>) | Failed(cause: Cause)

  function TargetMade(home: map<string, Node>, folder: string): (r: Target)
    requires IsDirAt(home, [RootName]) && '/' !in folder
    ensures r.Made? ==> IsDirAt(r.home, r.dir) && IsDirAt(r.home, [RootName])
  {
    var t := Step(home, [RootName], folder);
    if t.None? then Failed(EmbeddedNul)
    else if IsDirAt(home, t.value.path) then Made(home, t.value.path)
    else
      StepToNonDir(home, [RootName], folder);
      if NodeAt(home, t.value.path).Some? then Failed(NameClash)
      else
        PutThenGet(home, t.value.path, Dir(map[]));
        PutKeepsDirs(home, t.value.path, Dir(map[]), [RootName]);
        Made(Put(home, t.value.path, Dir(map[])), t.value.path)
  }

  /** `open(dir/file, "w")` and the write of the `content` field, absent
      when None (main.py:26-30). Opening truncates the file, or creates
      it empty, before the content is looked at. */
  function FileWritten(home: map<string, Node>, dir: seq<string>, file: string, content: Option<Value>): (r: Ingestion)
    requires IsDirAt(home, dir) && '/' !in file
    ensures r.response.Success? ==> content.Some? && content.value.Str?
  {
    var d := Step(home, dir, file);
    if d.None? then Ingestion(home, Error(EmbeddedNul))
    else if IsDirLoc(home, d.value) then Ingestion(home, Error(IsADirectory))
    else
      StepToNonDir(home, dir, file);
      var p := dir + [file];
      assert Parent(p) == dir;
      match content
      case None => Ingestion(Put(home, p, File("")), Error(MissingKey("content")))
      case Some(Str(s)) => Ingestion(Put(home, p, File(s)), Success)
      case Some(Other(_, _)) => Ingestion(Put(home, p, File("")), Error(NotText("content")))
  }

  /** The upload once the two names are reduced to their basenames and
      the content field looked up (main.py:19-30). */
  function Stored(home: map<string, Node>, folder: string, file: string, content: Option<Value>): (r: Ingestion)
    requires '/' !in folder && '/' !in file
    ensures r.response.Success? ==> content.Some? && content.value.Str?
  {
    var root := RootMade(home);
    if root.None? then Ingestion(home, Error(NameClash))
    else
      var target := TargetMade(root.value, folder);
      if target.Failed? then Ingestion(root.value, Error(target.cause))
      else FileWritten(target.home, target.dir, file, content)
  }

  /** `collect_data` (main.py:12-33) on the home directory `home` and the
      decoded body `request` (None when it is no JSON object). */
  function Ingested(home: map<string, Node>, request: Option<map<string, Value>>): (r: Ingestion)
    ensures r.response.Success? ==>
      && request.Some?
      && "folder_name" in request.value && request.value["folder_name"].Str?
      && "file_name" in request.value && request.value["file_name"].Str?
      && "content" in request.value && request.value["content"].Str?
  {
    if request.None? then Ingestion(home, Error(NotAnObject))
    else
      var info := request.value;
      if "folder_name" !in info then Ingestion(home, Error(MissingKey("folder_name")))
      else if !info["folder_name"].Str? then Ingestion(home, Error(NotText("folder_name")))
      else if "file_name" !in info then Ingestion(home, Error(MissingKey("file_name")))
      else if !info["file_name"].Str? then Ingestion(home, Error(NotText("file_name")))
      else
        Stored(home, Basename(info["folder_name"].s), Basename(info["file_name"].s),
          if "content" in info then Some(info["content"]) else None)
  }

  /** A request carrying the three fields as strings. */
  function Upload(folder: string, file: string, content: string): map<string, Value> {
    map["folder_name" := Str(folder), "file_name" := Str(file), "content" := Str(content)]
  }

  // ------------------------------------------------------------- browse

  datatype Page<T> = NotFound | Found(value: T)

  /** `list_computers` (main.py:37-42): the sub-directories of the archive
      root in sorted order, none when the root is no directory. An entry
      name is ordinary, so joining it to the root names that entry. */
  function ListComputers(home: map<string, Node>): (r: seq<string>)
    ensures StrictlySorted(r)
    ensures !IsDirAt(home, [RootName]) ==> r == []
  {
    if !IsDirAt(home, [RootName]) then []
    else
      var root := NodeAt(home, [RootName]).value.entries;
      SortedNames(set d | d in root && root[d].Dir?)
  }

  /** The regular files of the folder `name` leads to from the root, in
      sorted order. */
  function FolderPage(home: map<string, Node>, name: string): (r: Page<seq<string>>)
    requires '/' !in name
    ensures r.Found? ==> StrictlySorted(r.value)
    ensures !IsDirAt(home, [RootName]) ==> r.NotFound?
  {
    var c := Step(home, [RootName], name);
    if c.None? || !IsDirAt(home, c.value.path) then NotFound
    else
      var files := NodeAt(home, c.value.path).value.entries;
      Found(SortedNames(set f | f in files && files[f].File?))
  }

  /** `view_computer` (main.py:45-54). */
  function ViewComputer(home: map<string, Node>, computer: string): (r: Page<seq<string>>)
    ensures r.Found? ==> StrictlySorted(r.value)
    ensures !IsDirAt(home, [RootName]) ==> r.NotFound?
  {
    FolderPage(home, Basename(computer))
  }

  /** The text of the regular file the names `folder` and `file` lead to
      from the root, as text mode reads it back. */
  function FilePage(home: map<string, Node>, folder: string, file: string): (r: Page<string>)
    requires '/' !in folder && '/' !in file
    ensures r.Found? ==> '\r' !in r.value
    ensures !IsDirAt(home, [RootName]) ==> r.NotFound?
  {
    var c := Step(home, [RootName], folder);
    if c.None? then NotFound
    else
      var f := Step(home, c.value.path, file);
      if f.Some? && f.value.At? && IsFileAt(home, f.value.path)
      then Found(ReadText(NodeAt(home, f.value.path).value.content))
      else NotFound
  }

  /** `view_file` (main.py:57-71). */
  function ViewFile(home: map<string, Node>, computer: string, file: string): (r: Page<string>)
    ensures r.Found? ==> '\r' !in r.value
    ensures !IsDirAt(home, [RootName]) ==> r.NotFound?
  {
    FilePage(home, Basename(computer), Basename(file))
  }

  // ------------------------------------------------------------- properties

  /** A step reads the tree only through whether it starts at a
      directory. */
  lemma StepSameDir(h: map<string, Node>, h': map<string, Node>, at: seq<string>, name: string)
    requires '/' !in name && IsDirAt(h, at) == IsDirAt(h', at)
    ensures Step(h, at, name) == Step(h', at, name)
  {
  }

  /** Making the archive root changes nothing outside it. */
  lemma RootMadeFrame(home: map<string, Node>, q: seq<string>)
    requires RootMade(home).Some? && !(q <= [RootName])
    ensures NodeAt(RootMade(home).value, q) == NodeAt(home, q)
  {
    if !IsDirAt(home, [RootName]) {
      MakeDirFrame(home, [RootName], q);
    }
  }

  /** For an ordinary folder name the target is the folder of that name in
      the root; it fails exactly when a file bears the name, and making it
      changes no path but those leading to it. */
  lemma TargetOrdinary(h: map<string, Node>, folder: string, q: seq<string>)
    requires IsDirAt(h, [RootName]) && Ordinary(folder)
    ensures TargetMade(h, folder).Failed? <==> IsFileAt(h, [RootName, folder])
    ensures TargetMade(h, folder).Made? ==> TargetMade(h, folder).dir == [RootName, folder]
    ensures TargetMade(h, folder).Made? && !(q <= [RootName, folder]) ==>
      NodeAt(TargetMade(h, folder).home, q) == NodeAt(h, q)
  {
    assert [RootName] + [folder] == [RootName, folder];
    if TargetMade(h, folder).Made? && !IsDirAt(h, [RootName, folder]) && !(q <= [RootName, folder]) {
      MakeDirFrame(h, [RootName, folder], q);
    }
  }

  /** For an ordinary file name in a directory, the write succeeds exactly
      when no directory bears the name and the content is text, and leaves
      the file holding it; whatever happens, no path but those leading to
      the file or below it changes. */
  lemma WrittenOrdinary(h: map<string, Node>, dir: seq<string>, file: string, content: Option<Value>, q: seq<string>)
    requires IsDirAt(h, dir) && Ordinary(file)
    ensures var r := FileWritten(h, dir, file, content);
      && (r.response.Success? <==> !IsDirAt(h, dir + [file]) && content.Some? && content.value.Str?)
      && (r.response.Success? ==> NodeAt(r.home, dir + [file]) == Some(File(content.value.s)))
      && (!(q <= dir + [file]) && !(dir + [file] <= q) ==> NodeAt(r.home, q) == NodeAt(h, q))
  {
    var p := dir + [file];
    if !IsDirAt(h, p) {
      assert Parent(p) == dir;
      if content.Some? && content.value.Str? {
        PutThenGet(h, p, File(content.value.s));
        if !(q <= p) && !(p <= q) {
          PutFrame(h, p, File(content.value.s), q);
        }
      } else if !(q <= p) && !(p <= q) {
        PutFrame(h, p, File(""), q);
      }
    }
  }

  /** An upload with ordinary names succeeds exactly when no file bears the
      root's or the folder's name, no directory the file's, and the content
      is text; the file then holds the content; and whatever happens, no
      path but those leading to the file or below it changes. */
  lemma StoredOrdinary(home: map<string, Node>, folder: string, file: string, content: Option<Value>, q: seq<string>)
    requires Ordinary(folder) && Ordinary(file)
    ensures var r := Stored(home, folder, file, content);
      var p := [RootName, folder, file];
      && (r.response.Success? <==>
           && !IsFileAt(home, [RootName])
           && !IsFileAt(home, [RootName, folder])
           && !IsDirAt(home, p)
           && content.Some? && content.value.Str?)
      && (r.response.Success? ==> NodeAt(r.home, p) == Some(File(content.value.s)))
      && (!(q <= p) && !(p <= q) ==> NodeAt(r.home, q) == NodeAt(home, q))
  {
    var p := [RootName, folder, file];
    var root := RootMade(home);
    if root.Some? {
      var h1 := root.value;
      RootMadeFrame(home, [RootName, folder]);
      RootMadeFrame(home, p);
      if !(q <= p) && !(p <= q) {
        assert !(q <= [RootName]);
        RootMadeFrame(home, q);
      }
      TargetOrdinary(h1, folder, p);
      TargetOrdinary(h1, folder, q);
      var target := TargetMade(h1, folder);
      if target.Made? {
        assert [RootName, folder] + [file] == p;
        WrittenOrdinary(target.home, [RootName, folder], file, content, q);
      }
    }
  }

  /** An upload that succeeded, whatever its names, left a file that the
      same two names lead to from the root, holding the content. */
  lemma StoredReadBack(home: map<string, Node>, folder: string, file: string, content: Option<Value>)
    requires '/' !in folder && '/' !in file
    requires Stored(home, folder, file, content).response.Success?
    ensures content.Some? && content.value.Str?
    ensures FilePage(Stored(home, folder, file, content).home, folder, file) == Found(ReadText(content.value.s))
    ensures var h := Stored(home, folder, file, content).home;
      var c := Step(h, [RootName], folder);
      && c.Some? && c.value.At?
      && var f := Step(h, c.value.path, file);
      && f.Some? && f.value.At? && NodeAt(h, f.value.path) == Some(File(content.value.s))
  {
    var h1 := RootMade(home).value;
    var target := TargetMade(h1, folder);
    var h2, dir := target.home, target.dir;
    StepToNonDir(h2, dir, file);
    var p := dir + [file];
    assert Parent(p) == dir;
    var s := content.value.s;
    var last := Put(h2, p, File(s));
    assert Stored(home, folder, file, content).home == last;
    PutKeepsDirs(h2, p, File(s), [RootName]);
    PutKeepsDirs(h2, p, File(s), dir);
    StepSameDir(last, h1, [RootName], folder);
    assert Step(h1, [RootName], folder) == Some(At(dir));
    assert Step(last, dir, file) == Some(At(p));
    PutThenGet(h2, p, File(s));
  }

  /** An upload carrying the three fields as text is stored under the
      names' basenames. */
  lemma IngestUpload(home: map<string, Node>, folder: string, file: string, content: string)
    ensures Ingested(home, Some(Upload(folder, file, content)))
         == Stored(home, Basename(folder), Basename(file), Some(Str(content)))
  {
    var info := Upload(folder, file, content);
    assert info["folder_name"] == Str(folder) && info["file_name"] == Str(file) && info["content"] == Str(content);
  }

  /** Whatever names an upload carries, once it succeeded `view_file` with
      the same two names reads its content back (line ends as text mode
      reads them). */
  lemma IngestReadBack(home: map<string, Node>, info: map<string, Value>)
    requires Ingested(home, Some(info)).response.Success?
    ensures "folder_name" in info && info["folder_name"].Str?
    ensures "file_name" in info && info["file_name"].Str?
    ensures "content" in info && info["content"].Str?
    ensures ViewFile(Ingested(home, Some(info)).home, info["folder_name"].s, info["file_name"].s)
         == Found(ReadText(info["content"].s))
  {
    var folder := Basename(info["folder_name"].s);
    var file := Basename(info["file_name"].s);
    var content := if "content" in info then Some(info["content"]) else None;
    StoredReadBack(home, folder, file, content);
  }

  /** An upload with ordinary names and text content succeeds exactly when
      no file bears the root's or the folder's name and no directory the
      file's; the file then holds the content, whether or not it existed
      before. */
  lemma IngestSucceeds(home: map<string, Node>, folder: string, file: string, content: string)
    requires Ordinary(folder) && Ordinary(file)
    ensures var r := Ingested(home, Some(Upload(folder, file, content)));
      && (r.response.Success? <==>
           && !IsFileAt(home, [RootName])
           && !IsFileAt(home, [RootName, folder])
           && !IsDirAt(home, [RootName, folder, file]))
      && (r.response.Success? ==> NodeAt(r.home, [RootName, folder, file]) == Some(File(content)))
  {
    IngestUpload(home, folder, file, content);
    BasenameOfName(folder);
    BasenameOfName(file);
    StoredOrdinary(home, folder, file, Some(Str(content)), []);
  }

  /** Whatever an upload with ordinary names does, success or failure,
      every path other than those leading to its file or below it reads as
      before: other machines' folders and the folder's other files are
      untouched, and the root and the folder are only made when absent. */
  lemma IngestFrame(home: map<string, Node>, info: map<string, Value>, q: seq<string>)
    requires "folder_name" in info && info["folder_name"].Str? && Ordinary(Basename(info["folder_name"].s))
    requires "file_name" in info && info["file_name"].Str? && Ordinary(Basename(info["file_name"].s))
    requires var p := [RootName, Basename(info["folder_name"].s), Basename(info["file_name"].s)];
      !(q <= p) && !(p <= q)
    ensures NodeAt(Ingested(home, Some(info)).home, q) == NodeAt(home, q)
  {
    var content := if "content" in info then Some(info["content"]) else None;
    StoredOrdinary(home, Basename(info["folder_name"].s), Basename(info["file_name"].s), content, q);
  }

  /** An upload with ordinary names never touches anything outside the
      archive root. */
  lemma IngestContained(home: map<string, Node>, info: map<string, Value>, q: seq<string>)
    requires "folder_name" in info && info["folder_name"].Str? && Ordinary(Basename(info["folder_name"].s))
    requires "file_name" in info && info["file_name"].Str? && Ordinary(Basename(info["file_name"].s))
    requires q != [] && q[0] != RootName
    ensures NodeAt(Ingested(home, Some(info)).home, q) == NodeAt(home, q)
  {
    IngestFrame(home, info, q);
  }

  /** With ".." for the folder, the target is the home directory itself:
      the file lands beside the archive root. */
  lemma StoredEscapes(home: map<string, Node>, file: string, content: string)
    requires Ordinary(file) && file != RootName
    requires !IsFileAt(home, [RootName]) && !IsDirAt(home, [file])
    ensures var r := Stored(home, "..", file, Some(Str(content)));
      r.response == Success && NodeAt(r.home, [file]) == Some(File(content))
  {
    var h1 := RootMade(home).value;
    RootMadeFrame(home, [file]);
    assert TargetMade(h1, "..") == Made(h1, []);
    assert [] + [file] == [file] && IsDirAt(h1, []);
    assert Step(h1, [], file) == Some(At([file]));
    assert Parent([file]) == [];
    PutThenGet(h1, [file], File(content));
  }

  /** `basename` keeps "..": a folder name ending in ".." puts the file in
      the home directory itself, beside the archive root instead of inside
      it. */
  lemma IngestEscapes(home: map<string, Node>, folder: string, file: string, content: string)
    requires Basename(folder) == ".." && Ordinary(file) && file != RootName
    requires !IsFileAt(home, [RootName]) && !IsDirAt(home, [file])
    ensures var r := Ingested(home, Some(Upload(folder, file, content)));
      && r.response == Success
      && NodeAt(r.home, [file]) == Some(File(content))
      && !([RootName] <= [file])
  {
    IngestUpload(home, folder, file, content);
    BasenameOfName(file);
    StoredEscapes(home, file, content);
  }

  /** The folder ".." of the archive root is the home directory. */
  lemma FolderPageParent(home: map<string, Node>)
    requires IsDirAt(home, [RootName])
    ensures FolderPage(home, "..") == Found(SortedNames(set f | f in home && home[f].File?))
  {
    var c := Step(home, [RootName], "..");
    assert c == Some(At([]));
    assert NodeAt(home, []) == Some(Dir(home));
  }

  /** `basename` keeps "..": a machine name ending in ".." shows the
      regular files of the home directory itself, outside the archive
      root. */
  lemma ViewComputerEscapes(home: map<string, Node>, computer: string)
    requires Basename(computer) == ".." && IsDirAt(home, [RootName])
    ensures ViewComputer(home, computer) == Found(SortedNames(set f | f in home && home[f].File?))
  {
    FolderPageParent(home);
  }

  /** A file under the folder ".." of the archive root is a file of the
      home directory. */
  lemma FilePageParent(home: map<string, Node>, file: string)
    requires Ordinary(file) && IsDirAt(home, [RootName])
    ensures FilePage(home, "..", file) ==
      if file in home && home[file].File? then Found(ReadText(home[file].content)) else NotFound
  {
    assert Step(home, [RootName], "..") == Some(At([]));
    assert [] + [file] == [file];
    assert Step(home, [], file) == Some(At([file]));
  }

  /** With a machine name ending in "..", `view_file` reads the home
      directory's own files, beside the archive root. */
  lemma ViewFileEscapes(home: map<string, Node>, computer: string, file: string)
    requires Basename(computer) == ".." && Ordinary(file) && IsDirAt(home, [RootName])
    ensures ViewFile(home, computer, file) ==
      if file in home && home[file].File? then Found(ReadText(home[file].content)) else NotFound
  {
    BasenameOfName(file);
    FilePageParent(home, file);
  }

  /** Without content, an upload with ordinary names that gets as far as
      opening its file leaves that file empty. */
  lemma StoredTruncates(home: map<string, Node>, folder: string, file: string)
    requires Ordinary(folder) && Ordinary(file)
    requires !IsFileAt(home, [RootName]) && !IsFileAt(home, [RootName, folder])
    requires !IsDirAt(home, [RootName, folder, file])
    ensures var r := Stored(home, folder, file, None);
      r.response == Error(MissingKey("content")) && NodeAt(r.home, [RootName, folder, file]) == Some(File(""))
  {
    var p := [RootName, folder, file];
    var h1 := RootMade(home).value;
    RootMadeFrame(home, [RootName, folder]);
    RootMadeFrame(home, p);
    TargetOrdinary(h1, folder, p);
    var h2 := TargetMade(h1, folder).home;
    assert [RootName, folder] + [file] == p;
    assert Step(h2, [RootName, folder], file) == Some(At(p));
    assert Parent(p) == [RootName, folder];
    PutThenGet(h2, p, File(""));
  }

  /** A missing `content` field fails the upload only after the file was
      opened for writing: the file now exists and is empty, so a failed
      upload can still change the store. */
  lemma MissingContentTruncates(home: map<string, Node>, folder: string, file: string)
    requires Ordinary(folder) && Ordinary(file)
    requires !IsFileAt(home, [RootName]) && !IsFileAt(home, [RootName, folder])
    requires !IsDirAt(home, [RootName, folder, file])
    ensures var r := Ingested(home, Some(map["folder_name" := Str(folder), "file_name" := Str(file)]));
      && r.response == Error(MissingKey("content"))
      && NodeAt(r.home, [RootName, folder, file]) == Some(File(""))
  {
    var info := map["folder_name" := Str(folder), "file_name" := Str(file)];
    assert "content" !in info && info["folder_name"] == Str(folder) && info["file_name"] == Str(file);
    BasenameOfName(folder);
    BasenameOfName(file);
    StoredTruncates(home, folder, file);
  }

  /** The machines listed are exactly the sub-directories of the root, in
      strictly increasing order; none when the root is missing or a file. */
  lemma ListComputersExact(home: map<string, Node>)
    ensures StrictlySorted(ListComputers(home))
    ensures forall x :: x in ListComputers(home) <==> IsDirAt(home, [RootName, x])
    ensures !IsDirAt(home, [RootName]) ==> ListComputers(home) == []
  {
    forall x
      ensures x in ListComputers(home) <==> IsDirAt(home, [RootName, x])
    {
      NodeAtSplit(home, [RootName], [x]);
    }
  }

  /** For an ordinary name, a folder's page is missing exactly when the
      folder is no directory; otherwise it lists, in strictly increasing
      order, exactly the folder's regular files and no sub-directory. */
  lemma FolderPageOrdinary(home: map<string, Node>, name: string)
    requires Ordinary(name)
    ensures var page := FolderPage(home, name);
      && (page.NotFound? <==> !IsDirAt(home, [RootName, name]))
      && (page.Found? ==>
           && StrictlySorted(page.value)
           && forall f :: f in page.value <==> IsFileAt(home, [RootName, name, f]))
  {
    var p := [RootName, name];
    if IsDirAt(home, p) {
      DirAncestors(home, p, [RootName]);
      assert [RootName] + [name] == p;
      var files := NodeAt(home, p).value.entries;
      forall f
        ensures f in files && files[f].File? <==> IsFileAt(home, [RootName, name, f])
      {
        assert p + [f] == [RootName, name, f];
        NodeAtSplit(home, p, [f]);
      }
    } else if IsDirAt(home, [RootName]) {
      assert [RootName] + [name] == p;
    }
  }

  /** For an ordinary name, a machine's page is missing exactly when its
      folder is no directory; otherwise it lists, in strictly increasing
      order, exactly the folder's regular files and no sub-directory. */
  lemma ViewComputerExact(home: map<string, Node>, computer: string)
    requires Ordinary(computer)
    ensures var page := ViewComputer(home, computer);
      && (page.NotFound? <==> !IsDirAt(home, [RootName, computer]))
      && (page.Found? ==>
           && StrictlySorted(page.value)
           && forall f :: f in page.value <==> IsFileAt(home, [RootName, computer, f]))
  {
    BasenameOfName(computer);
    FolderPageOrdinary(home, computer);
  }

  /** For ordinary names, a file's page is missing exactly when the path
      is no regular file; otherwise it shows the stored text as text mode
      reads it back. */
  lemma FilePageOrdinary(home: map<string, Node>, folder: string, file: string)
    requires Ordinary(folder) && Ordinary(file)
    ensures var page := FilePage(home, folder, file);
      && (page.NotFound? <==> !IsFileAt(home, [RootName, folder, file]))
      && (page.Found? ==> page.value == ReadText(NodeAt(home, [RootName, folder, file]).value.content))
  {
    var d := [RootName, folder];
    var p := [RootName, folder, file];
    if IsDirAt(home, [RootName]) {
      assert [RootName] + [folder] == d;
      if IsDirAt(home, d) {
        assert d + [file] == p;
      } else {
        assert d + [file] == p;
        NodeAtSplit(home, d, [file]);
      }
    } else {
      assert [RootName] + [folder, file] == p;
      NodeAtSplit(home, [RootName], [folder, file]);
    }
  }

  /** For ordinary names, a file's page is missing exactly when the path
      is no regular file; otherwise it shows the stored text as text mode
      reads it back. */
  lemma ViewFileExact(home: map<string, Node>, computer: string, file: string)
    requires Ordinary(computer) && Ordinary(file)
    ensures var page := ViewFile(home, computer, file);
      && (page.NotFound? <==> !IsFileAt(home, [RootName, computer, file]))
      && (page.Found? ==> page.value == ReadText(NodeAt(home, [RootName, computer, file]).value.content))
  {
    BasenameOfName(computer);
    BasenameOfName(file);
    FilePageOrdinary(home, computer, file);
  }

  /** A file stored under ordinary names shows on both listing pages. */
  lemma StoredThenListed(home: map<string, Node>, folder: string, file: string, content: string)
    requires Ordinary(folder) && Ordinary(file)
    requires Stored(home, folder, file, Some(Str(content))).response.Success?
    ensures var after := Stored(home, folder, file, Some(Str(content))).home;
      && folder in ListComputers(after)
      && ViewComputer(after, folder).Found? && file in ViewComputer(after, folder).value
  {
    var after := Stored(home, folder, file, Some(Str(content))).home;
    var p := [RootName, folder, file];
    StoredOrdinary(home, folder, file, Some(Str(content)), []);
    assert IsFileAt(after, p);
    assert [RootName, folder] + [file] == p;
    NodeAtSplit(after, [RootName, folder], [file]);
    assert IsDirAt(after, [RootName, folder]);
    ListComputersExact(after);
    ViewComputerExact(after, folder);
  }

  /** After a successful upload with ordinary names the machine is
      listed and its page lists the file. */
  lemma IngestThenListed(home: map<string, Node>, folder: string, file: string, content: string)
    requires Ordinary(folder) && Ordinary(file)
    requires Ingested(home, Some(Upload(folder, file, content))).response.Success?
    ensures var after := Ingested(home, Some(Upload(folder, file, content))).home;
      && folder in ListComputers(after)
      && ViewComputer(after, folder).Found? && file in ViewComputer(after, folder).value
  {
    IngestUpload(home, folder, file, content);
    BasenameOfName(folder);
    BasenameOfName(file);
    StoredThenListed(home, folder, file, content);
  }

  /** The store of the web service: the home directory's entries. */
  class Store {
    var home: map<string, Node>

    constructor(home: map<string, Node>)
      ensures this.home == home
    {
      this.home := home;
    }

    /** `os.makedirs(DATA_DIR)` when DATA_DIR is no directory; false when
        it raised. */
    method MakeRoot() returns (ok: bool)
      modifies this
      ensures ok == RootMade(old(home)).Some?
      ensures home == if ok then RootMade(old(home)).value else old(home)
    {
      if RootName in home && home[RootName].Dir? {
        return true;
      }
      if RootName in home {
        return false;
      }
      home := home[RootName := Dir(map[])];
      ok := true;
    }

    /** `os.makedirs(target_dir)` when target_dir is no directory; the
        target directory's path, or why making it raised. */
    method MakeTarget(folder: string) returns (target: Target)
      requires IsDirAt(home, [RootName]) && '/' !in folder
      modifies this
      ensures target == TargetMade(old(home), folder)
      ensures home == if target.Made? then target.home else old(home)
    {
      var t := Step(home, [RootName], folder);
      if t.None? {
        return Failed(EmbeddedNul);
      }
      var dir := t.value.path;
      if IsDirAt(home, dir) {
        return Made(home, dir);
      }
      if NodeAt(home, dir).Some? {
        return Failed(NameClash);
      }
      StepToNonDir(home, [RootName], folder);
      home := Put(home, dir, Dir(map[]));
      target := Made(home, dir);
    }

    /** `open(dir/file, "w")` followed by the write of `content`. */
    method WriteFile(dir: seq<string>, file: string, content: Option<Value>) returns (response: Response)
      requires IsDirAt(home, dir) && '/' !in file
      modifies this
      ensures Ingestion(home, response) == FileWritten(old(home), dir, file, content)
    {
      var d := Step(home, dir, file);
      if d.None? {
        return Error(EmbeddedNul);
      }
      if IsDirLoc(home, d.value) {
        return Error(IsADirectory);
      }
      StepToNonDir(home, dir, file);
      var p := dir + [file];
      assert Parent(p) == dir;
      home := Put(home, p, File(""));
      match content {
        case None =>
          response := Error(MissingKey("content"));
        case Some(v) =>
          if v.Str? {
            assert Put(home, p, File(v.s)) == Put(old(home), p, File(v.s)) by {
              PutTwice(old(home), p, File(""), File(v.s));
            }
            home := Put(home, p, File(v.s));
            response := Success;
          } else {
            response := Error(NotText("content"));
          }
      }
    }

    /** `collect_data` (main.py:12-33): every exception becomes an error
        response; the steps taken before it stay done. */
    method Ingest(request: Option<map<string, Value>>) returns (response: Response)
      modifies this
      ensures Ingestion(home, response) == Ingested(old(home), request)
    {
      if request.None? {
        return Error(NotAnObject);
      }
      var info := request.value;
      if "folder_name" !in info {
        return Error(MissingKey("folder_name"));
      }
      if !info["folder_name"].Str? {
        return Error(NotText("folder_name"));
      }
      var folder := Basename(info["folder_name"].s);
      if "file_name" !in info {
        return Error(MissingKey("file_name"));
      }
      if !info["file_name"].Str? {
        return Error(NotText("file_name"));
      }
      var file := Basename(info["file_name"].s);
      var content := if "content" in info then Some(info["content"]) else None;

      var rooted := MakeRoot();
      if !rooted {
        return Error(NameClash);
      }
      var target := MakeTarget(folder);
      if target.Failed? {
        return Error(target.cause);
      }
      response := WriteFile(target.dir, file, content);
    }
  }
}

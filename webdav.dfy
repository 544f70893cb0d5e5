/** The virtual file system the WebDAV daemon serves over the metadata store
    (the `DavFileSystem` implementation): paths are resolved folder by folder
    through the live listings, and each WebDAV method becomes one store update.
    A path is the sequence of its decoded components; the WebDAV server library
    parses and normalises request paths and maps `FsError` to HTTP statuses. */
module WebDav {
  import opened Common
  import opened Store

  /** The `dav_server` error kinds the daemon produces. */
  datatype FsError = NotFound | Forbidden | Exists | GeneralFailure

  /** Outcome of an operation that returns no value. */
  datatype FsStatus = Done | Failed(error: FsError)

  /** Result of `resolve_path`: the identifier (`None` for the root) and whether it
      denotes a directory. Its only error is `NotFound`, written `Unresolved`. */
  datatype Resolution = Resolved(id: Option<string>, isDir: bool) | Unresolved

  function FolderNamed(name: string): Folder -> bool
  {
    (f: Folder) => f.name == name
  }

  function FileNamed(name: string): FileMetadata -> bool
  {
    (f: FileMetadata) => f.name == name
  }

  // ---------------------------------------------------------------------------
  // Path resolution
  // ---------------------------------------------------------------------------

  /** One component looked up in the live listing of directory `cur`: a folder of
      that name first, then (for the last component) a file of that name. */
  function Step(folders: seq<Folder>, files: seq<FileMetadata>, cur: Option<string>, name: string): (r: Resolution)
    ensures r.Resolved? ==> r.id.Some?
  {
    var listing := ListContents(folders, files, cur);
    match Find(listing.0, FolderNamed(name))
    case Some(d) => Resolved(Some(d.id), true)
    case None =>
      match Find(listing.1, FileNamed(name))
      case Some(f) => Resolved(Some(f.id), false)
      case None => Unresolved
  }

  /** The folder search of a lookup succeeds exactly when a live subfolder of `cur`
      has the name, and what it finds is one. */
  lemma FolderLookup(folders: seq<Folder>, files: seq<FileMetadata>, cur: Option<string>, name: string)
    ensures Find(ListContents(folders, files, cur).0, FolderNamed(name)).Some? <==> NameTaken(folders, files, cur, name, true)
    ensures Find(ListContents(folders, files, cur).0, FolderNamed(name)).Some? ==>
      exists i :: 0 <= i < |folders| && folders[i] == Find(ListContents(folders, files, cur).0, FolderNamed(name)).value &&
        folders[i].name == name && FolderVisibleIn(cur)(folders[i])
  {
    FindFiltered(folders, FolderVisibleIn(cur), FolderNamed(name));
  }

  /** The same for the file search among the live files of `cur`. */
  lemma FileLookup(folders: seq<Folder>, files: seq<FileMetadata>, cur: Option<string>, name: string)
    ensures Find(ListContents(folders, files, cur).1, FileNamed(name)).Some? <==> NameTaken(folders, files, cur, name, false)
    ensures Find(ListContents(folders, files, cur).1, FileNamed(name)).Some? ==>
      exists i :: 0 <= i < |files| && files[i] == Find(ListContents(folders, files, cur).1, FileNamed(name)).value &&
        files[i].name == name && FileVisibleIn(cur)(files[i])
  {
    FindFiltered(files, FileVisibleIn(cur), FileNamed(name));
  }

  /** A live subfolder of that name wins over a live file of that name, and the
      folder found is one. */
  lemma StepFindsFolder(folders: seq<Folder>, files: seq<FileMetadata>, cur: Option<string>, name: string)
    ensures Step(folders, files, cur, name).Resolved? && Step(folders, files, cur, name).isDir
            <==> NameTaken(folders, files, cur, name, true)
    ensures Step(folders, files, cur, name).Resolved? && Step(folders, files, cur, name).isDir ==>
      exists i :: 0 <= i < |folders| && Some(folders[i].id) == Step(folders, files, cur, name).id &&
        folders[i].name == name && FolderVisibleIn(cur)(folders[i])
  {
    FolderLookup(folders, files, cur, name);
  }

  /** A file is found only when no live subfolder has the name, and it is a live
      file of that name. */
  lemma StepFindsFile(folders: seq<Folder>, files: seq<FileMetadata>, cur: Option<string>, name: string)
    ensures Step(folders, files, cur, name).Resolved? && !Step(folders, files, cur, name).isDir
            <==> !NameTaken(folders, files, cur, name, true) && NameTaken(folders, files, cur, name, false)
    ensures Step(folders, files, cur, name).Resolved? && !Step(folders, files, cur, name).isDir ==>
      exists i :: 0 <= i < |files| && Some(files[i].id) == Step(folders, files, cur, name).id &&
        files[i].name == name && FileVisibleIn(cur)(files[i])
  {
    FolderLookup(folders, files, cur, name);
    FileLookup(folders, files, cur, name);
  }

  /** Nothing is found exactly when the directory has no live entry of that name. */
  lemma StepFindsNothing(folders: seq<Folder>, files: seq<FileMetadata>, cur: Option<string>, name: string)
    ensures Step(folders, files, cur, name).Unresolved?
            <==> !NameTaken(folders, files, cur, name, true) && !NameTaken(folders, files, cur, name, false)
  {
    StepFindsFolder(folders, files, cur, name);
    StepFindsFile(folders, files, cur, name);
  }

  /** `resolve_path` as a left fold over the components: the empty path is the
      root; a longer path is its last component looked up in the directory its
      prefix resolves to, and nothing below a file or a missing entry resolves. */
  function ResolvePath(folders: seq<Folder>, files: seq<FileMetadata>, path: seq<string>): (r: Resolution)
    decreases |path|
  {
    if path == [] then Resolved(None, true)
    else
      match ResolvePath(folders, files, path[..|path| - 1])
      case Resolved(cur, true) => Step(folders, files, cur, path[|path| - 1])
      case _ => Unresolved
  }

  /** Only the empty path resolves to the root. */
  lemma {:induction false} ResolveRootOnly(folders: seq<Folder>, files: seq<FileMetadata>, path: seq<string>)
    ensures ResolvePath(folders, files, path).Resolved? && ResolvePath(folders, files, path).id.None?
            <==> path == []
  {
    if path != [] {
      var p := path[..|path| - 1];
      match ResolvePath(folders, files, p)
      case Resolved(cur, true) =>
      case _ =>
    }
  }

  /** Every proper prefix of a path that resolves is a directory: only the last
      component can name a file, and an unmatched component anywhere makes the
      whole path unresolvable. */
  lemma {:induction false} ResolvedPrefixIsDir(folders: seq<Folder>, files: seq<FileMetadata>, path: seq<string>, k: nat)
    requires ResolvePath(folders, files, path).Resolved?
    requires k < |path|
    ensures ResolvePath(folders, files, path[..k]).Resolved? && ResolvePath(folders, files, path[..k]).isDir
    decreases |path|
  {
    var p := path[..|path| - 1];
    assert ResolvePath(folders, files, p).Resolved? && ResolvePath(folders, files, p).isDir;
    if k < |p| {
      ResolvedPrefixIsDir(folders, files, p, k);
      assert p[..k] == path[..k];
    } else {
      assert p == path[..k];
    }
  }

  /** A resolved directory other than the root is a live folder carrying the last
      component as its name; a resolved file is a live file record of that name. */
  lemma ResolvedNamesEntry(folders: seq<Folder>, files: seq<FileMetadata>, path: seq<string>)
    requires ResolvePath(folders, files, path).Resolved? && path != []
    ensures var r := ResolvePath(folders, files, path);
      r.id.Some? &&
      (r.isDir ==> exists i :: 0 <= i < |folders| && folders[i].id == r.id.value &&
                                folders[i].name == path[|path| - 1] && !folders[i].trashed) &&
      (!r.isDir ==> exists i :: 0 <= i < |files| && files[i].id == r.id.value &&
                                 files[i].name == path[|path| - 1] && !files[i].trashed)
  {
    var cur := ResolvePath(folders, files, path[..|path| - 1]).id;
    StepFindsFolder(folders, files, cur, path[|path| - 1]);
    StepFindsFile(folders, files, cur, path[|path| - 1]);
  }

  /** Resolving one more component of a path, below the directory its first `i`
      components resolve to, is a single lookup. */
  lemma ResolveNext(folders: seq<Folder>, files: seq<FileMetadata>, path: seq<string>, i: nat, cur: Option<string>)
    requires i < |path| && ResolvePath(folders, files, path[..i]) == Resolved(cur, true)
    ensures ResolvePath(folders, files, path[..i + 1]) == Step(folders, files, cur, path[i])
  {
    assert path[..i + 1][..i] == path[..i];
  }

  lemma ResolveFull(path: seq<string>)
    ensures path[..|path|] == path
  {
  }

  /** A non-empty path below a resolved directory is the lookup of its last component there. */
  lemma ResolveLast(folders: seq<Folder>, files: seq<FileMetadata>, path: seq<string>, cur: Option<string>)
    requires path != [] && ResolvePath(folders, files, path[..|path| - 1]) == Resolved(cur, true)
    ensures ResolvePath(folders, files, path) == Step(folders, files, cur, path[|path| - 1])
  {
  }

  // ---------------------------------------------------------------------------
  // The file system
  // ---------------------------------------------------------------------------

  /** The flags of a WebDAV open request that the daemon looks at. */
  datatype OpenOptions = OpenOptions(write: bool, truncate: bool, create: bool, createNew: bool)

  /** What `open` hands back: a reader over an existing record, a writer that will
      record a new file `name` under `parentId` when flushed, or an error. */
  datatype Opened = Reader(meta: FileMetadata) | Writer(parentId: Option<string>, name: string) | OpenFailed(error: FsError)

  /** Whether the parent of `path`, rebuilt as text, parses again as a WebDAV path.
      A path of at most one component has the root "/" for parent, which always
      parses; for a longer path `reparses` is the outcome of parsing the rebuilt
      text. A parent that parses is taken to name the components before the last. */
  predicate ParentParses(path: seq<string>, reparses: bool)
  {
    |path| <= 1 || reparses
  }

  /** The decision `open` takes, before any temporary file or cache is touched;
      `parentParses` is read through `ParentParses`. */
  function Open(folders: seq<Folder>, files: seq<FileMetadata>, path: seq<string>, opts: OpenOptions,
                parentParses: bool): (r: Opened)
  {
    match ResolvePath(folders, files, path)
    case Resolved(Some(id), false) =>
      if opts.write then
        if opts.truncate || opts.create then
          (match GetFile(files, id)
           case Some(m) => Writer(m.folderId, path[|path| - 1])
           case None => OpenFailed(NotFound))
        else OpenFailed(Forbidden)
      else
        (match GetFile(files, id)
         case Some(m) => Reader(m)
         case None => OpenFailed(NotFound))
    case Resolved(_, true) => OpenFailed(Forbidden)
    case Resolved(None, false) => OpenFailed(NotFound)
    case Unresolved =>
      if opts.write && (opts.create || opts.createNew) then
        if !ParentParses(path, parentParses) then OpenFailed(GeneralFailure)
        else
        (match ResolvePath(folders, files, path[..|path| - 1])
         case Resolved(pid, true) => Writer(pid, path[|path| - 1])
         case _ => OpenFailed(NotFound))
      else OpenFailed(NotFound)
  }

  /** The outcomes of `open`, stated against the store: a reader returns the live
      record the path names; a writer targets the directory the file lives in (an
      overwrite) or the directory its parent path resolves to (a new file), under
      the last component; a directory, and an existing file opened for writing
      without truncate or create, are refused; a creation whose parent path does
      not parse again is a general failure; an unresolved path that yields none of
      these is not found, and `Exists` never comes back. */
  lemma OpenSpec(folders: seq<Folder>, files: seq<FileMetadata>, path: seq<string>, opts: OpenOptions,
                 parentParses: bool)
    requires UniqueFileIds(files)
    ensures var r := Open(folders, files, path, opts, parentParses);
      var res := ResolvePath(folders, files, path);
      (r.Reader? <==> res.Resolved? && !res.isDir && !opts.write) &&
      (r.Reader? ==> r.meta in files && !r.meta.trashed && r.meta.name == path[|path| - 1] &&
                     ResolvePath(folders, files, path[..|path| - 1]) == Resolved(r.meta.folderId, true)) &&
      (r.Writer? ==> path != [] && r.name == path[|path| - 1] &&
                     ResolvePath(folders, files, path[..|path| - 1]) == Resolved(r.parentId, true)) &&
      (r.Writer? <==> (res.Resolved? && !res.isDir && opts.write && (opts.truncate || opts.create)) ||
                      (res.Unresolved? && opts.write && (opts.create || opts.createNew) && ParentParses(path, parentParses) &&
                       ResolvePath(folders, files, path[..|path| - 1]).Resolved? &&
                       ResolvePath(folders, files, path[..|path| - 1]).isDir)) &&
      (r == OpenFailed(Forbidden) <==> (res.Resolved? && res.isDir) ||
                                       (res.Resolved? && opts.write && !opts.truncate && !opts.create)) &&
      (r == OpenFailed(GeneralFailure) <==> res.Unresolved? && opts.write && (opts.create || opts.createNew) && !ParentParses(path, parentParses)) &&
      (r == OpenFailed(NotFound) <==>
        (res.Unresolved? &&
         !(opts.write && (opts.create || opts.createNew) &&
           (!ParentParses(path, parentParses) ||
            (ResolvePath(folders, files, path[..|path| - 1]).Resolved? &&
             ResolvePath(folders, files, path[..|path| - 1]).isDir))))) &&
      r != OpenFailed(Exists)
  {
    var res := ResolvePath(folders, files, path);
    if path == [] {
      assert res == Resolved(None, true);
    } else {
      var parent := path[..|path| - 1];
      var name := path[|path| - 1];
      match res
      case Resolved(id, isDir) =>
        ResolvedPrefixIsDir(folders, files, path, |path| - 1);
        var cur := ResolvePath(folders, files, parent).id;
        StepFindsFile(folders, files, cur, name);
        if !isDir {
          var i :| 0 <= i < |files| && files[i].id == id.value && files[i].name == name && FileVisibleIn(cur)(files[i]);
          assert HasFile(files, id.value);
          var m := GetFile(files, id.value).value;
          assert m in files;
          SameIdSameFile(files, m, files[i]);
        }
      case Unresolved =>
    }
  }

  /** `PaperfoldFS`: the file system over a shared store. */
  class DavFs {
    const db: Database

    constructor (db: Database)
      ensures this.db == db
    {
      this.db := db;
    }

    /** `resolve_path`: walks the components from the root through the live listings. */
    method Resolve(path: seq<string>) returns (r: Resolution)
      ensures r == ResolvePath(db.folders, db.files, path)
    {
      if path == [] {
        return Resolved(None, true);
      }
      var folders, files := db.folders, db.files;
      var current: Option<string> := None;
      var i := 0;
      while true
        invariant 0 <= i < |path|
        invariant ResolvePath(folders, files, path[..i]) == Resolved(current, true)
        decreases |path| - i
      {
        var isLast := i == |path| - 1;
        var listing := ListContents(folders, files, current);
        ResolveNext(folders, files, path, i, current);
        var foundFolder := Find(listing.0, FolderNamed(path[i]));
        if foundFolder.Some? {
          current := Some(foundFolder.value.id);
          if isLast {
            ResolveFull(path);
            return Resolved(Some(foundFolder.value.id), true);
          }
          i := i + 1;
          continue;
        }
        if isLast {
          ResolveFull(path);
          var foundFile := Find(listing.1, FileNamed(path[i]));
          if foundFile.Some? {
            return Resolved(Some(foundFile.value.id), false);
          }
          return Unresolved;
        }
        // A component other than the last names no folder: nothing below it resolves.
        if ResolvePath(folders, files, path).Resolved? {
          ResolvedPrefixIsDir(folders, files, path, i + 1);
        }
        return Unresolved;
      }
    }

    /** `create_dir` (MKCOL, section 9.3 of RFC 4918): the parent path must resolve to
        a directory and the target must not resolve; then exactly one folder is
        created there, under the requested name itself. A parent path that does not
        parse again (`parentParses`, as for `Open`) is a general failure. */
    method CreateDir(path: seq<string>, id: string, now: int, parentParses: bool) returns (r: FsStatus)
      requires db.Valid() && !HasFolder(db.folders, id)
      modifies db
      ensures db.Valid() && db.files == old(db.files)
      ensures path == [] ==> r == Failed(Forbidden)
      ensures path != [] && !ParentParses(path, parentParses) ==> r == Failed(GeneralFailure)
      ensures path != [] && ParentParses(path, parentParses) && ResolvePath(old(db.folders), old(db.files), path[..|path| - 1]).Resolved? &&
              ResolvePath(old(db.folders), old(db.files), path[..|path| - 1]).isDir ==>
        if ResolvePath(old(db.folders), old(db.files), path).Resolved? then r == Failed(Exists)
        else
          r == Done && db.folders == old(db.folders) +
            [NewFolder(id, ResolvePath(old(db.folders), old(db.files), path[..|path| - 1]).id, path[|path| - 1], now)]
      ensures path != [] && ParentParses(path, parentParses) && !(ResolvePath(old(db.folders), old(db.files), path[..|path| - 1]).Resolved? &&
                              ResolvePath(old(db.folders), old(db.files), path[..|path| - 1]).isDir) ==>
        r == Failed(NotFound)
      ensures r != Done ==> db.folders == old(db.folders)
    {
      if path == [] {
        return Failed(Forbidden);
      }
      var name := path[|path| - 1];
      if !ParentParses(path, parentParses) {
        return Failed(GeneralFailure);
      }
      var parent := Resolve(path[..|path| - 1]);
      match parent
      case Resolved(pid, true) =>
        var target := Resolve(path);
        if target.Resolved? {
          return Failed(Exists);
        }
        ResolveLast(db.folders, db.files, path, pid);
        StepFindsNothing(db.folders, db.files, pid, name);
        var _ := db.CreateFolder(name, pid, id, now);
        r := Done;
      case _ =>
        r := Failed(NotFound);
    }

    /** `remove_dir`: a resolved folder is deleted with the files directly inside it;
        a file is refused; the root and unresolved paths are not found. */
    method RemoveDir(path: seq<string>) returns (r: FsStatus)
      requires db.Valid()
      modifies db
      ensures db.Valid()
      ensures match ResolvePath(old(db.folders), old(db.files), path)
        case Resolved(Some(id), true) =>
          r == Done && db.folders == Filter(old(db.folders), FolderIdNotIn([id])) &&
          db.files == Filter(old(db.files), FileNotInFolder(id))
        case Resolved(_, false) => r == Failed(Forbidden) && db.folders == old(db.folders) && db.files == old(db.files)
        case _ => r == Failed(NotFound) && db.folders == old(db.folders) && db.files == old(db.files)
    {
      var res := Resolve(path);
      match res
      case Resolved(Some(id), true) =>
        var _ := db.DeleteFolder(id);
        r := Done;
      case Resolved(_, false) =>
        r := Failed(Forbidden);
      case _ =>
        r := Failed(NotFound);
    }

    /** `remove_file`: a resolved file record is deleted; a directory (the root
        included) is refused; an unresolved path is not found. */
    method RemoveFile(path: seq<string>) returns (r: FsStatus)
      requires db.Valid()
      modifies db
      ensures db.Valid() && db.folders == old(db.folders)
      ensures match ResolvePath(old(db.folders), old(db.files), path)
        case Resolved(Some(id), false) => r == Done && db.files == Filter(old(db.files), FileIdNotIn([id]))
        case Resolved(_, true) => r == Failed(Forbidden) && db.files == old(db.files)
        case _ => r == Failed(NotFound) && db.files == old(db.files)
    {
      var res := Resolve(path);
      match res
      case Resolved(Some(id), false) =>
        var _ := db.DeleteFile(id);
        r := Done;
      case Resolved(_, true) =>
        r := Failed(Forbidden);
      case _ =>
        r := Failed(NotFound);
    }

    /** `rename` (MOVE, section 9.9 of RFC 4918): the source must resolve to an entry
        and the destination's parent to a directory; the entry then moves there under
        the destination's last component. A destination parent path that does not
        parse again (`parentParses`, as for `Open`), and a store update that finds
        nothing to move (or a folder moved into itself), are general failures. */
    method Rename(from: seq<string>, to: seq<string>, parentParses: bool) returns (r: FsStatus)
      requires db.Valid()
      modifies db
      ensures db.Valid()
      ensures ResolvePath(old(db.folders), old(db.files), from).Unresolved? ||
              ResolvePath(old(db.folders), old(db.files), from).id.None? ==>
        r == Failed(NotFound) && db.folders == old(db.folders) && db.files == old(db.files)
      ensures ResolvePath(old(db.folders), old(db.files), from).Resolved? &&
              ResolvePath(old(db.folders), old(db.files), from).id.Some? ==>
        if to == [] then r == Failed(Forbidden) && db.folders == old(db.folders) && db.files == old(db.files)
        else if !ParentParses(to, parentParses) then
          r == Failed(GeneralFailure) && db.folders == old(db.folders) && db.files == old(db.files)
        else
          match ResolvePath(old(db.folders), old(db.files), to[..|to| - 1])
          case Resolved(target, true) =>
            (var src := ResolvePath(old(db.folders), old(db.files), from);
             if src.isDir then
               db.files == old(db.files) &&
               (target == src.id ==> r == Failed(GeneralFailure) && db.folders == old(db.folders)) &&
               (target != src.id ==>
                  (r == Done <==> HasFolder(old(db.folders), src.id.value)) &&
                  UpdatedWhere(old(db.folders), db.folders, FolderIdIs(src.id.value), MoveFolderTo(target, to[|to| - 1])))
             else
               db.folders == old(db.folders) &&
               (r == Done <==> HasFile(old(db.files), src.id.value)) &&
               UpdatedWhere(old(db.files), db.files, FileIdIs(src.id.value), MoveFileTo(target, to[|to| - 1])))
          case _ => r == Failed(NotFound) && db.folders == old(db.folders) && db.files == old(db.files)
      ensures r != Done ==> db.folders == old(db.folders) && db.files == old(db.files)
    {
      var src := Resolve(from);
      if src.Unresolved? || src.id.None? {
        return Failed(NotFound);
      }
      if to == [] {
        return Failed(Forbidden);
      }
      var newName := to[|to| - 1];
      if !ParentParses(to, parentParses) {
        return Failed(GeneralFailure);
      }
      var parent := Resolve(to[..|to| - 1]);
      if !(parent.Resolved? && parent.isDir) {
        return Failed(NotFound);
      }
      var ok: bool;
      if src.isDir {
        ok := db.MoveFolder(src.id.value, parent.id, newName);
      } else {
        ok := db.MoveFile(src.id.value, parent.id, newName);
      }
      r := if ok then Done else Failed(GeneralFailure);
    }
  }

  // ---------------------------------------------------------------------------
  // Writing a file
  // ---------------------------------------------------------------------------

  /** Outcome of uploading the temporary file and sending it to Saved Messages:
      the new message's identifier, or a failure of either network call. */
  datatype Upload = Sent(messageId: int) | UploadFailed

  /** Files the daemon accepts but never records: Finder's metadata droppings. */
  predicate IsSystemFile(name: string)
  {
    name == ".DS_Store" || StartsWith(name, "._")
  }

  /** A live record of `name` directly under `parent`: what `flush` replaces. */
  function FileIsVersionOf(parent: Option<string>, name: string): FileMetadata -> bool
  {
    (f: FileMetadata) => FileVisibleIn(parent)(f) && f.name == name
  }

  function FileIsNotVersionOf(parent: Option<string>, name: string): FileMetadata -> bool
  {
    (f: FileMetadata) => !FileIsVersionOf(parent, name)(f)
  }

  /** With no live file of that name left in the folder, the unique-name rule keeps the name. */
  lemma NameKeptAfterDedup(folders: seq<Folder>, files: seq<FileMetadata>, parent: Option<string>, name: string)
    requires forall i :: 0 <= i < |files| ==> !FileIsVersionOf(parent, name)(files[i])
    ensures !NameTaken(folders, files, parent, name, false)
  {
    forall i | 0 <= i < |files| && files[i].folderId == parent && files[i].name == name
      ensures files[i].trashed
    {
      assert !FileIsVersionOf(parent, name)(files[i]);
      assert !FileVisibleIn(parent)(files[i]);
    }
  }

  /** `PaperfoldWriteFile`: a file being written through WebDAV. The bytes go to a
      temporary file, whose size `flush` receives; the record is created at flush. */
  class WriteFile {
    const db: Database
    const parentId: Option<string>
    const name: string
    var flushed: bool

    constructor (db: Database, parentId: Option<string>, name: string)
      ensures this.db == db && this.parentId == parentId && this.name == name && !flushed
    {
      this.db := db;
      this.parentId := parentId;
      this.name := name;
      flushed := false;
    }

    /** The deduplication step: deletes, one by one, every live file of the same name
        in the target folder, as listed before the first deletion. */
    method RemoveOldVersions()
      requires db.Valid()
      modifies db
      ensures db.Valid() && db.folders == old(db.folders)
      ensures db.files == Filter(old(db.files), FileIsNotVersionOf(parentId, name))
    {
      var listing := ListContents(db.folders, db.files, parentId);
      var live := listing.1;
      ghost var before := db.files;
      FilterAll(before, FileIdNotIn([]));
      for k := 0 to |live|
        invariant db.Valid() && db.folders == old(db.folders)
        invariant db.files == Filter(before, FileIdNotIn(MatchingIds(live[..k], name)))
      {
        MatchingIdsNext(live, k, name);
        if live[k].name == name {
          var _ := db.DeleteFile(live[k].id);
          DeleteOneMore(before, MatchingIds(live[..k], name), live[k].id);
        }
      }
      assert live[..|live|] == live;
      VersionsById(before, parentId, name);
    }

    /** `flush`: runs once; later calls succeed without touching the store. Replaces
        the old versions, then records a 0-byte file locally (message -1), skips a
        system file, or records the uploaded file with its size and message. The old
        versions are gone even when the upload fails. */
    method Flush(size: nat, mimeType: string, upload: Upload, id: string, now: int) returns (r: FsStatus)
      requires db.Valid() && !HasFile(db.files, id)
      modifies this, db
      ensures db.Valid() && db.folders == old(db.folders)
      ensures old(flushed) ==> r == Done && flushed && db.files == old(db.files)
      ensures !old(flushed) ==>
        var kept := Filter(old(db.files), FileIsNotVersionOf(parentId, name));
        if size == 0 then
          r == Done && flushed &&
          db.files == kept + [NewFile(id, parentId, name, 0, "application/octet-stream", -1, None, now)]
        else if IsSystemFile(name) then
          r == Done && flushed && db.files == kept
        else match upload
          case Sent(msg) =>
            r == Done && flushed && db.files == kept + [NewFile(id, parentId, name, size, mimeType, msg, None, now)]
          case UploadFailed =>
            r == Failed(GeneralFailure) && !flushed && db.files == kept
    {
      if flushed {
        return Done;
      }
      RemoveOldVersions();
      FilterMembers(old(db.files), FileIsNotVersionOf(parentId, name));
      assert forall i :: 0 <= i < |db.files| ==> !FileIsVersionOf(parentId, name)(db.files[i]);
      NameKeptAfterDedup(db.folders, db.files, parentId, name);
      if size == 0 {
        var _ := db.AddFile(parentId, name, 0, "application/octet-stream", -1, None, id, now);
        flushed := true;
        return Done;
      }
      if IsSystemFile(name) {
        flushed := true;
        return Done;
      }
      match upload
      case UploadFailed =>
        r := Failed(GeneralFailure);
      case Sent(msg) =>
        var _ := db.AddFile(parentId, name, size, mimeType, msg, None, id, now);
        flushed := true;
        r := Done;
    }
  }

  /** Deleting one more identifier from what is left. */
  lemma DeleteOneMore(files: seq<FileMetadata>, removed: seq<string>, x: string)
    ensures Filter(Filter(files, FileIdNotIn(removed)), FileIdNotIn([x])) == Filter(files, FileIdNotIn(removed + [x]))
  {
    FilterFilter(files, FileIdNotIn(removed), FileIdNotIn([x]), FileIdNotIn(removed + [x]));
  }

  /** Identifiers of the records named `name`, in order. */
  function MatchingIds(live: seq<FileMetadata>, name: string): seq<string>
  {
    if live == [] then []
    else MatchingIds(live[..|live| - 1], name) +
         (if live[|live| - 1].name == name then [live[|live| - 1].id] else [])
  }

  lemma MatchingIdsNext(live: seq<FileMetadata>, k: nat, name: string)
    requires k < |live|
    ensures live[k].name == name ==> MatchingIds(live[..k + 1], name) == MatchingIds(live[..k], name) + [live[k].id]
    ensures live[k].name != name ==> MatchingIds(live[..k + 1], name) == MatchingIds(live[..k], name)
  {
    assert live[..k + 1][..k] == live[..k];
  }

  lemma {:induction false} MatchingIdsMember(live: seq<FileMetadata>, name: string, x: string)
    ensures x in MatchingIds(live, name) <==> exists j :: 0 <= j < |live| && live[j].name == name && live[j].id == x
  {
    if live != [] {
      var n := |live| - 1;
      MatchingIdsMember(live[..n], name, x);
      assert forall j :: 0 <= j < n ==> live[..n][j] == live[j];
    }
  }

  /** Removing the identifiers of the matching entries of the folder listing removes
      exactly the live versions of the file, since identifiers are unique. */
  lemma VersionsById(files: seq<FileMetadata>, parent: Option<string>, name: string)
    requires UniqueFileIds(files)
    ensures Filter(files, FileIdNotIn(MatchingIds(Filter(files, FileVisibleIn(parent)), name)))
         == Filter(files, FileIsNotVersionOf(parent, name))
  {
    var live := Filter(files, FileVisibleIn(parent));
    var removed := MatchingIds(live, name);
    FilterMembers(files, FileVisibleIn(parent));
    forall f | f in files
      ensures FileIdNotIn(removed)(f) == FileIsNotVersionOf(parent, name)(f)
    {
      MatchingIdsMember(live, name, f.id);
      if FileIsVersionOf(parent, name)(f) {
        var j :| 0 <= j < |live| && live[j] == f;
        assert f.id in removed;
      } else if f.id in removed {
        var j :| 0 <= j < |live| && live[j].name == name && live[j].id == f.id;
        assert live[j] in files;
        SameIdSameFile(files, f, live[j]);
        assert false;
      }
    }
    FilterCongruent(files, FileIdNotIn(removed), FileIsNotVersionOf(parent, name));
  }
}

/** The metadata store of the desktop app and the WebDAV daemon: folders and
    file records kept in two lists, with soft deletion (trash), stars, search
    and per-folder styling. Identifiers (random UUIDs) and the current clock
    value are parameters; persistence to the JSON file is not modelled. */
module Store {
  import opened Common

  datatype Folder = Folder(
    id: string,
    parentId: Option<string>,
    name: string,
    createdAt: int,
    trashed: bool,
    trashedAt: Option<int>,
    isStarred: bool,
    color: Option<string>,
    icon: Option<string>,
    gradient: Option<string>,
    coverImage: Option<string>,
    emoji: Option<string>,
    pattern: Option<string>,
    showBadges: bool,
    tags: Option<seq<string>>,
    description: Option<string>,
    viewMode: Option<string>,
    lastModified: int)

  datatype FileMetadata = FileMetadata(
    id: string,
    folderId: Option<string>,
    name: string,
    size: int,
    mimeType: string,
    messageId: int,
    createdAt: int,
    trashed: bool,
    trashedAt: Option<int>,
    isStarred: bool,
    thumbnail: Option<string>)

  // ---------------------------------------------------------------------------
  // Identity
  // ---------------------------------------------------------------------------

  predicate UniqueFolderIds(folders: seq<Folder>)
  {
    forall i, j :: 0 <= i < j < |folders| ==> folders[i].id != folders[j].id
  }

  predicate UniqueFileIds(files: seq<FileMetadata>)
  {
    forall i, j :: 0 <= i < j < |files| ==> files[i].id != files[j].id
  }

  predicate HasFolder(folders: seq<Folder>, id: string)
  {
    exists i :: 0 <= i < |folders| && folders[i].id == id
  }

  predicate HasFile(files: seq<FileMetadata>, id: string)
  {
    exists i :: 0 <= i < |files| && files[i].id == id
  }

  /** Position of the first folder with identifier `id` (Rust `iter().find`). */
  function FolderIndex(folders: seq<Folder>, id: string): (k: Option<nat>)
    ensures k.Some? ==> k.value < |folders| && folders[k.value].id == id
    ensures k.Some? ==> forall j :: 0 <= j < k.value ==> folders[j].id != id
    ensures k.None? <==> !HasFolder(folders, id)
  {
    if folders == [] then None
    else if folders[0].id == id then Some(0)
    else
      var k := FolderIndex(folders[1..], id);
      assert k.None? ==> forall i :: 1 <= i < |folders| ==> folders[i].id == folders[1..][i - 1].id;
      match k
      case None => None
      case Some(j) => Some(j + 1)
  }

  /** Position of the first file record with identifier `id`. */
  function FileIndex(files: seq<FileMetadata>, id: string): (k: Option<nat>)
    ensures k.Some? ==> k.value < |files| && files[k.value].id == id
    ensures k.Some? ==> forall j :: 0 <= j < k.value ==> files[j].id != id
    ensures k.None? <==> !HasFile(files, id)
  {
    if files == [] then None
    else if files[0].id == id then Some(0)
    else
      var k := FileIndex(files[1..], id);
      assert k.None? ==> forall i :: 1 <= i < |files| ==> files[i].id == files[1..][i - 1].id;
      match k
      case None => None
      case Some(j) => Some(j + 1)
  }

  /** Position of the first file record that points at Telegram message `messageId`. */
  function MessageIndex(files: seq<FileMetadata>, messageId: int): (k: Option<nat>)
    ensures k.Some? ==> k.value < |files| && files[k.value].messageId == messageId
    ensures k.Some? ==> forall j :: 0 <= j < k.value ==> files[j].messageId != messageId
    ensures k.None? ==> forall j :: 0 <= j < |files| ==> files[j].messageId != messageId
  {
    if files == [] then None
    else if files[0].messageId == messageId then Some(0)
    else
      var k := MessageIndex(files[1..], messageId);
      assert k.None? ==> forall i :: 1 <= i < |files| ==> files[i] == files[1..][i - 1];
      match k
      case None => None
      case Some(j) => Some(j + 1)
  }

  /** With unique identifiers, the record holding an identifier is the one `FileIndex` finds. */
  lemma FileIndexOfMember(files: seq<FileMetadata>, x: FileMetadata)
    requires UniqueFileIds(files) && x in files
    ensures FileIndex(files, x.id).Some? && files[FileIndex(files, x.id).value] == x
  {
    var j :| 0 <= j < |files| && files[j] == x;
    var k := FileIndex(files, x.id);
    assert k.Some?;
    assert k.value == j by {
      if k.value < j {
      } else if j < k.value {
      }
    }
  }

  lemma FolderIndexOfMember(folders: seq<Folder>, x: Folder)
    requires UniqueFolderIds(folders) && x in folders
    ensures FolderIndex(folders, x.id).Some? && folders[FolderIndex(folders, x.id).value] == x
  {
    var j :| 0 <= j < |folders| && folders[j] == x;
    var k := FolderIndex(folders, x.id);
    assert k.Some?;
    assert k.value == j by {
      if k.value < j {
      } else if j < k.value {
      }
    }
  }

  /** `get_file`: the first record with the identifier. */
  function GetFile(files: seq<FileMetadata>, id: string): (r: Option<FileMetadata>)
    ensures r.Some? <==> HasFile(files, id)
    ensures r.Some? ==> r.value in files && r.value.id == id
    ensures r.Some? ==> exists k :: 0 <= k < |files| && files[k] == r.value && forall j :: 0 <= j < k ==> files[j].id != id
  {
    match FileIndex(files, id)
    case None => None
    case Some(k) => Some(files[k])
  }

  /** `get_folder_by_id`: the first folder with the identifier. */
  function GetFolderById(folders: seq<Folder>, id: string): (r: Option<Folder>)
    ensures r.Some? <==> HasFolder(folders, id)
    ensures r.Some? ==> r.value in folders && r.value.id == id
    ensures r.Some? ==> exists k :: 0 <= k < |folders| && folders[k] == r.value && forall j :: 0 <= j < k ==> folders[j].id != id
  {
    match FolderIndex(folders, id)
    case None => None
    case Some(k) => Some(folders[k])
  }

  /** `lookup_folder_name`: the name of the first folder with the identifier. */
  function LookupFolderName(folders: seq<Folder>, id: string): (r: Option<string>)
    ensures r.Some? <==> HasFolder(folders, id)
    ensures r.Some? ==> exists k :: 0 <= k < |folders| && folders[k].id == id && folders[k].name == r.value
  {
    match GetFolderById(folders, id)
    case None => None
    case Some(f) => Some(f.name)
  }

  // ---------------------------------------------------------------------------
  // Listings
  // ---------------------------------------------------------------------------

  function FolderVisibleIn(parent: Option<string>): Folder -> bool
  {
    (f: Folder) => f.parentId == parent && !f.trashed
  }

  function FileVisibleIn(parent: Option<string>): FileMetadata -> bool
  {
    (f: FileMetadata) => f.folderId == parent && !f.trashed
  }

  function FolderInTrash(): Folder -> bool
  {
    (f: Folder) => f.trashed
  }

  function FileInTrash(): FileMetadata -> bool
  {
    (f: FileMetadata) => f.trashed
  }

  function FileNotTrashed(): FileMetadata -> bool
  {
    (f: FileMetadata) => !f.trashed
  }

  /** `list_contents`: the non-trashed children of `parent` (`None` is the root), in store order. */
  function ListContents(folders: seq<Folder>, files: seq<FileMetadata>, parent: Option<string>)
    : (r: (seq<Folder>, seq<FileMetadata>))
    ensures forall d :: d in r.0 <==> d in folders && d.parentId == parent && !d.trashed
    ensures forall f :: f in r.1 <==> f in files && f.folderId == parent && !f.trashed
  {
    FilterMembers(folders, FolderVisibleIn(parent));
    FilterMembers(files, FileVisibleIn(parent));
    (Filter(folders, FolderVisibleIn(parent)), Filter(files, FileVisibleIn(parent)))
  }

  /** `list_trash`: every trashed folder and file, wherever it lives. */
  function ListTrash(folders: seq<Folder>, files: seq<FileMetadata>): (r: (seq<Folder>, seq<FileMetadata>))
    ensures forall d :: d in r.0 <==> d in folders && d.trashed
    ensures forall f :: f in r.1 <==> f in files && f.trashed
  {
    FilterMembers(folders, FolderInTrash());
    FilterMembers(files, FileInTrash());
    (Filter(folders, FolderInTrash()), Filter(files, FileInTrash()))
  }

  /** Each record shows up in exactly one place: the trash view, or the
      listing of the folder it lives in. */
  lemma TrashOrListed(folders: seq<Folder>, files: seq<FileMetadata>, d: Folder, f: FileMetadata)
    requires d in folders && f in files
    ensures d in ListTrash(folders, files).0 <==> d !in ListContents(folders, files, d.parentId).0
    ensures f in ListTrash(folders, files).1 <==> f !in ListContents(folders, files, f.folderId).1
    ensures forall p :: p != f.folderId ==> f !in ListContents(folders, files, p).1
  {
    FilterMember(folders, FolderInTrash(), d);
    FilterMember(folders, FolderVisibleIn(d.parentId), d);
    FilterMember(files, FileInTrash(), f);
    FilterMember(files, FileVisibleIn(f.folderId), f);
    forall p | p != f.folderId
      ensures f !in ListContents(folders, files, p).1
    {
      FilterMember(files, FileVisibleIn(p), f);
    }
  }

  function FolderStarred(): Folder -> bool
  {
    (f: Folder) => f.isStarred && !f.trashed
  }

  function FileStarred(): FileMetadata -> bool
  {
    (f: FileMetadata) => f.isStarred && !f.trashed
  }

  /** `get_starred`: starred items that are not in the trash. */
  function GetStarred(folders: seq<Folder>, files: seq<FileMetadata>): (r: (seq<Folder>, seq<FileMetadata>))
    ensures forall d :: d in r.0 <==> d in folders && d.isStarred && !d.trashed
    ensures forall f :: f in r.1 <==> f in files && f.isStarred && !f.trashed
  {
    FilterMembers(folders, FolderStarred());
    FilterMembers(files, FileStarred());
    (Filter(folders, FolderStarred()), Filter(files, FileStarred()))
  }

  // ---------------------------------------------------------------------------
  // Search
  // ---------------------------------------------------------------------------

  predicate AnyTagContains(tags: seq<string>, q: string)
  {
    exists i :: 0 <= i < |tags| && Contains(Lower(tags[i]), q)
  }

  function FolderMatches(q: string): Folder -> bool
  {
    (f: Folder) => !f.trashed && (Contains(Lower(f.name), q) || (f.tags.Some? && AnyTagContains(f.tags.value, q)))
  }

  function FileMatches(q: string): FileMetadata -> bool
  {
    (f: FileMetadata) => !f.trashed && Contains(Lower(f.name), q)
  }

  /** `search_items`: case-insensitive substring match on names, and on folder tags. */
  function SearchItems(folders: seq<Folder>, files: seq<FileMetadata>, query: string)
    : (r: (seq<Folder>, seq<FileMetadata>))
    ensures forall d :: d in r.0 <==> (d in folders && !d.trashed &&
      (Contains(Lower(d.name), Lower(query)) || (d.tags.Some? && AnyTagContains(d.tags.value, Lower(query)))))
    ensures forall f :: f in r.1 <==> f in files && !f.trashed && Contains(Lower(f.name), Lower(query))
  {
    FilterMembers(folders, FolderMatches(Lower(query)));
    FilterMembers(files, FileMatches(Lower(query)));
    (Filter(folders, FolderMatches(Lower(query))), Filter(files, FileMatches(Lower(query))))
  }

  /** An empty query finds every item that is not in the trash, in store order. */
  lemma {:induction false} SearchEmptyQuery(folders: seq<Folder>, files: seq<FileMetadata>)
    ensures SearchItems(folders, files, "").1 == Filter(files, FileNotTrashed())
    ensures forall d :: d in SearchItems(folders, files, "").0 <==> d in folders && !d.trashed
  {
    assert Lower("") == "";
    forall f ensures FileMatches("")(f) == FileNotTrashed()(f) {
      ContainsEmpty(Lower(f.name));
    }
    FilterCongruent(files, FileMatches(""), FileNotTrashed());
    forall d ensures FolderMatches("")(d) == !d.trashed {
      ContainsEmpty(Lower(d.name));
    }
  }

  // ---------------------------------------------------------------------------
  // Usage
  // ---------------------------------------------------------------------------

  function SumSizes(files: seq<FileMetadata>): int
  {
    if files == [] then 0 else SumSizes(files[..|files| - 1]) + files[|files| - 1].size
  }

  /** What one record adds to the storage total. */
  function Charge(f: FileMetadata): int
  {
    if f.trashed then 0 else f.size
  }

  /** `get_total_usage`: the summed size of the files that are not in the trash. */
  function TotalUsage(files: seq<FileMetadata>): (r: int)
    ensures files == [] ==> r == 0
  {
    if files == [] then 0 else TotalUsage(files[..|files| - 1]) + Charge(files[|files| - 1])
  }

  /** The total is the sum over the live records, as `filter(!trashed).map(size).sum()` computes it. */
  lemma {:induction false} TotalUsageIsLiveSum(files: seq<FileMetadata>)
    ensures TotalUsage(files) == SumSizes(Filter(files, FileNotTrashed()))
  {
    if files != [] {
      var n := |files| - 1;
      var init, last := files[..n], files[n];
      TotalUsageIsLiveSum(init);
      var s := Filter(init, FileNotTrashed());
      if !last.trashed {
        assert FileNotTrashed()(last);
        assert Filter(files, FileNotTrashed()) == s + [last];
        assert (s + [last])[..|s + [last]| - 1] == s;
      } else {
        assert !FileNotTrashed()(last);
        assert Filter(files, FileNotTrashed()) == s;
      }
    }
  }

  lemma TotalUsageSnoc(files: seq<FileMetadata>, f: FileMetadata)
    ensures TotalUsage(files + [f]) == TotalUsage(files) + Charge(f)
  {
    assert (files + [f])[..|files + [f]| - 1] == files;
  }

  /** Replacing one record changes the total by the difference of the two charges;
      this is how trashing and restoring move the usage figure. */
  lemma {:induction false} TotalUsageUpdate(files: seq<FileMetadata>, k: nat, g: FileMetadata)
    requires k < |files|
    ensures TotalUsage(files[k := g]) == TotalUsage(files) - Charge(files[k]) + Charge(g)
    decreases |files|
  {
    var n := |files| - 1;
    var init, last := files[..n], files[n];
    var t := files[k := g];
    assert t[..n] == if k == n then init else init[k := g];
    assert t[n] == if k == n then g else last;
    if k < n {
      TotalUsageUpdate(init, k, g);
    }
  }

  // ---------------------------------------------------------------------------
  // Unique names for new entries
  // ---------------------------------------------------------------------------

  /** A non-trashed sibling of the given kind under `parent` already carries `name`. */
  predicate NameTaken(folders: seq<Folder>, files: seq<FileMetadata>, parent: Option<string>, name: string, isFolder: bool)
  {
    if isFolder then
      exists i :: 0 <= i < |folders| && folders[i].parentId == parent && folders[i].name == name && !folders[i].trashed
    else
      exists i :: 0 <= i < |files| && files[i].folderId == parent && files[i].name == name && !files[i].trashed
  }

  /** The `i`-th alternative to a taken name: `base (i)`. */
  function Candidate(base: string, i: nat): string
  {
    base + " (" + NatToString(i) + ")"
  }

  /** `name` is what `get_unique_name` must return: free among the live siblings,
      and either the base name itself or its first free numbered variant. */
  ghost predicate IsUniqueName(folders: seq<Folder>, files: seq<FileMetadata>, parent: Option<string>,
                               base: string, isFolder: bool, name: string)
  {
    !NameTaken(folders, files, parent, name, isFolder) &&
    (!NameTaken(folders, files, parent, base, isFolder) ==> name == base) &&
    (NameTaken(folders, files, parent, base, isFolder) ==>
      exists i: nat :: i >= 1 && name == Candidate(base, i) &&
        forall j: nat :: 1 <= j < i ==> NameTaken(folders, files, parent, Candidate(base, j), isFolder))
  }

  /** The length of the longest of `names`, 0 for none. */
  function MaxLength(names: seq<string>): (m: nat)
    ensures forall i :: 0 <= i < |names| ==> |names[i]| <= m
    ensures names != [] ==> exists i :: 0 <= i < |names| && |names[i]| == m
  {
    if names == [] then 0
    else
      var m := MaxLength(names[..|names| - 1]);
      var l := |names[|names| - 1]|;
      if l > m then l else m
  }

  /** The names of the records of one kind, in store order. */
  function KindNames(folders: seq<Folder>, files: seq<FileMetadata>, isFolder: bool): seq<string>
  {
    if isFolder then MapSeq(folders, (f: Folder) => f.name) else MapSeq(files, (f: FileMetadata) => f.name)
  }

  /** Only finitely many numbered variants can be taken: the loop of `get_unique_name` ends. */
  lemma CandidateBound(folders: seq<Folder>, files: seq<FileMetadata>, parent: Option<string>,
                       base: string, isFolder: bool, i: nat)
    requires NameTaken(folders, files, parent, Candidate(base, i), isFolder)
    ensures i < Pow10(MaxLength(KindNames(folders, files, isFolder)))
  {
    var bound := MaxLength(KindNames(folders, files, isFolder));
    assert |Candidate(base, i)| <= bound;
    if i >= Pow10(bound) {
      NatToStringLength(i, bound);
    }
  }

  /** Live siblings of one kind under `parent` have pairwise different names. */
  ghost predicate DistinctFolderNames(folders: seq<Folder>, parent: Option<string>)
  {
    forall i, j :: 0 <= i < j < |folders| && FolderVisibleIn(parent)(folders[i]) && FolderVisibleIn(parent)(folders[j])
      ==> folders[i].name != folders[j].name
  }

  ghost predicate DistinctFileNames(files: seq<FileMetadata>, parent: Option<string>)
  {
    forall i, j :: 0 <= i < j < |files| && FileVisibleIn(parent)(files[i]) && FileVisibleIn(parent)(files[j])
      ==> files[i].name != files[j].name
  }

  /** Creating a folder through the unique-name rule never introduces a name clash
      among the live subfolders of any folder. */
  lemma NewFolderKeepsNamesDistinct(folders: seq<Folder>, files: seq<FileMetadata>, base: string,
                                    nf: Folder, p: Option<string>)
    requires DistinctFolderNames(folders, p)
    requires !nf.trashed
    requires IsUniqueName(folders, files, nf.parentId, base, true, nf.name)
    ensures DistinctFolderNames(folders + [nf], p)
  {
    var s := folders + [nf];
    forall i, j | 0 <= i < j < |s| && FolderVisibleIn(p)(s[i]) && FolderVisibleIn(p)(s[j])
      ensures s[i].name != s[j].name
    {
      if j == |folders| {
        assert s[i] == folders[i];
        assert !NameTaken(folders, files, nf.parentId, nf.name, true);
      } else {
        assert s[i] == folders[i] && s[j] == folders[j];
      }
    }
  }

  /** The same for a file added through `add_file`. */
  lemma NewFileKeepsNamesDistinct(folders: seq<Folder>, files: seq<FileMetadata>, base: string,
                                  nf: FileMetadata, p: Option<string>)
    requires DistinctFileNames(files, p)
    requires !nf.trashed
    requires IsUniqueName(folders, files, nf.folderId, base, false, nf.name)
    ensures DistinctFileNames(files + [nf], p)
  {
    var s := files + [nf];
    forall i, j | 0 <= i < j < |s| && FileVisibleIn(p)(s[i]) && FileVisibleIn(p)(s[j])
      ensures s[i].name != s[j].name
    {
      if j == |files| {
        assert s[i] == files[i];
        assert !NameTaken(folders, files, nf.folderId, nf.name, false);
      } else {
        assert s[i] == files[i] && s[j] == files[j];
      }
    }
  }

  // ---------------------------------------------------------------------------
  // Record updates
  // ---------------------------------------------------------------------------

  function NewFolder(id: string, parentId: Option<string>, name: string, now: int): Folder
  {
    Folder(id, parentId, name, now, false, None, false, None, None, None, None, None, None,
           false, None, None, None, now)
  }

  function NewFile(id: string, folderId: Option<string>, name: string, size: int, mimeType: string,
                   messageId: int, thumbnail: Option<string>, now: int): FileMetadata
  {
    FileMetadata(id, folderId, name, size, mimeType, messageId, now, false, None, false, thumbnail)
  }

  /** `news` is `olds` with `g` applied to every element satisfying `hit`. */
  ghost predicate UpdatedWhere<T>(olds: seq<T>, news: seq<T>, hit: T -> bool, g: T -> T)
  {
    |news| == |olds| && forall i :: 0 <= i < |olds| ==> news[i] == if hit(olds[i]) then g(olds[i]) else olds[i]
  }

  function FolderIdIs(id: string): Folder -> bool
  {
    (f: Folder) => f.id == id
  }

  function FileIdIs(id: string): FileMetadata -> bool
  {
    (f: FileMetadata) => f.id == id
  }

  /** `iter_mut().find(..)` followed by field writes: the folder with the identifier is
      rewritten by `g`; identifiers are unique, so no other folder is touched. */
  function UpdateFolder(folders: seq<Folder>, id: string, g: Folder -> Folder): (r: seq<Folder>)
    requires UniqueFolderIds(folders)
    requires forall f :: g(f).id == f.id
    ensures UpdatedWhere(folders, r, FolderIdIs(id), g)
    ensures UniqueFolderIds(r)
  {
    match FolderIndex(folders, id)
    case None => folders
    case Some(k) => folders[k := g(folders[k])]
  }

  function UpdateFile(files: seq<FileMetadata>, id: string, g: FileMetadata -> FileMetadata): (r: seq<FileMetadata>)
    requires UniqueFileIds(files)
    requires forall f :: g(f).id == f.id
    ensures UpdatedWhere(files, r, FileIdIs(id), g)
    ensures UniqueFileIds(r)
  {
    match FileIndex(files, id)
    case None => files
    case Some(k) => files[k := g(files[k])]
  }

  function TrashFolder(now: int): Folder -> Folder
  {
    (f: Folder) => f.(trashed := true, trashedAt := Some(now))
  }

  function TrashFile(now: int): FileMetadata -> FileMetadata
  {
    (f: FileMetadata) => f.(trashed := true, trashedAt := Some(now))
  }

  function RestoreFolder(): Folder -> Folder
  {
    (f: Folder) => f.(trashed := false, trashedAt := None)
  }

  function RestoreFile(): FileMetadata -> FileMetadata
  {
    (f: FileMetadata) => f.(trashed := false, trashedAt := None)
  }

  function ToggleFolderStar(): Folder -> Folder
  {
    (f: Folder) => f.(isStarred := !f.isStarred)
  }

  function ToggleFileStar(): FileMetadata -> FileMetadata
  {
    (f: FileMetadata) => f.(isStarred := !f.isStarred)
  }

  function RenameFolderTo(name: string): Folder -> Folder
  {
    (f: Folder) => f.(name := name)
  }

  function RenameFileTo(name: string): FileMetadata -> FileMetadata
  {
    (f: FileMetadata) => f.(name := name)
  }

  function MoveFolderTo(parent: Option<string>, name: string): Folder -> Folder
  {
    (f: Folder) => f.(parentId := parent, name := name)
  }

  function MoveFileTo(folder: Option<string>, name: string): FileMetadata -> FileMetadata
  {
    (f: FileMetadata) => f.(folderId := folder, name := name)
  }

  /** Two successive `toggle_star` calls on one file give back the records as they were. */
  lemma FileStarTwice(a: seq<FileMetadata>, b: seq<FileMetadata>, c: seq<FileMetadata>, id: string)
    requires UpdatedWhere(a, b, FileIdIs(id), ToggleFileStar())
    requires UpdatedWhere(b, c, FileIdIs(id), ToggleFileStar())
    ensures c == a
  {
  }

  lemma FolderStarTwice(a: seq<Folder>, b: seq<Folder>, c: seq<Folder>, id: string)
    requires UpdatedWhere(a, b, FolderIdIs(id), ToggleFolderStar())
    requires UpdatedWhere(b, c, FolderIdIs(id), ToggleFolderStar())
    ensures c == a
  {
  }

  /** `restore_item` after `trash_item` on one file leaves it out of the trash with no
      trash time, as if it had only been restored. */
  lemma FileRestoreAfterTrash(a: seq<FileMetadata>, b: seq<FileMetadata>, c: seq<FileMetadata>, id: string, now: int)
    requires UpdatedWhere(a, b, FileIdIs(id), TrashFile(now))
    requires UpdatedWhere(b, c, FileIdIs(id), RestoreFile())
    ensures UpdatedWhere(a, c, FileIdIs(id), RestoreFile())
  {
  }

  lemma FolderRestoreAfterTrash(a: seq<Folder>, b: seq<Folder>, c: seq<Folder>, id: string, now: int)
    requires UpdatedWhere(a, b, FolderIdIs(id), TrashFolder(now))
    requires UpdatedWhere(b, c, FolderIdIs(id), RestoreFolder())
    ensures UpdatedWhere(a, c, FolderIdIs(id), RestoreFolder())
  {
  }

  /** How `update_folder_metadata` treats one of the six styling fields:
      absent leaves it, an empty string clears it, anything else sets it. */
  function ApplyStyle(current: Option<string>, update: Option<string>): (r: Option<string>)
    ensures update.None? ==> r == current
    ensures update == Some("") ==> r.None?
    ensures update.Some? && update.value != "" ==> r == update
  {
    match update
    case None => current
    case Some(v) => if v == "" then None else Some(v)
  }

  /** The other optional fields are overwritten when present, with no clearing rule. */
  function ApplySet<T>(current: T, update: Option<T>): (r: T)
    ensures update.None? ==> r == current
    ensures update.Some? ==> r == update.value
  {
    match update
    case None => current
    case Some(v) => v
  }

  datatype MetadataUpdate = MetadataUpdate(
    color: Option<string>,
    icon: Option<string>,
    gradient: Option<string>,
    coverImage: Option<string>,
    emoji: Option<string>,
    pattern: Option<string>,
    showBadges: Option<bool>,
    tags: Option<seq<string>>,
    description: Option<string>,
    viewMode: Option<string>)

  function ApplyMetadata(u: MetadataUpdate, now: int): Folder -> Folder
  {
    (f: Folder) => f.(
      color := ApplyStyle(f.color, u.color),
      icon := ApplyStyle(f.icon, u.icon),
      gradient := ApplyStyle(f.gradient, u.gradient),
      coverImage := ApplyStyle(f.coverImage, u.coverImage),
      emoji := ApplyStyle(f.emoji, u.emoji),
      pattern := ApplyStyle(f.pattern, u.pattern),
      showBadges := ApplySet(f.showBadges, u.showBadges),
      tags := ApplySet(f.tags, if u.tags.Some? then Some(u.tags) else None),
      description := ApplySet(f.description, if u.description.Some? then Some(u.description) else None),
      viewMode := ApplySet(f.viewMode, if u.viewMode.Some? then Some(u.viewMode) else None),
      lastModified := now)
  }

  /** A metadata update that names no field only bumps the modification time. */
  lemma EmptyMetadataUpdate(f: Folder, now: int)
    ensures ApplyMetadata(MetadataUpdate(None, None, None, None, None, None, None, None, None, None), now)(f)
            == f.(lastModified := now)
  {
  }

  // ---------------------------------------------------------------------------
  // Trash cleanup
  // ---------------------------------------------------------------------------

  /** Trash entries stamped before this moment are due for removal. */
  function TrashLimit(now: int, days: int): int
  {
    now - days * 24 * 60 * 60
  }

  function FileExpired(limit: int): FileMetadata -> bool
  {
    (f: FileMetadata) => f.trashed && UnwrapOr(f.trashedAt, 0) < limit
  }

  function FileNotExpired(limit: int): FileMetadata -> bool
  {
    (f: FileMetadata) => !(f.trashed && UnwrapOr(f.trashedAt, 0) < limit)
  }

  function FolderExpired(limit: int): Folder -> bool
  {
    (f: Folder) => f.trashed && UnwrapOr(f.trashedAt, 0) < limit
  }

  function FolderNotExpired(limit: int): Folder -> bool
  {
    (f: Folder) => !(f.trashed && UnwrapOr(f.trashedAt, 0) < limit)
  }

  function FileIds(files: seq<FileMetadata>): seq<string>
  {
    MapSeq(files, (f: FileMetadata) => f.id)
  }

  function FolderIds(folders: seq<Folder>): seq<string>
  {
    MapSeq(folders, (f: Folder) => f.id)
  }

  function ExpiredFolderIds(folders: seq<Folder>, limit: int): seq<string>
  {
    FolderIds(Filter(folders, FolderExpired(limit)))
  }

  function FileIdNotIn(ids: seq<string>): FileMetadata -> bool
  {
    (f: FileMetadata) => f.id !in ids
  }

  function FolderIdNotIn(ids: seq<string>): Folder -> bool
  {
    (f: Folder) => f.id !in ids
  }

  function FileInFolder(fid: string): FileMetadata -> bool
  {
    (f: FileMetadata) => f.folderId == Some(fid)
  }

  function FileNotInFolder(fid: string): FileMetadata -> bool
  {
    (f: FileMetadata) => f.folderId != Some(fid)
  }

  /** The file lives in none of the folders `fids`. */
  function FileOutside(fids: seq<string>): FileMetadata -> bool
  {
    (f: FileMetadata) => !(f.folderId.Some? && f.folderId.value in fids)
  }

  /** Removing the contents of the folders `fids` one after the other, as
      `cleanup_trash` does: (records removed in removal order, records left). */
  function Sweep(files: seq<FileMetadata>, fids: seq<string>): (seq<FileMetadata>, seq<FileMetadata>)
  {
    if fids == [] then ([], files)
    else
      var prev := Sweep(files, fids[..|fids| - 1]);
      var fid := fids[|fids| - 1];
      (prev.0 + Filter(prev.1, FileInFolder(fid)), Filter(prev.1, FileNotInFolder(fid)))
  }

  /** What a sweep leaves is exactly the files outside every swept folder... */
  lemma {:induction false} SweepRemaining(files: seq<FileMetadata>, fids: seq<string>)
    ensures Sweep(files, fids).1 == Filter(files, FileOutside(fids))
  {
    if fids == [] {
      FilterAll(files, FileOutside(fids));
    } else {
      var init := fids[..|fids| - 1];
      var fid := fids[|fids| - 1];
      SweepRemaining(files, init);
      assert forall x :: FileOutside(fids)(x) == (FileOutside(init)(x) && FileNotInFolder(fid)(x)) by {
        assert fids == init + [fid];
      }
      FilterFilter(files, FileOutside(init), FileNotInFolder(fid), FileOutside(fids));
    }
  }

  /** ...and nothing is lost or duplicated: removed plus left is what there was. */
  lemma {:induction false} SweepPartition(files: seq<FileMetadata>, fids: seq<string>)
    ensures multiset(Sweep(files, fids).0) + multiset(Sweep(files, fids).1) == multiset(files)
  {
    if fids != [] {
      var init := fids[..|fids| - 1];
      var fid := fids[|fids| - 1];
      SweepPartition(files, init);
      var prev := Sweep(files, init);
      FilterPartition(prev.1, FileInFolder(fid), FileNotInFolder(fid));
    }
  }

  // ---------------------------------------------------------------------------
  // Folder statistics
  // ---------------------------------------------------------------------------

  /** The live files directly inside folder `id`. */
  function DirectFiles(files: seq<FileMetadata>, id: string): seq<FileMetadata>
  {
    Filter(files, FileVisibleIn(Some(id)))
  }

  /** Result of `calculate_stats_recursive`: total size and number of items below
      a folder, or `Diverges` when the recursion would re-enter a folder whose
      call is still running (a parent cycle), which never returns. */
  datatype Stats = Stats(size: int, count: int) | Diverges

  function AddStats(acc: Stats, size: int, count: int): Stats
  {
    match acc
    case Diverges => Diverges
    case Stats(s, c) => Stats(s + size, c + count)
  }

  function FolderIdSet(folders: seq<Folder>): set<string>
  {
    set f | f in folders :: f.id
  }

  /** Pushing a new folder on the stack leaves fewer folders that can still be entered. */
  lemma StackGrows(all: set<string>, stack: set<string>, c: string)
    requires c in all && c !in stack
    ensures |all - (stack + {c})| < |all - stack|
  {
    assert all - stack == (all - (stack + {c})) + {c};
  }

  /** Statistics of folder `id`; `stack` holds the folders whose calls are active,
      `id` included. The live files directly inside count with their sizes. */
  function StatsOf(folders: seq<Folder>, files: seq<FileMetadata>, id: string, stack: set<string>): (r: Stats)
    ensures r.Stats? ==> r.count >= |DirectFiles(files, id)|
    decreases |FolderIdSet(folders) - stack|, 1, 0
  {
    var direct := DirectFiles(files, id);
    ChildStats(folders, files, id, 0, stack, Stats(SumSizes(direct), |direct|))
  }

  /** Adds the statistics of the live subfolders of `parent` found from position `i`
      of the folder list on, each plus one for the subfolder itself. */
  function ChildStats(folders: seq<Folder>, files: seq<FileMetadata>, parent: string, i: nat,
                      stack: set<string>, acc: Stats): (r: Stats)
    requires i <= |folders|
    ensures r.Stats? ==> acc.Stats? && r.count >= acc.count
    decreases |FolderIdSet(folders) - stack|, 0, |folders| - i
  {
    if i == |folders| then acc
    else if !FolderVisibleIn(Some(parent))(folders[i]) then ChildStats(folders, files, parent, i + 1, stack, acc)
    else
      var c := folders[i].id;
      if c in stack then Diverges
      else
        assert c in FolderIdSet(folders) by { assert folders[i] in folders; }
        StackGrows(FolderIdSet(folders), stack, c);
        var r := StatsOf(folders, files, c, stack + {c});
        if r.Diverges? then Diverges
        else ChildStats(folders, files, parent, i + 1, stack, AddStats(acc, r.size, r.count + 1))
  }

  /** One step of the fold over a live subfolder that is not on the stack: if the
      subfolder and the rest of the fold agree on two file lists, so does the step. */
  lemma ChildStatsStepFrame(folders: seq<Folder>, files1: seq<FileMetadata>, files2: seq<FileMetadata>,
                            parent: string, i: nat, stack: set<string>, acc: Stats, r: Stats)
    requires i < |folders| && FolderVisibleIn(Some(parent))(folders[i]) && folders[i].id !in stack
    requires r == StatsOf(folders, files1, folders[i].id, stack + {folders[i].id})
    requires r == StatsOf(folders, files2, folders[i].id, stack + {folders[i].id})
    requires r.Stats? ==>
      ChildStats(folders, files1, parent, i + 1, stack, AddStats(acc, r.size, r.count + 1)) ==
      ChildStats(folders, files2, parent, i + 1, stack, AddStats(acc, r.size, r.count + 1))
    ensures ChildStats(folders, files1, parent, i, stack, acc) == ChildStats(folders, files2, parent, i, stack, acc)
  {
  }

  /** `get_folder_stats`. */
  function FolderStats(folders: seq<Folder>, files: seq<FileMetadata>, id: string): (r: Stats)
    ensures r.Stats? ==> r.count >= |DirectFiles(files, id)|
  {
    StatsOf(folders, files, id, {id})
  }

  /** `rank` witnesses that the live parent links have no cycle: every live folder
      ranks below its parent. */
  ghost predicate Ranked(folders: seq<Folder>, rank: string -> nat)
  {
    forall i :: 0 <= i < |folders| && !folders[i].trashed && folders[i].parentId.Some? ==>
      rank(folders[i].id) < rank(folders[i].parentId.value)
  }

  /** No folder of `stack` ranks below `id`, so none of `id`'s descendants is on it. */
  ghost predicate StackAbove(stack: set<string>, rank: string -> nat, id: string)
  {
    forall s :: s in stack ==> rank(s) >= rank(id)
  }

  /** Without a cycle the recursion never diverges, and which folders are on the
      stack above it does not matter. */
  lemma {:induction false} RankedStats(folders: seq<Folder>, files: seq<FileMetadata>, id: string,
                                       stack1: set<string>, stack2: set<string>, rank: string -> nat)
    requires Ranked(folders, rank) && StackAbove(stack1, rank, id) && StackAbove(stack2, rank, id)
    ensures StatsOf(folders, files, id, stack1).Stats?
    ensures StatsOf(folders, files, id, stack1) == StatsOf(folders, files, id, stack2)
    decreases rank(id), 1, 0
  {
    var direct := DirectFiles(files, id);
    RankedChildStats(folders, files, id, 0, stack1, stack2, Stats(SumSizes(direct), |direct|), rank);
  }

  lemma {:induction false} RankedChildStats(folders: seq<Folder>, files: seq<FileMetadata>, parent: string, i: nat,
                                            stack1: set<string>, stack2: set<string>, acc: Stats, rank: string -> nat)
    requires i <= |folders| && acc.Stats?
    requires Ranked(folders, rank) && StackAbove(stack1, rank, parent) && StackAbove(stack2, rank, parent)
    ensures ChildStats(folders, files, parent, i, stack1, acc).Stats?
    ensures ChildStats(folders, files, parent, i, stack1, acc) == ChildStats(folders, files, parent, i, stack2, acc)
    decreases rank(parent), 0, |folders| - i
  {
    if i < |folders| {
      if FolderVisibleIn(Some(parent))(folders[i]) {
        var c := folders[i].id;
        assert rank(c) < rank(parent);
        RankedStats(folders, files, c, stack1 + {c}, stack2 + {c}, rank);
        var r := StatsOf(folders, files, c, stack1 + {c});
        RankedChildStats(folders, files, parent, i + 1, stack1, stack2, AddStats(acc, r.size, r.count + 1), rank);
      } else {
        RankedChildStats(folders, files, parent, i + 1, stack1, stack2, acc, rank);
      }
    }
  }

  /** Reference totals of the live subfolders of `parent` from position `i` on: the
      size of each and its count plus one, each taken from its own `get_folder_stats`. */
  function SubfolderTotals(folders: seq<Folder>, files: seq<FileMetadata>, parent: string, i: nat): (int, int)
    requires i <= |folders|
    decreases |folders| - i
  {
    if i == |folders| then (0, 0)
    else
      var rest := SubfolderTotals(folders, files, parent, i + 1);
      if FolderVisibleIn(Some(parent))(folders[i]) then
        match FolderStats(folders, files, folders[i].id)
        case Stats(size, count) => (rest.0 + size, rest.1 + count + 1)
        case Diverges => rest
      else rest
  }

  lemma {:induction false} RankedFold(folders: seq<Folder>, files: seq<FileMetadata>, parent: string, i: nat,
                                      stack: set<string>, acc: Stats, rank: string -> nat)
    requires i <= |folders| && acc.Stats?
    requires Ranked(folders, rank) && StackAbove(stack, rank, parent)
    ensures ChildStats(folders, files, parent, i, stack, acc) ==
      AddStats(acc, SubfolderTotals(folders, files, parent, i).0, SubfolderTotals(folders, files, parent, i).1)
    decreases |folders| - i
  {
    if i < |folders| {
      if FolderVisibleIn(Some(parent))(folders[i]) {
        var c := folders[i].id;
        assert rank(c) < rank(parent);
        RankedStats(folders, files, c, stack + {c}, {c}, rank);
        var r := StatsOf(folders, files, c, stack + {c});
        RankedFold(folders, files, parent, i + 1, stack, AddStats(acc, r.size, r.count + 1), rank);
      } else {
        RankedFold(folders, files, parent, i + 1, stack, acc, rank);
      }
    }
  }

  /** The recursion of `calculate_stats_recursive` on a store without parent cycles:
      a folder's statistics are the size and number of its live files plus, for each
      live subfolder, that subfolder's own statistics and one for the subfolder. */
  lemma StatsRecurrence(folders: seq<Folder>, files: seq<FileMetadata>, id: string, rank: string -> nat)
    requires Ranked(folders, rank)
    ensures FolderStats(folders, files, id) ==
      Stats(SumSizes(DirectFiles(files, id)) + SubfolderTotals(folders, files, id, 0).0,
            |DirectFiles(files, id)| + SubfolderTotals(folders, files, id, 0).1)
  {
    var direct := DirectFiles(files, id);
    RankedFold(folders, files, id, 0, {id}, Stats(SumSizes(direct), |direct|), rank);
  }

  /** The fold diverges once it meets a live subfolder that is on the stack or whose
      own recursion diverges. */
  lemma {:induction false} ChildStatsDiverges(folders: seq<Folder>, files: seq<FileMetadata>, parent: string, i: nat,
                                              stack: set<string>, acc: Stats, j: nat)
    requires i <= j < |folders| && FolderVisibleIn(Some(parent))(folders[j])
    requires folders[j].id in stack || StatsOf(folders, files, folders[j].id, stack + {folders[j].id}).Diverges?
    ensures ChildStats(folders, files, parent, i, stack, acc).Diverges?
    decreases j - i
  {
    if i < j {
      var c := folders[i].id;
      if !FolderVisibleIn(Some(parent))(folders[i]) {
        ChildStatsDiverges(folders, files, parent, i + 1, stack, acc, j);
      } else if c !in stack && StatsOf(folders, files, c, stack + {c}).Stats? {
        var r := StatsOf(folders, files, c, stack + {c});
        ChildStatsDiverges(folders, files, parent, i + 1, stack, AddStats(acc, r.size, r.count + 1), j);
      }
    }
  }

  /** Two live folders each inside the other, which `move_folder` does not refuse:
      the statistics of either never return. */
  lemma TwoCycleDiverges(folders: seq<Folder>, files: seq<FileMetadata>, x: nat, y: nat)
    requires x < |folders| && y < |folders| && folders[x].id != folders[y].id
    requires !folders[x].trashed && folders[x].parentId == Some(folders[y].id)
    requires !folders[y].trashed && folders[y].parentId == Some(folders[x].id)
    ensures FolderStats(folders, files, folders[x].id).Diverges?
    ensures FolderStats(folders, files, folders[y].id).Diverges?
  {
    CycleSide(folders, files, x, y);
    CycleSide(folders, files, y, x);
  }

  lemma CycleSide(folders: seq<Folder>, files: seq<FileMetadata>, x: nat, y: nat)
    requires x < |folders| && y < |folders| && folders[x].id != folders[y].id
    requires !folders[x].trashed && folders[x].parentId == Some(folders[y].id)
    requires !folders[y].trashed && folders[y].parentId == Some(folders[x].id)
    ensures FolderStats(folders, files, folders[x].id).Diverges?
  {
    var a, b := folders[x].id, folders[y].id;
    var inner := DirectFiles(files, b);
    ChildStatsDiverges(folders, files, b, 0, {a} + {b}, Stats(SumSizes(inner), |inner|), x);
    var outer := DirectFiles(files, a);
    ChildStatsDiverges(folders, files, a, 0, {a}, Stats(SumSizes(outer), |outer|), y);
  }

  /** A folder with no live subfolders holds exactly its live files. */
  lemma {:induction false} LeafStats(folders: seq<Folder>, files: seq<FileMetadata>, id: string)
    requires forall d :: d in folders ==> !FolderVisibleIn(Some(id))(d)
    ensures FolderStats(folders, files, id) ==
      Stats(SumSizes(Filter(files, FileVisibleIn(Some(id)))), |Filter(files, FileVisibleIn(Some(id)))|)
  {
    var direct := DirectFiles(files, id);
    LeafChildStats(folders, files, id, 0, {id}, Stats(SumSizes(direct), |direct|));
  }

  lemma {:induction false} LeafChildStats(folders: seq<Folder>, files: seq<FileMetadata>, parent: string, i: nat,
                                          stack: set<string>, acc: Stats)
    requires i <= |folders|
    requires forall d :: d in folders ==> !FolderVisibleIn(Some(parent))(d)
    ensures ChildStats(folders, files, parent, i, stack, acc) == acc
    decreases |folders| - i
  {
    if i < |folders| {
      assert folders[i] in folders;
      LeafChildStats(folders, files, parent, i + 1, stack, acc);
    }
  }

  /** Two file lists that agree on what every folder other than `v` directly holds.
      (Which live files a folder directly holds is all the statistics look at.) */
  ghost predicate AgreeExcept(files1: seq<FileMetadata>, files2: seq<FileMetadata>, v: string)
  {
    forall x :: x != v ==> DirectFiles(files1, x) == DirectFiles(files2, x)
  }

  /** Changing only what a folder on the active stack holds, other than `id` itself,
      does not change the statistics of `id`: they never look inside that folder again. */
  lemma {:induction false} StatsFrame(folders: seq<Folder>, files1: seq<FileMetadata>, files2: seq<FileMetadata>,
                                      v: string, id: string, stack: set<string>)
    requires AgreeExcept(files1, files2, v) && v in stack && v != id
    ensures StatsOf(folders, files1, id, stack) == StatsOf(folders, files2, id, stack)
    decreases |FolderIdSet(folders) - stack|, 1, 0
  {
    var direct := DirectFiles(files1, id);
    assert DirectFiles(files2, id) == direct;
    ChildStatsFrame(folders, files1, files2, v, id, 0, stack, Stats(SumSizes(direct), |direct|));
  }

  lemma {:induction false} ChildStatsFrame(folders: seq<Folder>, files1: seq<FileMetadata>, files2: seq<FileMetadata>,
                                           v: string, parent: string, i: nat, stack: set<string>, acc: Stats)
    requires i <= |folders|
    requires AgreeExcept(files1, files2, v) && v in stack
    ensures ChildStats(folders, files1, parent, i, stack, acc) == ChildStats(folders, files2, parent, i, stack, acc)
    decreases |FolderIdSet(folders) - stack|, 0, |folders| - i
  {
    if i < |folders| {
      if !FolderVisibleIn(Some(parent))(folders[i]) {
        ChildStatsFrame(folders, files1, files2, v, parent, i + 1, stack, acc);
      } else {
        var c := folders[i].id;
        if c !in stack {
          assert c in FolderIdSet(folders) by { assert folders[i] in folders; }
          StackGrows(FolderIdSet(folders), stack, c);
          StatsFrame(folders, files1, files2, v, c, stack + {c});
          var r := StatsOf(folders, files1, c, stack + {c});
          if r.Stats? {
            ChildStatsFrame(folders, files1, files2, v, parent, i + 1, stack, AddStats(acc, r.size, r.count + 1));
          }
          ChildStatsStepFrame(folders, files1, files2, parent, i, stack, acc, r);
        }
      }
    }
  }

  /** What is already accumulated passes through the rest of the fold unchanged. */
  lemma {:induction false} ChildStatsShift(folders: seq<Folder>, files: seq<FileMetadata>, parent: string, i: nat,
                                           stack: set<string>, acc: Stats, size: int, count: int)
    requires i <= |folders|
    ensures ChildStats(folders, files, parent, i, stack, AddStats(acc, size, count))
            == AddStats(ChildStats(folders, files, parent, i, stack, acc), size, count)
    decreases |folders| - i
  {
    if i < |folders| {
      if !FolderVisibleIn(Some(parent))(folders[i]) {
        ChildStatsShift(folders, files, parent, i + 1, stack, acc, size, count);
      } else if folders[i].id !in stack {
        var r := StatsOf(folders, files, folders[i].id, stack + {folders[i].id});
        if r.Stats? {
          assert AddStats(AddStats(acc, size, count), r.size, r.count + 1)
              == AddStats(AddStats(acc, r.size, r.count + 1), size, count);
          ChildStatsShift(folders, files, parent, i + 1, stack, AddStats(acc, r.size, r.count + 1), size, count);
        }
      }
    }
  }

  /** Adding a live file to a folder (what `add_file` appends) raises that folder's
      statistics by exactly the file's size and one item. */
  lemma AddFileRaisesStats(folders: seq<Folder>, files: seq<FileMetadata>, f: FileMetadata, id: string)
    requires f.folderId == Some(id) && !f.trashed
    ensures FolderStats(folders, files + [f], id) == AddStats(FolderStats(folders, files, id), f.size, 1)
  {
    var direct := Filter(files, FileVisibleIn(Some(id)));
    var before := Stats(SumSizes(direct), |direct|);
    FilterSnoc(files, f, FileVisibleIn(Some(id)));
    assert FileVisibleIn(Some(id))(f);
    var direct' := Filter(files + [f], FileVisibleIn(Some(id)));
    assert direct' == direct + [f];
    assert direct'[..|direct'| - 1] == direct;
    var after := Stats(SumSizes(direct'), |direct'|);
    assert after == AddStats(before, f.size, 1);
    forall x | x != id
      ensures DirectFiles(files + [f], x) == DirectFiles(files, x)
    {
      FilterSnoc(files, f, FileVisibleIn(Some(x)));
      assert !FileVisibleIn(Some(x))(f);
    }
    calc {
      FolderStats(folders, files + [f], id);
      ChildStats(folders, files + [f], id, 0, {id}, after);
      { ChildStatsFrame(folders, files + [f], files, id, id, 0, {id}, after); }
      ChildStats(folders, files, id, 0, {id}, AddStats(before, f.size, 1));
      { ChildStatsShift(folders, files, id, 0, {id}, before, f.size, 1); }
      AddStats(ChildStats(folders, files, id, 0, {id}, before), f.size, 1);
      AddStats(FolderStats(folders, files, id), f.size, 1);
    }
  }

  // ---------------------------------------------------------------------------
  // The store
  // ---------------------------------------------------------------------------

  /** The in-memory `DataStore` behind the `Database` handle. */
  class Database {
    var folders: seq<Folder>
    var files: seq<FileMetadata>

    ghost predicate Valid()
      reads this
    {
      UniqueFolderIds(folders) && UniqueFileIds(files)
    }

    /** An empty store, as created when no metadata file exists yet. */
    constructor ()
      ensures Valid() && folders == [] && files == []
    {
      folders := [];
      files := [];
    }

    /** `get_unique_name`. */
    method UniqueName(parent: Option<string>, base: string, isFolder: bool) returns (name: string)
      ensures IsUniqueName(folders, files, parent, base, isFolder, name)
    {
      if !NameTaken(folders, files, parent, base, isFolder) {
        return base;
      }
      var i: nat := 1;
      ghost var bound := Pow10(MaxLength(KindNames(folders, files, isFolder)));
      while NameTaken(folders, files, parent, Candidate(base, i), isFolder)
        invariant i >= 1
        invariant forall j: nat :: 1 <= j < i ==> NameTaken(folders, files, parent, Candidate(base, j), isFolder)
        decreases bound - i
      {
        CandidateBound(folders, files, parent, base, isFolder, i);
        i := i + 1;
      }
      name := Candidate(base, i);
    }

    /** `create_folder`: appends a fresh folder under a unique name and returns its identifier. */
    method CreateFolder(name: string, parentId: Option<string>, id: string, now: int) returns (r: string)
      requires Valid() && !HasFolder(folders, id)
      modifies this
      ensures Valid() && r == id && files == old(files)
      ensures |folders| == |old(folders)| + 1 && folders[..|old(folders)|] == old(folders)
      ensures folders[|old(folders)|] == NewFolder(id, parentId, folders[|old(folders)|].name, now)
      ensures IsUniqueName(old(folders), old(files), parentId, name, true, folders[|old(folders)|].name)
    {
      var finalName := UniqueName(parentId, name, true);
      folders := folders + [NewFolder(id, parentId, finalName, now)];
      r := id;
    }

    /** `add_file`: appends a fresh file record under a unique name and returns it. */
    method AddFile(folderId: Option<string>, name: string, size: int, mimeType: string, messageId: int,
                   thumbnail: Option<string>, id: string, now: int) returns (f: FileMetadata)
      requires Valid() && !HasFile(files, id)
      modifies this
      ensures Valid() && folders == old(folders)
      ensures files == old(files) + [f]
      ensures f == NewFile(id, folderId, f.name, size, mimeType, messageId, thumbnail, now)
      ensures IsUniqueName(old(folders), old(files), folderId, name, false, f.name)
      ensures TotalUsage(files) == old(TotalUsage(files)) + size
    {
      var finalName := UniqueName(folderId, name, false);
      f := NewFile(id, folderId, finalName, size, mimeType, messageId, thumbnail, now);
      TotalUsageSnoc(files, f);
      files := files + [f];
    }

    /** `trash_item`: soft-deletes the folder or file with the identifier, stamping the time. */
    method TrashItem(id: string, isFolder: bool, now: int)
      requires Valid()
      modifies this
      ensures Valid()
      ensures isFolder ==> files == old(files) && UpdatedWhere(old(folders), folders, FolderIdIs(id), TrashFolder(now))
      ensures !isFolder ==> folders == old(folders) && UpdatedWhere(old(files), files, FileIdIs(id), TrashFile(now))
      ensures !isFolder ==>
        TotalUsage(files) == old(TotalUsage(files)) - (match GetFile(old(files), id) case Some(f) => Charge(f) case None => 0)
    {
      if isFolder {
        folders := UpdateFolder(folders, id, TrashFolder(now));
      } else {
        var k := FileIndex(files, id);
        if k.Some? {
          TotalUsageUpdate(files, k.value, TrashFile(now)(files[k.value]));
        }
        files := UpdateFile(files, id, TrashFile(now));
      }
    }

    /** `restore_item`: takes the folder or file with the identifier out of the trash. */
    method RestoreItem(id: string, isFolder: bool)
      requires Valid()
      modifies this
      ensures Valid()
      ensures isFolder ==> files == old(files) && UpdatedWhere(old(folders), folders, FolderIdIs(id), RestoreFolder())
      ensures !isFolder ==> folders == old(folders) && UpdatedWhere(old(files), files, FileIdIs(id), RestoreFile())
      ensures !isFolder ==>
        TotalUsage(files) == old(TotalUsage(files)) + (match GetFile(old(files), id) case Some(f) => (if f.trashed then f.size else 0) case None => 0)
    {
      if isFolder {
        folders := UpdateFolder(folders, id, RestoreFolder());
      } else {
        var k := FileIndex(files, id);
        if k.Some? {
          TotalUsageUpdate(files, k.value, RestoreFile()(files[k.value]));
        }
        files := UpdateFile(files, id, RestoreFile());
      }
    }

    /** `delete_file`: removes every record with the identifier; reports whether there was one. */
    method DeleteFile(id: string) returns (deleted: bool)
      requires Valid()
      modifies this
      ensures Valid() && folders == old(folders)
      ensures files == Filter(old(files), FileIdNotIn([id]))
      ensures deleted <==> HasFile(old(files), id)
      ensures !HasFile(files, id)
    {
      var before := |files|;
      FilterShorter(files, FileIdNotIn([id]));
      FilterUniqueFiles(files, FileIdNotIn([id]));
      files := Filter(files, FileIdNotIn([id]));
      deleted := |files| < before;
      assert deleted ==> HasFile(old(files), id);
      assert HasFile(old(files), id) ==> deleted by {
        if HasFile(old(files), id) {
          var i :| 0 <= i < |old(files)| && old(files)[i].id == id;
          assert old(files)[i] in old(files);
        }
      }
    }

    /** `delete_folder`: removes the folder and every file record directly inside it,
        and returns those records for deletion on Telegram. Subfolders stay. */
    method DeleteFolder(id: string) returns (deleted: seq<FileMetadata>)
      requires Valid()
      modifies this
      ensures Valid()
      ensures deleted == Filter(old(files), FileInFolder(id))
      ensures files == Filter(old(files), FileNotInFolder(id))
      ensures folders == Filter(old(folders), FolderIdNotIn([id]))
      ensures multiset(deleted) + multiset(files) == multiset(old(files))
      ensures !HasFolder(folders, id)
    {
      deleted := Filter(files, FileInFolder(id));
      FilterPartition(files, FileInFolder(id), FileNotInFolder(id));
      FilterUniqueFiles(files, FileNotInFolder(id));
      FilterUniqueFolders(folders, FolderIdNotIn([id]));
      files := Filter(files, FileNotInFolder(id));
      folders := Filter(folders, FolderIdNotIn([id]));
    }

    /** `rename_file`. */
    method RenameFile(id: string, newName: string) returns (found: bool)
      requires Valid()
      modifies this
      ensures Valid() && folders == old(folders)
      ensures found == HasFile(old(files), id)
      ensures UpdatedWhere(old(files), files, FileIdIs(id), RenameFileTo(newName))
    {
      found := FileIndex(files, id).Some?;
      files := UpdateFile(files, id, RenameFileTo(newName));
    }

    /** `move_file`: new parent and new name in one step; no clash check. */
    method MoveFile(id: string, target: Option<string>, newName: string) returns (found: bool)
      requires Valid()
      modifies this
      ensures Valid() && folders == old(folders)
      ensures found == HasFile(old(files), id)
      ensures UpdatedWhere(old(files), files, FileIdIs(id), MoveFileTo(target, newName))
    {
      found := FileIndex(files, id).Some?;
      files := UpdateFile(files, id, MoveFileTo(target, newName));
    }

    /** `move_folder`: refuses only a move into the folder itself; deeper cycles are not checked. */
    method MoveFolder(id: string, target: Option<string>, newName: string) returns (moved: bool)
      requires Valid()
      modifies this
      ensures Valid() && files == old(files)
      ensures target == Some(id) ==> !moved && folders == old(folders)
      ensures target != Some(id) ==>
        moved == HasFolder(old(folders), id) && UpdatedWhere(old(folders), folders, FolderIdIs(id), MoveFolderTo(target, newName))
    {
      if target == Some(id) {
        return false;
      }
      moved := FolderIndex(folders, id).Some?;
      folders := UpdateFolder(folders, id, MoveFolderTo(target, newName));
    }

    /** `rename_folder`. */
    method RenameFolder(id: string, newName: string) returns (found: bool)
      requires Valid()
      modifies this
      ensures Valid() && files == old(files)
      ensures found == HasFolder(old(folders), id)
      ensures UpdatedWhere(old(folders), folders, FolderIdIs(id), RenameFolderTo(newName))
    {
      found := FolderIndex(folders, id).Some?;
      folders := UpdateFolder(folders, id, RenameFolderTo(newName));
    }

    /** `update_folder_metadata`. */
    method UpdateFolderMetadata(id: string, u: MetadataUpdate, now: int) returns (found: bool)
      requires Valid()
      modifies this
      ensures Valid() && files == old(files)
      ensures found == HasFolder(old(folders), id)
      ensures UpdatedWhere(old(folders), folders, FolderIdIs(id), ApplyMetadata(u, now))
    {
      found := FolderIndex(folders, id).Some?;
      folders := UpdateFolder(folders, id, ApplyMetadata(u, now));
    }

    /** `toggle_star`. */
    method ToggleStar(id: string, isFolder: bool) returns (found: bool)
      requires Valid()
      modifies this
      ensures Valid()
      ensures isFolder ==>
        found == HasFolder(old(folders), id) && files == old(files) && UpdatedWhere(old(folders), folders, FolderIdIs(id), ToggleFolderStar())
      ensures !isFolder ==>
        found == HasFile(old(files), id) && folders == old(folders) && UpdatedWhere(old(files), files, FileIdIs(id), ToggleFileStar())
    {
      if isFolder {
        found := FolderIndex(folders, id).Some?;
        folders := UpdateFolder(folders, id, ToggleFolderStar());
      } else {
        found := FileIndex(files, id).Some?;
        files := UpdateFile(files, id, ToggleFileStar());
      }
    }

    /** `delete_files_by_ids`: drops every record whose identifier is listed. */
    method DeleteFilesByIds(ids: seq<string>)
      requires Valid()
      modifies this
      ensures Valid() && folders == old(folders)
      ensures files == Filter(old(files), FileIdNotIn(ids))
      ensures forall f :: f in files <==> f in old(files) && f.id !in ids
    {
      FilterUniqueFiles(files, FileIdNotIn(ids));
      FilterMembers(files, FileIdNotIn(ids));
      files := Filter(files, FileIdNotIn(ids));
    }

    /** `move_file_to_sync_folder`: the first record for the message moves into the
        target folder, but only if it sits at the root. */
    method MoveFileToSyncFolder(messageId: int, target: string)
      requires Valid()
      modifies this
      ensures Valid() && folders == old(folders)
      ensures match MessageIndex(old(files), messageId)
        case Some(k) =>
          files == if old(files)[k].folderId.None? then old(files)[k := old(files)[k].(folderId := Some(target))] else old(files)
        case None => files == old(files)
    {
      match MessageIndex(files, messageId)
      case Some(k) =>
        if files[k].folderId.None? {
          files := files[k := files[k].(folderId := Some(target))];
        }
      case None =>
    }

    /** `cleanup_trash`: permanently removes trash entries older than `days` days, and
        with each expired folder every file record directly inside it; returns the
        removed records, expired files first, then folder contents folder by folder. */
    method CleanupTrash(days: int, now: int) returns (deleted: seq<FileMetadata>)
      requires Valid()
      modifies this
      ensures Valid()
      ensures folders == Filter(old(folders), FolderNotExpired(TrashLimit(now, days)))
      ensures files == Filter(Filter(old(files), FileNotExpired(TrashLimit(now, days))),
                              FileOutside(ExpiredFolderIds(old(folders), TrashLimit(now, days))))
      ensures deleted == Filter(old(files), FileExpired(TrashLimit(now, days))) +
                         Sweep(Filter(old(files), FileNotExpired(TrashLimit(now, days))),
                               ExpiredFolderIds(old(folders), TrashLimit(now, days))).0
      ensures multiset(deleted) + multiset(files) == multiset(old(files))
    {
      var limit := TrashLimit(now, days);
      var all := files;
      // expired files
      var toRemove := FileIds(Filter(all, FileExpired(limit)));
      deleted := CollectExpired(all, limit);
      RetainByExpiredFileIds(all, limit);
      FilterPartition(all, FileExpired(limit), FileNotExpired(limit));
      FilterUniqueFiles(all, FileNotExpired(limit));
      files := Filter(all, FileIdNotIn(toRemove));
      // contents of expired folders
      var kept := files;
      assert kept == Filter(all, FileNotExpired(limit));
      var fids := ExpiredFolderIds(folders, limit);
      var swept, left := SweepFolders(kept, fids);
      SweepRemaining(kept, fids);
      SweepPartition(kept, fids);
      FilterUniqueFiles(kept, FileOutside(fids));
      assert multiset(deleted) + multiset(kept) == multiset(all);
      assert multiset(swept) + multiset(left) == multiset(kept);
      assert multiset(deleted + swept) == multiset(deleted) + multiset(swept);
      deleted := deleted + swept;
      files := left;
      // expired folders
      RetainByExpiredFolderIds(folders, limit);
      FilterUniqueFolders(folders, FolderNotExpired(limit));
      folders := Filter(folders, FolderIdNotIn(fids));
      assert files == Filter(Filter(old(files), FileNotExpired(limit)), FileOutside(fids));
      assert deleted == Filter(old(files), FileExpired(limit)) + Sweep(Filter(old(files), FileNotExpired(limit)), fids).0;
    }
  }

  /** First half of `cleanup_trash`: the identifiers of the expired files are
      collected, then each is looked up again and its record copied out. */
  method CollectExpired(files: seq<FileMetadata>, limit: int) returns (found: seq<FileMetadata>)
    requires UniqueFileIds(files)
    ensures found == Filter(files, FileExpired(limit))
  {
    var expired := Filter(files, FileExpired(limit));
    var ids := FileIds(expired);
    found := [];
    for k := 0 to |ids|
      invariant found == expired[..k]
    {
      var idx := FileIndex(files, ids[k]);
      FileIndexOfMember(files, expired[k]);
      found := found + [files[idx.value]];
      assert expired[..k + 1] == expired[..k] + [expired[k]];
    }
    assert expired[..|ids|] == expired;
  }

  /** Second half of `cleanup_trash`: the files directly inside each expired folder
      are moved out of the list, folder after folder. */
  method SweepFolders(files: seq<FileMetadata>, fids: seq<string>) returns (swept: seq<FileMetadata>, left: seq<FileMetadata>)
    ensures (swept, left) == Sweep(files, fids)
  {
    swept, left := [], files;
    for k := 0 to |fids|
      invariant (swept, left) == Sweep(files, fids[..k])
    {
      assert fids[..k + 1][..k] == fids[..k];
      swept := swept + Filter(left, FileInFolder(fids[k]));
      left := Filter(left, FileNotInFolder(fids[k]));
    }
    assert fids[..|fids|] == fids;
  }

  /** With unique identifiers, dropping the records whose identifier is among the
      expired ones drops exactly the expired records. */
  lemma RetainByExpiredFileIds(files: seq<FileMetadata>, limit: int)
    requires UniqueFileIds(files)
    ensures Filter(files, FileIdNotIn(FileIds(Filter(files, FileExpired(limit))))) == Filter(files, FileNotExpired(limit))
  {
    var expired := Filter(files, FileExpired(limit));
    var ids := FileIds(expired);
    forall x | x in files
      ensures FileIdNotIn(ids)(x) == FileNotExpired(limit)(x)
    {
      FilterMember(files, FileExpired(limit), x);
      if x.id in ids {
        var k :| 0 <= k < |ids| && ids[k] == x.id;
        SameIdSameFile(files, x, expired[k]);
      }
    }
    FilterCongruent(files, FileIdNotIn(ids), FileNotExpired(limit));
  }

  lemma RetainByExpiredFolderIds(folders: seq<Folder>, limit: int)
    requires UniqueFolderIds(folders)
    ensures Filter(folders, FolderIdNotIn(ExpiredFolderIds(folders, limit))) == Filter(folders, FolderNotExpired(limit))
  {
    var expired := Filter(folders, FolderExpired(limit));
    var ids := FolderIds(expired);
    forall x | x in folders
      ensures FolderIdNotIn(ids)(x) == FolderNotExpired(limit)(x)
    {
      FilterMember(folders, FolderExpired(limit), x);
      if x.id in ids {
        var k :| 0 <= k < |ids| && ids[k] == x.id;
        SameIdSameFolder(folders, x, expired[k]);
      }
    }
    FilterCongruent(folders, FolderIdNotIn(ids), FolderNotExpired(limit));
  }

  lemma SameIdSameFile(files: seq<FileMetadata>, x: FileMetadata, y: FileMetadata)
    requires UniqueFileIds(files) && x in files && y in files && x.id == y.id
    ensures x == y
  {
  }

  lemma SameIdSameFolder(folders: seq<Folder>, x: Folder, y: Folder)
    requires UniqueFolderIds(folders) && x in folders && y in folders && x.id == y.id
    ensures x == y
  {
  }

  lemma {:induction false} FilterUniqueFiles(files: seq<FileMetadata>, p: FileMetadata -> bool)
    requires UniqueFileIds(files)
    ensures UniqueFileIds(Filter(files, p))
  {
    if files != [] {
      var n := |files| - 1;
      var init := files[..n];
      FilterUniqueFiles(init, p);
      var r := Filter(init, p);
      forall i | 0 <= i < |r|
        ensures r[i].id != files[n].id
      {
        var j :| 0 <= j < n && init[j] == r[i];
      }
    }
  }

  lemma {:induction false} FilterUniqueFolders(folders: seq<Folder>, p: Folder -> bool)
    requires UniqueFolderIds(folders)
    ensures UniqueFolderIds(Filter(folders, p))
  {
    if folders != [] {
      var n := |folders| - 1;
      var init := folders[..n];
      FilterUniqueFolders(init, p);
      var r := Filter(init, p);
      forall i | 0 <= i < |r|
        ensures r[i].id != folders[n].id
      {
        var j :| 0 <= j < n && init[j] == r[i];
      }
    }
  }
}

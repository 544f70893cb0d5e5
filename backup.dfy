/** Whole-drive backup and folder download: which records go into the backup and
    under which relative path, how the backup is cut into zip archives of at most
    1.9 GB, and the breadth-first walk that downloads one folder tree. Telegram
    downloads, the file system and progress events are not modelled; the plans
    the commands act on are. */
module Backup {
  import opened Common
  import opened Store

  // ---------------------------------------------------------------------------
  // The identifier-to-folder map of download_all
  // ---------------------------------------------------------------------------

  /** The map built by inserting every folder under its identifier in list order:
      for a repeated identifier the last folder wins. */
  function FolderMap(folders: seq<Folder>): map<string, Folder>
  {
    if folders == [] then map[]
    else FolderMap(folders[..|folders| - 1])[folders[|folders| - 1].id := folders[|folders| - 1]]
  }

  /** The map holds the identifiers of the list, each under the last folder that has it. */
  lemma {:induction false} FolderMapSpec(folders: seq<Folder>, id: string)
    ensures id in FolderMap(folders) <==> HasFolder(folders, id)
    ensures id in FolderMap(folders) ==>
      exists k :: (0 <= k < |folders| && folders[k] == FolderMap(folders)[id] &&
                   folders[k].id == id && forall j :: k < j < |folders| ==> folders[j].id != id)
  {
    if folders != [] {
      var n := |folders| - 1;
      var init := folders[..n];
      FolderMapSpec(init, id);
      assert forall k :: 0 <= k < n ==> init[k] == folders[k];
      if folders[n].id != id && HasFolder(folders, id) {
        var i :| 0 <= i < |folders| && folders[i].id == id;
        assert init[i].id == id;
      }
    }
  }

  /** The loop that fills the map. */
  method BuildFolderMap(folders: seq<Folder>) returns (m: map<string, Folder>)
    ensures m == FolderMap(folders)
  {
    m := map[];
    for k := 0 to |folders|
      invariant m == FolderMap(folders[..k])
    {
      assert folders[..k + 1][..k] == folders[..k];
      m := m[folders[k].id := folders[k]];
    }
    assert folders[..|folders|] == folders;
  }

  /** With unique identifiers the map holds exactly the folder of each identifier. */
  lemma FolderMapOfUnique(folders: seq<Folder>, k: nat)
    requires UniqueFolderIds(folders) && k < |folders|
    ensures folders[k].id in FolderMap(folders) && FolderMap(folders)[folders[k].id] == folders[k]
  {
    FolderMapSpec(folders, folders[k].id);
  }

  /** Every value of the map sits under its own identifier. */
  lemma {:induction false} FolderMapKeys(folders: seq<Folder>)
    ensures forall id :: id in FolderMap(folders) ==> FolderMap(folders)[id].id == id
  {
    if folders != [] {
      FolderMapKeys(folders[..|folders| - 1]);
    }
  }

  // ---------------------------------------------------------------------------
  // The ancestor walk
  // ---------------------------------------------------------------------------

  /** Outcome of walking up from a folder identifier: the names of the known
      ancestors from the top down, a trashed ancestor, or a revisit. A revisit means
      the parent links loop without a trashed folder on the loop; the walk then
      repeats the same identifiers for ever, so `Cycle` is exactly the case where
      download_all does not terminate. */
  datatype Walk = Names(names: seq<string>) | TrashedAncestor | Cycle

  function Extend(w: Walk, suffix: seq<string>): Walk
  {
    match w
    case Names(ns) => Names(ns + suffix)
    case _ => w
  }

  /** The walk from `curr`; `seen` holds the identifiers already walked through. It
      stops at no parent or at a parent missing from the map, and at the first
      trashed folder. */
  function Ancestors(m: map<string, Folder>, curr: Option<string>, seen: set<string>): Walk
    decreases |m.Keys - seen|
  {
    if curr.None? || curr.value !in m then Names([])
    else
      var f := m[curr.value];
      if f.trashed then TrashedAncestor
      else if curr.value in seen then Cycle
      else
        StackGrows(m.Keys, seen, curr.value);
        Extend(Ancestors(m, f.parentId, seen + {curr.value}), [f.name])
  }

  /** The walk's first step, case by case. */
  lemma AncestorsAt(m: map<string, Folder>, curr: Option<string>, seen: set<string>)
    ensures curr.None? || curr.value !in m ==> Ancestors(m, curr, seen) == Names([])
    ensures curr.Some? && curr.value in m && m[curr.value].trashed ==> Ancestors(m, curr, seen) == TrashedAncestor
    ensures curr.Some? && curr.value in m && !m[curr.value].trashed && curr.value in seen ==>
      Ancestors(m, curr, seen) == Cycle
    ensures curr.Some? && curr.value in m && !m[curr.value].trashed && curr.value !in seen ==>
      Ancestors(m, curr, seen) == Extend(Ancestors(m, m[curr.value].parentId, seen + {curr.value}), [m[curr.value].name])
  {
  }

  function Reversed<T>(s: seq<T>): (r: seq<T>)
    ensures |r| == |s|
  {
    if s == [] then [] else [s[|s| - 1]] + Reversed(s[..|s| - 1])
  }

  lemma ReversedSnoc<T>(s: seq<T>, x: T)
    ensures Reversed(s + [x]) == [x] + Reversed(s)
  {
    assert (s + [x])[..|s|] == s;
  }

  lemma WalkStep(w: Walk, name: string, temp: seq<string>)
    ensures Extend(Extend(w, [name]), Reversed(temp)) == Extend(w, Reversed(temp + [name]))
  {
    ReversedSnoc(temp, name);
    if w.Names? {
      assert (w.names + [name]) + Reversed(temp) == w.names + ([name] + Reversed(temp));
    }
  }

  /** One turn of the walk loop through a live folder keeps the walk's outcome:
      the folder was not walked through before, and its name joins the parts. */
  lemma WalkTurn(m: map<string, Folder>, w0: Walk, curr: Option<string>, seen: set<string>, temp: seq<string>)
    requires !w0.Cycle? && w0 == Extend(Ancestors(m, curr, seen), Reversed(temp))
    requires curr.Some? && curr.value in m && !m[curr.value].trashed
    ensures curr.value !in seen
    ensures w0 == Extend(Ancestors(m, m[curr.value].parentId, seen + {curr.value}), Reversed(temp + [m[curr.value].name]))
  {
    AncestorsAt(m, curr, seen);
    WalkStep(Ancestors(m, m[curr.value].parentId, seen + {curr.value}), m[curr.value].name, temp);
  }

  /** The `while let Some(pid) = curr` loop of download_all, for a walk that ends.
      `valid` is false exactly when a trashed ancestor stops it; `parts` are the
      ancestor names, top first (the reversed `temp_parts`). */
  method WalkAncestors(m: map<string, Folder>, start: Option<string>) returns (valid: bool, parts: seq<string>)
    requires !Ancestors(m, start, {}).Cycle?
    ensures valid <==> Ancestors(m, start, {}).Names?
    ensures valid ==> parts == Ancestors(m, start, {}).names
  {
    ghost var w0 := Ancestors(m, start, {});
    valid := true;
    var temp: seq<string> := [];
    var curr := start;
    ghost var seen: set<string> := {};
    assert temp == Reversed(temp);
    while curr.Some?
      invariant valid && seen <= m.Keys
      invariant w0 == Extend(Ancestors(m, curr, seen), Reversed(temp))
      decreases |m.Keys - seen|, if curr.Some? then 1 else 0
    {
      var pid := curr.value;
      if pid in m {
        var f := m[pid];
        if f.trashed {
          AncestorsAt(m, curr, seen);
          valid := false;
          break;
        }
        WalkTurn(m, w0, curr, seen, temp);
        StackGrows(m.Keys, seen, pid);
        temp := temp + [f.name];
        seen := seen + {pid};
        curr := f.parentId;
      } else {
        AncestorsAt(m, curr, seen);
        AncestorsAt(m, None, seen);
        curr := None;
      }
    }
    AncestorsAt(m, curr, seen);
    parts := if valid then Reversed(temp) else [];
  }

  /** `curr` leads through `chain`, nearest folder first, to a missing or unknown parent. */
  ghost predicate ChainFrom(m: map<string, Folder>, curr: Option<string>, chain: seq<Folder>)
    decreases |chain|
  {
    if chain == [] then curr.None? || curr.value !in m
    else curr.Some? && curr.value in m && m[curr.value] == chain[0] && ChainFrom(m, chain[0].parentId, chain[1..])
  }

  /** Names of a chain from the top down. */
  function TopDownNames(chain: seq<Folder>): seq<string>
  {
    if chain == [] then [] else TopDownNames(chain[1..]) + [chain[0].name]
  }

  /** Against an acyclic chain of known ancestors the walk reports a trashed
      ancestor exactly when the chain has one, and otherwise their names top down. */
  lemma {:induction false} WalkFollowsChain(m: map<string, Folder>, curr: Option<string>, seen: set<string>,
                                            chain: seq<Folder>)
    requires forall k :: k in m ==> m[k].id == k
    requires ChainFrom(m, curr, chain)
    requires forall i, j :: 0 <= i < j < |chain| ==> chain[i].id != chain[j].id
    requires forall i :: 0 <= i < |chain| ==> chain[i].id !in seen
    ensures (exists i :: 0 <= i < |chain| && chain[i].trashed) ==> Ancestors(m, curr, seen) == TrashedAncestor
    ensures (forall i :: 0 <= i < |chain| ==> !chain[i].trashed) ==> Ancestors(m, curr, seen) == Names(TopDownNames(chain))
    decreases |chain|
  {
    if chain != [] {
      var f := chain[0];
      assert f.id == curr.value;
      if !f.trashed {
        var rest := chain[1..];
        assert forall i :: 0 <= i < |rest| ==> rest[i] == chain[i + 1];
        WalkFollowsChain(m, f.parentId, seen + {f.id}, rest);
        if exists i :: 0 <= i < |chain| && chain[i].trashed {
          var i :| 0 <= i < |chain| && chain[i].trashed;
          assert rest[i - 1].trashed;
        }
      }
    }
  }

  // ---------------------------------------------------------------------------
  // Backup entries
  // ---------------------------------------------------------------------------

  datatype Entry = Entry(name: string, relativePath: seq<string>, size: int, messageId: int)

  /** A record goes into the backup when it is live and no known ancestor is trashed. */
  function BackedIn(m: map<string, Folder>): FileMetadata -> bool
  {
    (f: FileMetadata) => !f.trashed && Ancestors(m, f.folderId, {}).Names?
  }

  function EntryFor(m: map<string, Folder>, f: FileMetadata): Entry
  {
    var w := Ancestors(m, f.folderId, {});
    Entry(f.name, (if w.Names? then w.names else []) + [f.name], f.size, f.messageId)
  }

  /** The entries download_all collects, in record order. */
  function Entries(m: map<string, Folder>, files: seq<FileMetadata>): (r: seq<Entry>)
    ensures |r| == |Filter(files, BackedIn(m))|
  {
    var kept := Filter(files, BackedIn(m));
    seq(|kept|, i requires 0 <= i < |kept| => EntryFor(m, kept[i]))
  }

  /** Every live record whose walk ends: download_all terminates on these. */
  ghost predicate WalksEnd(m: map<string, Folder>, files: seq<FileMetadata>)
  {
    forall i :: 0 <= i < |files| && !files[i].trashed ==> !Ancestors(m, files[i].folderId, {}).Cycle?
  }

  lemma EntriesSnoc(m: map<string, Folder>, files: seq<FileMetadata>, k: nat)
    requires k < |files|
    ensures BackedIn(m)(files[k]) ==> Entries(m, files[..k + 1]) == Entries(m, files[..k]) + [EntryFor(m, files[k])]
    ensures !BackedIn(m)(files[k]) ==> Entries(m, files[..k + 1]) == Entries(m, files[..k])
  {
    TakeSnoc(files, k);
    FilterSnoc(files[..k], files[k], BackedIn(m));
  }

  /** The entry loop of download_all: skips trashed records, walks up from each
      other record, and keeps it with its path when no trashed ancestor was met. */
  method CollectEntries(folders: seq<Folder>, files: seq<FileMetadata>) returns (entries: seq<Entry>)
    requires WalksEnd(FolderMap(folders), files)
    ensures entries == Entries(FolderMap(folders), files)
  {
    var m := BuildFolderMap(folders);
    entries := [];
    for k := 0 to |files|
      invariant entries == Entries(m, files[..k])
    {
      var file := files[k];
      EntriesSnoc(m, files, k);
      if !file.trashed {
        var valid, parts := WalkAncestors(m, file.folderId);
        if valid {
          entries := entries + [Entry(file.name, parts + [file.name], file.size, file.messageId)];
        }
      }
    }
    assert files[..|files|] == files;
  }

  /** An entry is in the backup exactly when it is the entry of a live record whose
      walk met no trashed ancestor. */
  lemma EntriesMember(m: map<string, Folder>, files: seq<FileMetadata>, e: Entry)
    ensures e in Entries(m, files) <==> exists f :: f in files && BackedIn(m)(f) && e == EntryFor(m, f)
  {
    var kept := Filter(files, BackedIn(m));
    FilterMembers(files, BackedIn(m));
    if exists f :: f in files && BackedIn(m)(f) && e == EntryFor(m, f) {
      var f :| f in files && BackedIn(m)(f) && e == EntryFor(m, f);
      assert f in kept;
      var i :| 0 <= i < |kept| && kept[i] == f;
      assert Entries(m, files)[i] == e;
    }
  }

  /** For a live record whose known ancestors form an acyclic chain: it is backed up
      exactly when none of them is trashed, and then under the ancestor names top
      down followed by its own name. */
  lemma EntryOfChain(folders: seq<Folder>, f: FileMetadata, chain: seq<Folder>)
    requires !f.trashed
    requires ChainFrom(FolderMap(folders), f.folderId, chain)
    requires forall i, j :: 0 <= i < j < |chain| ==> chain[i].id != chain[j].id
    ensures BackedIn(FolderMap(folders))(f) <==> forall i :: 0 <= i < |chain| ==> !chain[i].trashed
    ensures BackedIn(FolderMap(folders))(f) ==>
      EntryFor(FolderMap(folders), f).relativePath == TopDownNames(chain) + [f.name]
  {
    FolderMapKeys(folders);
    WalkFollowsChain(FolderMap(folders), f.folderId, {}, chain);
  }

  // ---------------------------------------------------------------------------
  // Packets
  // ---------------------------------------------------------------------------

  /** Archives are closed before they would pass 1.9 GB. */
  const Limit: nat := 1_900_000_000

  function PacketSize(p: seq<Entry>): nat
  {
    if p == [] then 0 else PacketSize(p[..|p| - 1]) + AsU64(p[|p| - 1].size)
  }

  function Flatten(ps: seq<seq<Entry>>): seq<Entry>
  {
    if ps == [] then [] else Flatten(ps[..|ps| - 1]) + ps[|ps| - 1]
  }

  lemma FlattenSnoc(ps: seq<seq<Entry>>, p: seq<Entry>)
    ensures Flatten(ps + [p]) == Flatten(ps) + p
  {
    assert (ps + [p])[..|ps|] == ps;
  }

  lemma PacketSizeSnoc(p: seq<Entry>, e: Entry)
    ensures PacketSize(p + [e]) == PacketSize(p) + AsU64(e.size)
  {
    assert (p + [e])[..|p|] == p;
  }

  /** The packets a split must produce: together they are the entries in order, none
      is empty, one over the limit holds a single entry, and each packet but the
      last was closed only because the next entry would have pushed it over. */
  ghost predicate GoodSplit(entries: seq<Entry>, packets: seq<seq<Entry>>)
  {
    Flatten(packets) == entries &&
    (forall i :: 0 <= i < |packets| ==> packets[i] != []) &&
    (forall i :: 0 <= i < |packets| ==> PacketSize(packets[i]) > Limit ==> |packets[i]| == 1) &&
    (forall i :: 0 <= i < |packets| - 1 ==> PacketSize(packets[i]) + AsU64(packets[i + 1][0].size) > Limit)
  }

  /** Closed packets: none empty, one over the limit holds a single entry, and each
      but the last was closed because the next one's first entry did not fit. */
  ghost predicate Closed(packets: seq<seq<Entry>>)
  {
    (forall i :: 0 <= i < |packets| ==> packets[i] != []) &&
    (forall i :: 0 <= i < |packets| ==> PacketSize(packets[i]) > Limit ==> |packets[i]| == 1) &&
    (forall i :: 0 <= i < |packets| - 1 ==> PacketSize(packets[i]) + AsU64(packets[i + 1][0].size) > Limit)
  }

  /** The state of the packet loop after `k` entries: closed `packets` and the open
      packet `current`. */
  ghost predicate Split(entries: seq<Entry>, k: nat, packets: seq<seq<Entry>>, current: seq<Entry>)
  {
    k <= |entries| &&
    Flatten(packets) + current == entries[..k] &&
    Closed(packets) &&
    (PacketSize(current) > Limit ==> |current| == 1) &&
    (packets != [] && current != [] ==> PacketSize(packets[|packets| - 1]) + AsU64(current[0].size) > Limit) &&
    (current == [] ==> k == 0 && packets == [])
  }

  /** Closing a non-empty packet that respects the limit rule keeps the closed list good. */
  lemma ClosedSnoc(packets: seq<seq<Entry>>, p: seq<Entry>)
    requires Closed(packets) && p != [] && (PacketSize(p) > Limit ==> |p| == 1)
    requires packets != [] ==> PacketSize(packets[|packets| - 1]) + AsU64(p[0].size) > Limit
    ensures Closed(packets + [p])
  {
    var ps: seq<seq<Entry>> := packets + [p];
    forall i | 0 <= i < |ps|
      ensures ps[i] != [] && (PacketSize(ps[i]) > Limit ==> |ps[i]| == 1)
    {
      if i < |packets| {
        assert ps[i] == packets[i];
      } else {
        assert ps[i] == p;
      }
    }
    forall i | 0 <= i < |ps| - 1
      ensures PacketSize(ps[i]) + AsU64(ps[i + 1][0].size) > Limit
    {
      assert ps[i] == packets[i];
      if i < |packets| - 1 {
        assert ps[i + 1] == packets[i + 1];
      } else {
        assert ps[i + 1] == p;
      }
    }
  }

  /** The next entry does not fit: the open packet is closed and the entry opens a new one. */
  lemma SplitClose(entries: seq<Entry>, k: nat, packets: seq<seq<Entry>>, current: seq<Entry>)
    requires Split(entries, k, packets, current) && k < |entries| && current != []
    requires PacketSize(current) + AsU64(entries[k].size) > Limit
    ensures Split(entries, k + 1, packets + [current], [entries[k]])
    ensures PacketSize([entries[k]]) == AsU64(entries[k].size)
  {
    var e := entries[k];
    FlattenSnoc(packets, current);
    ClosedSnoc(packets, current);
    PacketSizeSnoc([], e);
    assert [] + [e] == [e];
    TakeSnoc(entries, k);
    assert Flatten(packets + [current]) + [e] == entries[..k + 1];
    assert (packets + [current])[|packets|] == current;
  }

  /** The next entry fits, or the packet is empty: it joins the open packet. */
  lemma SplitExtend(entries: seq<Entry>, k: nat, packets: seq<seq<Entry>>, current: seq<Entry>)
    requires Split(entries, k, packets, current) && k < |entries|
    requires current == [] || PacketSize(current) + AsU64(entries[k].size) <= Limit
    ensures Split(entries, k + 1, packets, current + [entries[k]])
    ensures PacketSize(current + [entries[k]]) == PacketSize(current) + AsU64(entries[k].size)
  {
    PacketSizeSnoc(current, entries[k]);
    TakeSnoc(entries, k);
    if current != [] {
      assert (current + [entries[k]])[0] == current[0];
    }
  }

  /** After the last entry the open packet, if any, is closed. */
  lemma SplitDone(entries: seq<Entry>, packets: seq<seq<Entry>>, current: seq<Entry>)
    requires Split(entries, |entries|, packets, current)
    ensures current == [] ==> GoodSplit(entries, packets)
    ensures current != [] ==> GoodSplit(entries, packets + [current])
  {
    assert entries[..|entries|] == entries;
    if current != [] {
      FlattenSnoc(packets, current);
      ClosedSnoc(packets, current);
    }
  }

  /** The packet loop's state: the closed packets, the open one and its size. */
  datatype Packing = Packing(packets: seq<seq<Entry>>, current: seq<Entry>, size: nat)

  /** One turn of the packet loop: close the open packet first when the entry would
      push it over the limit and the packet is not empty, then add the entry. */
  function AddEntry(p: Packing, e: Entry): Packing
  {
    if p.size + AsU64(e.size) > Limit && p.current != [] then Packing(p.packets + [p.current], [e], AsU64(e.size))
    else Packing(p.packets, p.current + [e], p.size + AsU64(e.size))
  }

  /** The loop over the remaining entries. */
  function Fill(p: Packing, es: seq<Entry>): Packing
    decreases |es|
  {
    if es == [] then p else Fill(AddEntry(p, es[0]), es[1..])
  }

  /** The packets of download_all: the filled packets, and the open one if not empty. */
  function Packets(entries: seq<Entry>): seq<seq<Entry>>
  {
    var p := Fill(Packing([], [], 0), entries);
    if p.current != [] then p.packets + [p.current] else p.packets
  }

  lemma FillNext(p: Packing, entries: seq<Entry>, k: nat)
    requires k < |entries|
    ensures Fill(p, entries[k..]) == Fill(AddEntry(p, entries[k]), entries[k + 1..])
  {
    assert entries[k..][0] == entries[k];
    assert entries[k..][1..] == entries[k + 1..];
  }

  /** The packet loop of download_all. The running total grows without bound here;
      see the README for the unsigned wrap-around it would need near 2^64. */
  method SplitPackets(entries: seq<Entry>) returns (packets: seq<seq<Entry>>)
    ensures packets == Packets(entries)
  {
    packets := [];
    var current: seq<Entry> := [];
    var currentSize: nat := 0;
    assert entries[0..] == entries;
    for k := 0 to |entries|
      invariant Fill(Packing(packets, current, currentSize), entries[k..]) == Fill(Packing([], [], 0), entries)
    {
      var e := entries[k];
      var size := AsU64(e.size);
      ghost var before := Packing(packets, current, currentSize);
      FillNext(before, entries, k);
      if currentSize + size > Limit && current != [] {
        packets := packets + [current];
        current := [];
        currentSize := 0;
      }
      current := current + [e];
      currentSize := currentSize + size;
      assert Packing(packets, current, currentSize) == AddEntry(before, e);
    }
    assert entries[|entries|..] == [];
    if current != [] {
      packets := packets + [current];
    }
  }

  /** Filling from a good state ends in a good state. (`== true` keeps each Split
      whole; FillStep carries the case analysis.) */
  lemma {:induction false} FillKeepsSplit(entries: seq<Entry>, k: nat, p: Packing)
    requires Split(entries, k, p.packets, p.current) == true && p.size == PacketSize(p.current)
    ensures Split(entries, |entries|, Fill(p, entries[k..]).packets, Fill(p, entries[k..]).current) == true
    decreases |entries| - k
  {
    if k == |entries| {
      assert entries[k..] == [];
    } else {
      FillNext(p, entries, k);
      FillStep(entries, k, p);
      FillKeepsSplit(entries, k + 1, AddEntry(p, entries[k]));
    }
  }

  /** One turn of the packet loop keeps the loop state good. */
  lemma FillStep(entries: seq<Entry>, k: nat, p: Packing)
    requires Split(entries, k, p.packets, p.current) == true && p.size == PacketSize(p.current) && k < |entries|
    ensures Split(entries, k + 1, AddEntry(p, entries[k]).packets, AddEntry(p, entries[k]).current) == true
    ensures AddEntry(p, entries[k]).size == PacketSize(AddEntry(p, entries[k]).current)
  {
    var e := entries[k];
    if p.size + AsU64(e.size) > Limit && p.current != [] {
      SplitClose(entries, k, p.packets, p.current);
    } else {
      SplitExtend(entries, k, p.packets, p.current);
    }
  }

  /** The packets download_all zips: together they are the entries in order, none
      is empty, one over the limit holds a single entry, and each but the last was
      closed only because the next entry would have pushed it over. */
  lemma PacketsGood(entries: seq<Entry>)
    ensures GoodSplit(entries, Packets(entries))
  {
    assert entries[0..] == entries;
    assert entries[..0] == [];
    FillKeepsSplit(entries, 0, Packing([], [], 0));
    var p := Fill(Packing([], [], 0), entries);
    SplitDone(entries, p.packets, p.current);
  }

  /** Name of archive `i` out of `total`. */
  function ZipName(i: nat, total: nat): string
  {
    if total > 1 then "Paperfold_Backup_Part_" + NatToString(i + 1) + ".zip" else "Paperfold_Backup.zip"
  }

  /** The number inside a part name reads back. */
  lemma ZipNumber(i: nat, total: nat)
    requires total > 1
    ensures |ZipName(i, total)| > 26
    ensures DigitsValue(ZipName(i, total)[22..|ZipName(i, total)| - 4]) == i + 1
  {
    var digits := NatToString(i + 1);
    var name := ZipName(i, total);
    assert name == "Paperfold_Backup_Part_" + digits + ".zip";
    assert name[22..|name| - 4] == digits;
    DigitsValueOfNatToString(i + 1);
  }

  /** Distinct archives of one backup get distinct names. */
  lemma ZipNamesDistinct(i: nat, j: nat, total: nat)
    requires i < total && j < total && i != j
    ensures ZipName(i, total) != ZipName(j, total)
  {
    ZipNumber(i, total);
    ZipNumber(j, total);
  }

  // ---------------------------------------------------------------------------
  // download_folder: breadth-first over the folder tree
  // ---------------------------------------------------------------------------

  /** A queued folder and the directory path created for it, below the base path. */
  datatype Job = Job(id: string, path: seq<string>)

  /** The subfolder map is keyed by the parent identifier, root-level folders under
      the empty string; trashed folders are included. */
  function ChildOf(id: string): Folder -> bool
  {
    (f: Folder) => UnwrapOr(f.parentId, "") == id
  }

  /** Likewise the file map, keyed by the folder identifier. */
  function FileOf(id: string): FileMetadata -> bool
  {
    (f: FileMetadata) => UnwrapOr(f.folderId, "") == id
  }

  /** The jobs queued after `j`: each subfolder, in list order, under `j`'s path
      joined with its name. */
  function ChildJobs(folders: seq<Folder>, j: Job): seq<Job>
  {
    if folders == [] then []
    else
      var f := folders[|folders| - 1];
      ChildJobs(folders[..|folders| - 1], j) + (if ChildOf(j.id)(f) then [Job(f.id, j.path + [f.name])] else [])
  }

  /** The folders processed, in order, when the queue starts as `queue`; `None`
      when more than `fuel` folders would be processed. A tree reachable through a
      parent cycle is processed for ever, and then no fuel suffices. */
  function Bfs(folders: seq<Folder>, queue: seq<Job>, fuel: nat): Option<seq<Job>>
    decreases fuel
  {
    if queue == [] then Some([])
    else if fuel == 0 then None
    else
      match Bfs(folders, queue[1..] + ChildJobs(folders, queue[0]), fuel - 1)
      case Some(rest) => Some([queue[0]] + rest)
      case None => None
  }

  /** The starting job: the first folder with the identifier, under its own name. */
  function RootJob(folders: seq<Folder>, id: string): (r: Option<Job>)
    ensures r.Some? <==> HasFolder(folders, id)
  {
    match Find(folders, FolderIdIs(id))
    case Some(root) => Some(Job(id, [root.name]))
    case None => None
  }

  /** The downloads a processed folder asks for: each of its records, in list
      order, under the folder's path joined with the record's name. */
  function FileJobs(files: seq<FileMetadata>, j: Job): seq<(FileMetadata, seq<string>)>
  {
    if files == [] then []
    else
      var f := files[|files| - 1];
      FileJobs(files[..|files| - 1], j) + (if FileOf(j.id)(f) then [(f, j.path + [f.name])] else [])
  }

  function Plan(files: seq<FileMetadata>, visited: seq<Job>): seq<(FileMetadata, seq<string>)>
  {
    if visited == [] then [] else Plan(files, visited[..|visited| - 1]) + FileJobs(files, visited[|visited| - 1])
  }

  lemma PlanSnoc(files: seq<FileMetadata>, visited: seq<Job>, j: Job)
    ensures Plan(files, visited + [j]) == Plan(files, visited) + FileJobs(files, j)
  {
    assert (visited + [j])[..|visited|] == visited;
  }

  lemma BfsStep(folders: seq<Folder>, queue: seq<Job>, fuel: nat)
    requires queue != [] && Bfs(folders, queue, fuel).Some?
    ensures fuel > 0
    ensures Bfs(folders, queue[1..] + ChildJobs(folders, queue[0]), fuel - 1).Some?
    ensures Bfs(folders, queue, fuel).value ==
      [queue[0]] + Bfs(folders, queue[1..] + ChildJobs(folders, queue[0]), fuel - 1).value
  {
  }

  /** The folders processed so far followed by those the queue still leads to are
      the whole traversal. */
  ghost predicate Drains(folders: seq<Folder>, visited: seq<Job>, queue: seq<Job>, fuel: nat, target: seq<Job>)
  {
    Bfs(folders, queue, fuel).Some? && visited + Bfs(folders, queue, fuel).value == target
  }

  /** One turn of the queue: the front job is processed and the rest follows. */
  lemma DrainStep(folders: seq<Folder>, visited: seq<Job>, queue: seq<Job>, fuel: nat, target: seq<Job>)
    requires queue != [] && Drains(folders, visited, queue, fuel, target) == true
    ensures fuel > 0 && Drains(folders, visited + [queue[0]], queue[1..] + ChildJobs(folders, queue[0]), fuel - 1, target) == true
  {
    BfsStep(folders, queue, fuel);
  }

  /** One turn of the loop below keeps both of its invariants. */
  lemma DrainTurn(folders: seq<Folder>, files: seq<FileMetadata>, visited: seq<Job>, queue: seq<Job>, fuel: nat,
                  target: seq<Job>, downloads: seq<(FileMetadata, seq<string>)>)
    requires queue != [] && Drains(folders, visited, queue, fuel, target) == true
    requires downloads == Plan(files, visited)
    ensures fuel > 0 && Drains(folders, visited + [queue[0]], queue[1..] + ChildJobs(folders, queue[0]), fuel - 1, target) == true
    ensures downloads + FileJobs(files, queue[0]) == Plan(files, visited + [queue[0]])
  {
    DrainStep(folders, visited, queue, fuel, target);
    PlanSnoc(files, visited, queue[0]);
  }

  /** The `while let Some(..) = queue.pop_front()` loop: processes the front job,
      asking for each of its records and queueing its subfolders, until the queue
      is empty. */
  method DrainQueue(folders: seq<Folder>, files: seq<FileMetadata>, start: seq<Job>, ghost fuel: nat)
    returns (visited: seq<Job>, downloads: seq<(FileMetadata, seq<string>)>)
    requires Bfs(folders, start, fuel).Some?
    ensures visited == Bfs(folders, start, fuel).value
    ensures downloads == Plan(files, visited)
  {
    visited := [];
    downloads := [];
    var queue := start;
    ghost var target := Bfs(folders, queue, fuel).value;
    ghost var left := fuel;
    while queue != []
      invariant Drains(folders, visited, queue, left, target) == true
      invariant downloads == Plan(files, visited)
      decreases left
    {
      DrainTurn(folders, files, visited, queue, left, target, downloads);
      var job := queue[0];
      downloads := downloads + FileJobs(files, job);
      queue := queue[1..] + ChildJobs(folders, job);
      visited := visited + [job];
      left := left - 1;
    }
    assert visited + [] == visited;
  }

  /** `download_folder`: finds the folder, then drains the queue that starts with
      it. Returns the folders processed and the downloads asked for. `fuel` bounds
      the number of folders processed, which exists exactly when no parent cycle is
      reachable from the folder. */
  method DownloadFolder(folders: seq<Folder>, files: seq<FileMetadata>, folderId: string, ghost fuel: nat)
    returns (r: Outcome, visited: seq<Job>, downloads: seq<(FileMetadata, seq<string>)>)
    requires RootJob(folders, folderId).Some? ==> Bfs(folders, [RootJob(folders, folderId).value], fuel).Some?
    ensures RootJob(folders, folderId).None? ==> r == Err("Folder not found") && visited == [] && downloads == []
    ensures RootJob(folders, folderId).Some? ==>
      r == Ok("Folder downloaded successfully.") &&
      visited == Bfs(folders, [RootJob(folders, folderId).value], fuel).value &&
      downloads == Plan(files, visited)
  {
    var root := Find(folders, FolderIdIs(folderId));
    if root.None? {
      return Err("Folder not found"), [], [];
    }
    var start := [Job(folderId, [root.value.name])];
    assert start == [RootJob(folders, folderId).value];
    visited, downloads := DrainQueue(folders, files, start, fuel);
    r := Ok("Folder downloaded successfully.");
  }

  /** Depths in the queue never decrease and span at most one level. */
  ghost predicate Layered(queue: seq<Job>)
  {
    forall i, j :: 0 <= i < j < |queue| ==> |queue[i].path| <= |queue[j].path| <= |queue[i].path| + 1
  }

  ghost predicate DepthOrdered(jobs: seq<Job>)
  {
    forall i, j :: 0 <= i < j < |jobs| ==> |jobs[i].path| <= |jobs[j].path|
  }

  /** No job of `jobs` is shallower than depth `d`. */
  ghost predicate AtLeastDepth(jobs: seq<Job>, d: nat)
  {
    forall k :: 0 <= k < |jobs| ==> |jobs[k].path| >= d
  }

  lemma LayeredNext(folders: seq<Folder>, queue: seq<Job>)
    requires queue != [] && Layered(queue)
    ensures Layered(queue[1..] + ChildJobs(folders, queue[0]))
    ensures AtLeastDepth(queue[1..] + ChildJobs(folders, queue[0]), |queue[0].path|)
  {
    var tail, kids := queue[1..], ChildJobs(folders, queue[0]);
    var next := tail + kids;
    ChildJobsDerived(folders, queue[0]);
    assert forall i :: 0 <= i < |tail| ==> next[i] == queue[i + 1];
    assert forall i :: |tail| <= i < |next| ==> next[i] == kids[i - |tail|];
  }

  /** Breadth-first order: folders are processed level by level, never deeper
      before shallower. (`== true` keeps the predicates whole across the
      recursion; the step lemmas open them.) */
  lemma {:induction false} BfsDepthOrdered(folders: seq<Folder>, queue: seq<Job>, fuel: nat)
    requires Layered(queue) == true && Bfs(folders, queue, fuel).Some?
    ensures DepthOrdered(Bfs(folders, queue, fuel).value) == true
    ensures queue != [] ==> AtLeastDepth(Bfs(folders, queue, fuel).value, |queue[0].path|) == true
    decreases fuel
  {
    if queue != [] {
      var next := queue[1..] + ChildJobs(folders, queue[0]);
      LayeredNext(folders, queue);
      BfsDepthOrdered(folders, next, fuel - 1);
      var rest := Bfs(folders, next, fuel - 1).value;
      assert Bfs(folders, queue, fuel).value == [queue[0]] + rest;
      assert next == [] ==> rest == [];
      ConsOrdered(queue[0], next, rest);
    }
  }

  /** A job no deeper than any job of the queue that follows it goes in front of
      the ordered traversal of that queue. */
  lemma ConsOrdered(j: Job, next: seq<Job>, rest: seq<Job>)
    requires DepthOrdered(rest) && AtLeastDepth(next, |j.path|)
    requires next != [] ==> AtLeastDepth(rest, |next[0].path|)
    requires next == [] ==> rest == []
    ensures DepthOrdered([j] + rest) && AtLeastDepth([j] + rest, |j.path|)
  {
    var out := [j] + rest;
    assert forall k :: 1 <= k < |out| ==> out[k] == rest[k - 1];
  }

  /** `c` is queued by the processing of `parent`: one of its subfolders, under its
      path joined with the subfolder's name. */
  ghost predicate ChildJobOf(folders: seq<Folder>, parent: Job, c: Job)
  {
    exists f :: f in folders && ChildOf(parent.id)(f) && c == Job(f.id, parent.path + [f.name])
  }

  ghost predicate DerivedFrom(folders: seq<Folder>, prior: seq<Job>, c: Job)
  {
    exists p :: 0 <= p < |prior| && ChildJobOf(folders, prior[p], c)
  }

  /** Every job queued after `j` is one of its subfolders, one level deeper. */
  lemma {:induction false} ChildJobsDerived(folders: seq<Folder>, j: Job)
    ensures forall i :: 0 <= i < |ChildJobs(folders, j)| ==>
      ChildJobOf(folders, j, ChildJobs(folders, j)[i]) && |ChildJobs(folders, j)[i].path| == |j.path| + 1
  {
    if folders != [] {
      var n := |folders| - 1;
      var init, f := folders[..n], folders[n];
      var kids, front := ChildJobs(folders, j), ChildJobs(init, j);
      ChildJobsDerived(init, j);
      forall i | 0 <= i < |kids|
        ensures ChildJobOf(folders, j, kids[i]) && |kids[i].path| == |j.path| + 1
      {
        if i < |front| {
          assert kids[i] == front[i] && ChildJobOf(init, j, front[i]);
          var g :| g in init && ChildOf(j.id)(g) && front[i] == Job(g.id, j.path + [g.name]);
          assert g in folders;
        } else {
          assert kids[i] == Job(f.id, j.path + [f.name]);
        }
      }
    }
  }

  lemma DerivedGrows(folders: seq<Folder>, prior: seq<Job>, more: seq<Job>, c: Job)
    requires DerivedFrom(folders, prior, c)
    ensures DerivedFrom(folders, prior + more, c)
  {
    var p :| 0 <= p < |prior| && ChildJobOf(folders, prior[p], c);
    assert (prior + more)[p] == prior[p];
  }

  /** Every job of `out` was queued by a folder processed before it, counting
      `done`, the folders processed earlier. */
  ghost predicate AllDerived(folders: seq<Folder>, done: seq<Job>, out: seq<Job>)
  {
    forall k {:trigger out[..k]} :: 0 <= k < |out| ==> DerivedFrom(folders, done + out[..k], out[k])
  }

  lemma AllDerivedCons(folders: seq<Folder>, done: seq<Job>, q0: Job, rest: seq<Job>)
    requires DerivedFrom(folders, done, q0) == true && AllDerived(folders, done + [q0], rest) == true
    ensures AllDerived(folders, done, [q0] + rest) == true
  {
    var out := [q0] + rest;
    forall k | 0 <= k < |out|
      ensures DerivedFrom(folders, done + out[..k], out[k])
    {
      if k == 0 {
        assert done + out[..0] == done;
      } else {
        assert out[k] == rest[k - 1];
        assert done + out[..k] == (done + [q0]) + rest[..k - 1];
      }
    }
  }

  /** Every queued job was queued by one of the folders processed so far. */
  ghost predicate QueueDerived(folders: seq<Folder>, done: seq<Job>, queue: seq<Job>)
  {
    forall i :: 0 <= i < |queue| ==> DerivedFrom(folders, done, queue[i])
  }

  /** After the front job is processed, every queued job was queued by a processed folder. */
  lemma NextDerived(folders: seq<Folder>, done: seq<Job>, queue: seq<Job>)
    requires queue != [] && QueueDerived(folders, done, queue) == true
    ensures QueueDerived(folders, done + [queue[0]], queue[1..] + ChildJobs(folders, queue[0])) == true
  {
    var q0 := queue[0];
    var tail, kids := queue[1..], ChildJobs(folders, q0);
    var next := tail + kids;
    ChildJobsDerived(folders, q0);
    forall i | 0 <= i < |next|
      ensures DerivedFrom(folders, done + [q0], next[i])
    {
      if i < |tail| {
        assert next[i] == queue[i + 1];
        DerivedGrows(folders, done, [q0], next[i]);
      } else {
        assert next[i] == kids[i - |tail|];
        assert (done + [q0])[|done|] == q0;
      }
    }
  }

  /** Every processed folder was queued by an earlier one, under that folder's path
      joined with its own name. */
  lemma {:induction false} BfsDerived(folders: seq<Folder>, done: seq<Job>, queue: seq<Job>, fuel: nat)
    requires Bfs(folders, queue, fuel).Some? && QueueDerived(folders, done, queue) == true
    ensures AllDerived(folders, done, Bfs(folders, queue, fuel).value) == true
    decreases fuel
  {
    if queue != [] {
      var next := queue[1..] + ChildJobs(folders, queue[0]);
      BfsStep(folders, queue, fuel);
      NextDerived(folders, done, queue);
      BfsDerived(folders, done + [queue[0]], next, fuel - 1);
      var rest := Bfs(folders, next, fuel - 1).value;
      DerivedCons(folders, done, queue, rest);
      assert Bfs(folders, queue, fuel).value == [queue[0]] + rest;
    } else {
      assert Bfs(folders, queue, fuel).value == [];
    }
  }

  /** The front job was queued by a processed folder, so it goes in front of a
      traversal derived from the folders processed including it. */
  lemma DerivedCons(folders: seq<Folder>, done: seq<Job>, queue: seq<Job>, rest: seq<Job>)
    requires queue != [] && QueueDerived(folders, done, queue) == true
    requires AllDerived(folders, done + [queue[0]], rest) == true
    ensures AllDerived(folders, done, [queue[0]] + rest) == true
  {
    AllDerivedCons(folders, done, queue[0], rest);
  }

  /** Every job after the first was queued by a folder processed before it. */
  ghost predicate EachDerived(folders: seq<Folder>, out: seq<Job>)
  {
    forall k {:trigger out[..k]} :: 1 <= k < |out| ==> DerivedFrom(folders, out[..k], out[k])
  }

  lemma RootDerived(folders: seq<Folder>, root: Job, rest: seq<Job>)
    requires AllDerived(folders, [root], rest) == true
    ensures EachDerived(folders, [root] + rest)
  {
    var out := [root] + rest;
    forall k | 1 <= k < |out|
      ensures DerivedFrom(folders, out[..k], out[k])
    {
      assert out[k] == rest[k - 1];
      assert out[..k] == [root] + rest[..k - 1];
    }
  }

  /** What download_folder processes from a start job: the start first, then
      folders in breadth-first order, each queued by an earlier processed folder
      under that folder's path joined with its own name. */
  lemma DownloadOrder(folders: seq<Folder>, root: Job, fuel: nat, out: seq<Job>)
    requires Bfs(folders, [root], fuel) == Some(out)
    ensures out != [] && out[0] == root
    ensures DepthOrdered(out)
    ensures EachDerived(folders, out)
  {
    var kids := ChildJobs(folders, root);
    assert [root][0] == root && [root][1..] + kids == kids;
    BfsStep(folders, [root], fuel);
    BfsDepthOrdered(folders, [root], fuel);
    RootKidsDerived(folders, root);
    BfsDerived(folders, [root], kids, fuel - 1);
    RootDerived(folders, root, Bfs(folders, kids, fuel - 1).value);
  }

  lemma RootKidsDerived(folders: seq<Folder>, root: Job)
    ensures QueueDerived(folders, [root], ChildJobs(folders, root))
  {
    ChildJobsDerived(folders, root);
    assert [root][0] == root;
  }

  /** Every subfolder of a processed folder is queued, under the folder's path
      joined with the subfolder's name. */
  lemma {:induction false} ChildJobsMember(folders: seq<Folder>, j: Job, f: Folder)
    requires f in folders && ChildOf(j.id)(f)
    ensures Job(f.id, j.path + [f.name]) in ChildJobs(folders, j)
  {
    var n := |folders| - 1;
    var init := folders[..n];
    if f == folders[n] {
      InRight(ChildJobs(init, j), [Job(f.id, j.path + [f.name])], Job(f.id, j.path + [f.name]));
    } else {
      assert f in init by {
        var i :| 0 <= i < |folders| && folders[i] == f;
        assert init[i] == f;
      }
      ChildJobsMember(init, j, f);
      InLeft(ChildJobs(init, j), if ChildOf(j.id)(folders[n]) then [Job(folders[n].id, j.path + [folders[n].name])] else [],
        Job(f.id, j.path + [f.name]));
    }
  }

  /** Every job `jobs` holds is in `out`. */
  ghost predicate AllIn(jobs: seq<Job>, out: seq<Job>)
  {
    forall i :: 0 <= i < |jobs| ==> jobs[i] in out
  }

  /** Whatever a job of `out` queues is in `out` as well. */
  ghost predicate ChildClosed(folders: seq<Folder>, out: seq<Job>)
  {
    forall j :: j in out ==> AllIn(ChildJobs(folders, j), out)
  }

  /** The traversal is complete: it holds the whole starting queue and everything
      any of its folders queues. */
  lemma {:induction false} BfsClosed(folders: seq<Folder>, queue: seq<Job>, fuel: nat)
    requires Bfs(folders, queue, fuel).Some?
    ensures AllIn(queue, Bfs(folders, queue, fuel).value) == true
    ensures ChildClosed(folders, Bfs(folders, queue, fuel).value) == true
    decreases fuel
  {
    if queue != [] {
      var next := queue[1..] + ChildJobs(folders, queue[0]);
      BfsStep(folders, queue, fuel);
      BfsClosed(folders, next, fuel - 1);
      ClosedCons(folders, queue, Bfs(folders, next, fuel - 1).value);
    }
  }

  /** Processing the front job keeps the traversal complete: what the rest of the
      queue and the front job's subfolders lead to, with the front job in front. */
  lemma ClosedCons(folders: seq<Folder>, queue: seq<Job>, rest: seq<Job>)
    requires queue != []
    requires AllIn(queue[1..] + ChildJobs(folders, queue[0]), rest) && ChildClosed(folders, rest)
    ensures AllIn(queue, [queue[0]] + rest) && ChildClosed(folders, [queue[0]] + rest)
  {
    var q0, tail, kids := queue[0], queue[1..], ChildJobs(folders, queue[0]);
    var out := [q0] + rest;
    AllInSplit(tail, kids, rest);
    AllInCons(tail, q0, rest);
    AllInCons(kids, q0, rest);
    forall i | 0 <= i < |queue|
      ensures queue[i] in out
    {
      if i > 0 {
        assert queue[i] == tail[i - 1];
      }
    }
    forall j | j in out
      ensures AllIn(ChildJobs(folders, j), out)
    {
      if j != q0 {
        assert j in rest;
        AllInCons(ChildJobs(folders, j), q0, rest);
      }
    }
  }

  lemma AllInSplit(a: seq<Job>, b: seq<Job>, out: seq<Job>)
    requires AllIn(a + b, out)
    ensures AllIn(a, out) && AllIn(b, out)
  {
    assert forall i :: 0 <= i < |a| ==> (a + b)[i] == a[i];
    assert forall i :: 0 <= i < |b| ==> (a + b)[|a| + i] == b[i];
  }

  lemma AllInCons(jobs: seq<Job>, q0: Job, rest: seq<Job>)
    requires AllIn(jobs, rest)
    ensures AllIn(jobs, [q0] + rest)
  {
    forall i | 0 <= i < |jobs|
      ensures jobs[i] in [q0] + rest
    {
      InRight([q0], rest, jobs[i]);
    }
  }

  /** download_folder reaches every subfolder of every folder it processes. */
  lemma DownloadComplete(folders: seq<Folder>, root: Job, fuel: nat, out: seq<Job>, j: Job, f: Folder)
    requires Bfs(folders, [root], fuel) == Some(out)
    requires j in out && f in folders && ChildOf(j.id)(f)
    ensures Job(f.id, j.path + [f.name]) in out
  {
    BfsClosed(folders, [root], fuel);
    ChildJobsMember(folders, j, f);
    var kids := ChildJobs(folders, j);
    var k :| 0 <= k < |kids| && kids[k] == Job(f.id, j.path + [f.name]);
    assert AllIn(kids, out);
  }

  /** A folder's downloads are its records, each under the folder's path joined
      with the record's name. */
  lemma {:induction false} FileJobsMember(files: seq<FileMetadata>, j: Job, f: FileMetadata, path: seq<string>)
    ensures (f, path) in FileJobs(files, j) <==> f in files && FileOf(j.id)(f) && path == j.path + [f.name]
  {
    if files != [] {
      var n := |files| - 1;
      var init, g := files[..n], files[n];
      var last := if FileOf(j.id)(g) then [(g, j.path + [g.name])] else [];
      assert FileJobs(files, j) == FileJobs(init, j) + last;
      assert files == init + [g];
      FileJobsMember(init, j, f, path);
    }
  }

  /** Every download asked for is a record of a processed folder, whose key is that
      folder's identifier, under the folder's path joined with the record's name. */
  lemma {:induction false} PlanOnly(files: seq<FileMetadata>, visited: seq<Job>, f: FileMetadata, path: seq<string>)
    requires (f, path) in Plan(files, visited)
    ensures exists k :: 0 <= k < |visited| && f in files && FileOf(visited[k].id)(f) && path == visited[k].path + [f.name]
  {
    var n := |visited| - 1;
    var init, j := visited[..n], visited[n];
    assert Plan(files, visited) == Plan(files, init) + FileJobs(files, j);
    FileJobsMember(files, j, f, path);
    if (f, path) in Plan(files, init) {
      PlanOnly(files, init, f, path);
      var k :| 0 <= k < |init| && f in files && FileOf(init[k].id)(f) && path == init[k].path + [f.name];
      assert init[k] == visited[k];
    }
  }

  /** Every record of a processed folder is asked for, under the folder's path
      joined with the record's name. */
  lemma {:induction false} PlanIncludes(files: seq<FileMetadata>, visited: seq<Job>, k: nat, f: FileMetadata)
    requires k < |visited| && f in files && FileOf(visited[k].id)(f)
    ensures (f, visited[k].path + [f.name]) in Plan(files, visited)
  {
    var n := |visited| - 1;
    var init, j := visited[..n], visited[n];
    var d := (f, visited[k].path + [f.name]);
    assert Plan(files, visited) == Plan(files, init) + FileJobs(files, j);
    if k < n {
      assert init[k] == visited[k];
      PlanIncludes(files, init, k, f);
      InLeft(Plan(files, init), FileJobs(files, j), d);
    } else {
      FileJobsMember(files, j, f, j.path + [f.name]);
      InRight(Plan(files, init), FileJobs(files, j), d);
    }
  }

  lemma InLeft<T>(a: seq<T>, b: seq<T>, x: T)
    requires x in a
    ensures x in a + b
  {
  }

  lemma InRight<T>(a: seq<T>, b: seq<T>, x: T)
    requires x in b
    ensures x in a + b
  {
  }
}

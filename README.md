# Paperfold core, modelled in Dafny

Paperfold is a desktop cloud-storage app. It keeps files as Telegram messages and
shows them as a drive. A local metadata store holds folder and file records, with trash,
stars, moves, renames, per-folder styling, statistics and trash cleanup. A WebDAV daemon
layers a virtual filesystem over that store. Tauri commands implement login, uploads,
synchronisation, starred listings and backups. React components drive the upload queue,
breadcrumb navigation, file cards and the login screen.

The project models that core, one Dafny module per source file:

| module | models |
|---|---|
| `Common` | sequence filtering and search, string predicates, ASCII lower-casing, decimal rendering, the `i64 as u64` cast |
| `Store` | `src-tauri/crates/core/src/db.rs`: the `Database` class over two sequences, plus its pure queries |
| `WebDav` | `src-tauri/crates/daemon/src/fs.rs`: path resolution, `open`, `create_dir`, `remove_dir`, `remove_file`, `rename` and the write file's `flush` |
| `Commands` | `src-tauri/src/lib.rs`: FLOOD_WAIT parsing, the login retry loop, upload part arithmetic, `sync_files`, `fetch_starred` |
| `Backup` | `src-tauri/src/lib.rs`: `download_all` (ancestor walk, entries, packet splitting, zip names) and `download_folder` (breadth-first traversal) |
| `Dashboard` | `src/components/Dashboard.tsx`: the upload queue state machine and breadcrumb navigation |
| `Cache` | `src-tauri/crates/daemon/src/cache.rs`: cache file naming, and `get_file` over a map from names to lengths |
| `Thumbnail` | `src-tauri/crates/core/src/client.rs`: thumbnail choice |
| `FileCard` | `src/components/FileCard.tsx`: icon category, video test, folder icon, click dispatch, folder background |
| `Auth` | `src/components/Auth.tsx`: the country filter and the phone, code and password steps |

State the source changes in place becomes a class:
- `Store.Database`, with `folders` and `files` as `seq` fields;
- `WebDav.DavFs` and `WebDav.WriteFile`, over a shared `Database`;
- `Commands.LoginState` (the client slot and the two login tokens);
- `Dashboard.DashboardState`;
- `Cache.CacheDir`;
- `Auth.AuthForm`.

Each method's postcondition ties the new state to a pure function of the old one. Lemmas
then prove what the source promises about those functions.

Some inputs the source takes from outside are parameters:
- UUIDs and message ids;
- the clock;
- Telegram replies (outcomes of connecting, sending codes, fetching messages, uploading and downloading).

A fresh identifier is a precondition (`!HasFile(files, id)`), which stands for UUID v4 uniqueness.

The WebDAV paths are sequences of decoded components: the `dav_server` crate splits and
decodes URLs before `fs.rs` sees them. `open` (when it creates a file), `create_dir` and
`rename` then rebuild the parent path as text and parse it again with `DavPath::new`
(src-tauri/crates/daemon/src/fs.rs:184-197, 358-371 and 440-450), and a parse error is a
general failure. The model takes whether that parse succeeds as a boolean input, read
through `ParentParses`: a path of one component has "/" for parent, which always parses,
so the input only matters for longer paths. When the parse succeeds, the parent is the
components before the last. The model stops at the `FsError` result
of each operation; mapping errors to HTTP status codes (MKCOL in section 9.3 of RFC 4918,
MOVE in section 9.9 of RFC 4918) is also done by `dav_server`.

Parent pointers can form cycles, because `move_folder` only rejects moving a folder into
itself. The model handles each walk as follows:
- **Statistics:** the recursion carries the stack of folders being visited. It returns
  `Diverges` on reaching a folder already on the stack, where the source would recurse
  without end. On a store whose live parent links have no cycle (witnessed by a rank that
  falls from parent to child) it never diverges and obeys the source's recurrence
  (`Store.StatsRecurrence`). Two live folders inside each other, which `move_folder`
  admits, diverge (`Store.TwoCycleDiverges`).
- **`download_all` ancestor walk:** its result has a `Cycle` case; `WalkAncestors`
  requires that case not to arise.
- **`download_folder` traversal:** the breadth-first traversal takes a ghost fuel bound,
  and a cyclic store has no bound.

## Model

| member | source | states |
|---|---|---|
| Store.FolderIndex | src-tauri/crates/core/src/db.rs:229-232 | the index of the first folder with the id, and `None` exactly when no folder has it |
| Store.FileIndex | src-tauri/crates/core/src/db.rs:215-218 | the index of the first file with the id, and `None` exactly when no file has it |
| Store.MessageIndex | src-tauri/crates/core/src/db.rs:681-696 | the index of the first file with the message id; `None` means no file carries it |
| Store.FileIndexOfMember | src-tauri/crates/core/src/db.rs:215-218 | with unique ids, looking up a stored file's id finds that very file |
| Store.FolderIndexOfMember | src-tauri/crates/core/src/db.rs:229-232 | with unique ids, looking up a stored folder's id finds that very folder |
| Store.GetFile | src-tauri/crates/core/src/db.rs:215-218 | `get_file` finds a record exactly when one has the id, and it is the first such record |
| Store.GetFolderById | src-tauri/crates/core/src/db.rs:229-232 | `get_folder_by_id` finds a record exactly when one has the id, and it is the first such record |
| Store.LookupFolderName | src-tauri/crates/core/src/db.rs:220-227 | the name of the first folder with the id, if there is one |
| Store.ListContents | src-tauri/crates/core/src/db.rs:186-201 | exactly the non-trashed folders and files whose parent is the given one, in store order (a filter) |
| Store.ListTrash | src-tauri/crates/core/src/db.rs:203-213 | exactly the trashed folders and files |
| Store.TrashOrListed | src-tauri/crates/core/src/db.rs:186-213 | every record is in the trash listing exactly when it is absent from its parent's listing, and in no other parent's listing |
| Store.GetStarred | src-tauri/crates/core/src/db.rs:604-619 | exactly the starred, non-trashed folders and files |
| Store.SearchItems | src-tauri/crates/core/src/db.rs:621-646 | non-trashed folders whose lowercased name or some tag contains the lowercased query, and non-trashed files whose lowercased name contains it |
| Store.SearchEmptyQuery | src-tauri/crates/core/src/db.rs:621-646 | an empty query returns every non-trashed folder and file |
| Store.TotalUsageIsLiveSum | src-tauri/crates/core/src/db.rs:648-657 | `get_total_usage` is the sum of the sizes of the non-trashed files |
| Store.TotalUsageUpdate | src-tauri/crates/core/src/db.rs:648-657 | replacing one record changes the usage by the difference of the two records' charges |
| Store.MaxLength | src-tauri/crates/core/src/db.rs:124-142 | the length of the longest name of one kind, attained by some name; this bound makes the naming loop terminate |
| Store.CandidateBound | src-tauri/crates/core/src/db.rs:124-142 | a taken name `base (i)` has `i` below 10 to the power of the longest sibling name's length, so the loop ends |
| Store.NewFolderKeepsNamesDistinct | src-tauri/crates/core/src/db.rs:145-184 | adding a folder under a name `get_unique_name` chose keeps the live folder names under every parent distinct |
| Store.NewFileKeepsNamesDistinct | src-tauri/crates/core/src/db.rs:234-273 | adding a file under a name `get_unique_name` chose keeps the live file names under every parent distinct |
| Store.UpdateFolder | src-tauri/crates/core/src/db.rs:407-417 | the `iter_mut().find` write: exactly the folder with the id is rewritten, the ids stay unique |
| Store.UpdateFile | src-tauri/crates/core/src/db.rs:359-369 | the `iter_mut().find` write: exactly the file with the id is rewritten, the ids stay unique |
| Store.FileStarTwice | src-tauri/crates/core/src/db.rs:581-602 | toggling a file's star twice restores the file list |
| Store.FolderStarTwice | src-tauri/crates/core/src/db.rs:581-602 | toggling a folder's star twice restores the folder list |
| Store.FileRestoreAfterTrash | src-tauri/crates/core/src/db.rs:276-321 | trash then restore of a file leaves it with `trashed = false` and no `trashed_at` |
| Store.FolderRestoreAfterTrash | src-tauri/crates/core/src/db.rs:276-321 | trash then restore of a folder leaves it with `trashed = false` and no `trashed_at` |
| Store.ApplyStyle | src-tauri/crates/core/src/db.rs:475-492 | a style field is kept for `None`, cleared for `Some("")` and set otherwise |
| Store.ApplySet | src-tauri/crates/core/src/db.rs:493-504 | a plain field is kept for `None` and set for `Some(v)` |
| Store.EmptyMetadataUpdate | src-tauri/crates/core/src/db.rs:458-514 | an update with every field absent only stamps `last_modified` |
| Store.SweepRemaining | src-tauri/crates/core/src/db.rs:549-573 | retaining files per removed folder in turn leaves exactly the files outside every removed folder |
| Store.SweepPartition | src-tauri/crates/core/src/db.rs:549-573 | the files swept out and the files retained together are the original files |
| Store.LeafStats | src-tauri/crates/core/src/db.rs:424-456 | a folder with no live subfolder has the size and count of its live files |
| Store.LeafChildStats | src-tauri/crates/core/src/db.rs:440-452 | the subfolder loop adds nothing when there are no live subfolders |
| Store.StatsFrame | src-tauri/crates/core/src/db.rs:424-456 | a folder's statistics do not depend on files inside folders already on the stack |
| Store.ChildStatsShift | src-tauri/crates/core/src/db.rs:440-452 | the subfolder loop adds its findings to whatever the accumulator held |
| Store.AddFileRaisesStats | src-tauri/crates/core/src/db.rs:419-456 | adding a live file to a folder raises its statistics by the file's size and by one |
| Store.StatsOf | src-tauri/crates/core/src/db.rs:424-456 | a folder's result counts at least the live files directly inside it |
| Store.ChildStats | src-tauri/crates/core/src/db.rs:440-452 | the subfolder loop yields a result only from a started accumulator, and never lowers its count |
| Store.FolderStats | src-tauri/crates/core/src/db.rs:419-422 | `get_folder_stats` counts at least the folder's direct live files |
| Store.RankedStats | src-tauri/crates/core/src/db.rs:424-456 | without a parent cycle the recursion never diverges, and the folders above it on the stack do not matter |
| Store.RankedChildStats | src-tauri/crates/core/src/db.rs:440-452 | without a parent cycle the subfolder loop never diverges, whatever is above it on the stack |
| Store.RankedFold | src-tauri/crates/core/src/db.rs:440-452 | without a parent cycle the subfolder loop adds to the accumulator each live subfolder's own size, and its own count plus one |
| Store.StatsRecurrence | src-tauri/crates/core/src/db.rs:419-456 | without a parent cycle a folder's statistics are its live files' size and number plus, per live subfolder, that subfolder's statistics and one for the subfolder |
| Store.ChildStatsDiverges | src-tauri/crates/core/src/db.rs:440-452 | the subfolder loop diverges once it meets a live subfolder that is on the stack or whose recursion diverges |
| Store.TwoCycleDiverges | src-tauri/crates/core/src/db.rs:386-456 | two live folders each inside the other, which `move_folder` allows, both have diverging statistics |
| Store.Database.constructor | src-tauri/crates/core/src/db.rs:80-81 | the default store: no folders, no files |
| Store.Database.UniqueName | src-tauri/crates/core/src/db.rs:99-143 | the base name when no live sibling of that kind has it, else `base (i)` for the least free `i >= 1`; the result is never taken, and trashed items do not block it |
| Store.Database.CreateFolder | src-tauri/crates/core/src/db.rs:145-184 | appends exactly one folder under the unique name, not trashed, not starred; earlier records and files unchanged |
| Store.Database.AddFile | src-tauri/crates/core/src/db.rs:234-273 | appends exactly one file record under the unique name; usage grows by its size |
| Store.Database.TrashItem | src-tauri/crates/core/src/db.rs:276-304 | marks only the record with the id as trashed at `now`; children are untouched; usage drops by that file's charge |
| Store.Database.RestoreItem | src-tauri/crates/core/src/db.rs:306-321 | clears `trashed` and `trashed_at` of the record with the id; usage rises by its size if it was trashed |
| Store.Database.DeleteFile | src-tauri/crates/core/src/db.rs:324-334 | true exactly when a file had the id; afterwards no file has it |
| Store.Database.DeleteFolder | src-tauri/crates/core/src/db.rs:336-357 | removes the folder and exactly its direct files and returns those files; subfolders stay |
| Store.Database.RenameFile | src-tauri/crates/core/src/db.rs:359-369 | renames exactly the file with the id; the result says whether it existed |
| Store.Database.MoveFile | src-tauri/crates/core/src/db.rs:371-384 | re-parents and renames exactly the file with the id; the result says whether it existed |
| Store.Database.MoveFolder | src-tauri/crates/core/src/db.rs:386-405 | false and no change when the target is the folder itself; otherwise re-parents and renames it, false for an unknown id |
| Store.Database.RenameFolder | src-tauri/crates/core/src/db.rs:407-417 | renames exactly the folder with the id; the result says whether it existed |
| Store.Database.UpdateFolderMetadata | src-tauri/crates/core/src/db.rs:458-514 | applies the partial update to exactly the folder with the id and stamps `last_modified` |
| Store.Database.ToggleStar | src-tauri/crates/core/src/db.rs:581-602 | flips `is_starred` of the record with the id; false and no change for an unknown id |
| Store.Database.DeleteFilesByIds | src-tauri/crates/core/src/db.rs:668-674 | keeps exactly the files whose id is not listed |
| Store.Database.MoveFileToSyncFolder | src-tauri/crates/core/src/db.rs:681-696 | the first file with the message id is moved into the target only when it sits at the root |
| Store.Database.CleanupTrash | src-tauri/crates/core/src/db.rs:516-579 | removes trashed records stamped strictly before `now - days*86400`, plus every file directly inside a removed folder; returns the removed files, which with the kept ones make up the old files |
| Store.CollectExpired | src-tauri/crates/core/src/db.rs:534-546 | the files due for removal, in order |
| Store.SweepFolders | src-tauri/crates/core/src/db.rs:555-573 | the per-folder sweep, as the `Sweep` function defines it |
| Store.RetainByExpiredFileIds | src-tauri/crates/core/src/db.rs:534-546 | retaining files by the ids of the expired ones equals retaining the unexpired ones |
| Store.RetainByExpiredFolderIds | src-tauri/crates/core/src/db.rs:549-573 | retaining folders by the ids of the expired ones equals retaining the unexpired ones |
| WebDav.Step | src-tauri/crates/daemon/src/fs.rs:44-66 | one component of `resolve_path`; a resolved step names an entry |
| WebDav.FolderLookup | src-tauri/crates/daemon/src/fs.rs:44-66 | the folder search in the listing succeeds exactly when a live folder of that name is under the current folder |
| WebDav.FileLookup | src-tauri/crates/daemon/src/fs.rs:44-66 | the file search in the listing succeeds exactly when a live file of that name is under the current folder |
| WebDav.StepFindsFolder | src-tauri/crates/daemon/src/fs.rs:44-66 | a step resolves to a directory exactly when a same-named live folder exists; that folder wins over a same-named file |
| WebDav.StepFindsFile | src-tauri/crates/daemon/src/fs.rs:44-66 | a step resolves to a file exactly when no same-named folder but a same-named file exists |
| WebDav.StepFindsNothing | src-tauri/crates/daemon/src/fs.rs:44-66 | a step fails exactly when neither a folder nor a file has the name |
| WebDav.ResolveRootOnly | src-tauri/crates/daemon/src/fs.rs:35-38 | a path resolves to the root exactly when it is empty |
| WebDav.ResolvedPrefixIsDir | src-tauri/crates/daemon/src/fs.rs:44-66 | every proper prefix of a resolved path is a directory: only the last component may be a file |
| WebDav.ResolvedNamesEntry | src-tauri/crates/daemon/src/fs.rs:44-66 | a resolved non-empty path names a live folder or file carrying the last component |
| WebDav.OpenSpec | src-tauri/crates/daemon/src/fs.rs:120-234 | exactly when `open` yields a reader, a writer, Forbidden, GeneralFailure (a creation whose parent path does not parse again) or NotFound, in terms of the resolved path and the open options; Exists never comes back |
| WebDav.DavFs.Resolve | src-tauri/crates/daemon/src/fs.rs:34-69 | the loop over the components computes the resolution function |
| WebDav.DavFs.CreateDir | src-tauri/crates/daemon/src/fs.rs:344-394 | Forbidden for the root; GeneralFailure when the parent path does not parse again; Exists for a resolving path; NotFound without a directory parent; otherwise one new folder under the resolved parent |
| WebDav.DavFs.RemoveDir | src-tauri/crates/daemon/src/fs.rs:395-407 | deletes a resolved folder and its direct files; Forbidden on a file; NotFound otherwise |
| WebDav.DavFs.RemoveFile | src-tauri/crates/daemon/src/fs.rs:409-421 | deletes a resolved file; Forbidden on a directory; NotFound otherwise |
| WebDav.DavFs.Rename | src-tauri/crates/daemon/src/fs.rs:423-472 | NotFound unless the source has an id; Forbidden for the root as destination; GeneralFailure when the destination's parent path does not parse again; NotFound unless that parent is a directory; otherwise `move_folder` or `move_file` with the last component as name, with GeneralFailure for a false result |
| WebDav.NameKeptAfterDedup | src-tauri/crates/daemon/src/fs.rs:700-718 | after the duplicates are deleted the name is free, so `add_file` keeps it |
| WebDav.WriteFile.constructor | src-tauri/crates/daemon/src/fs.rs:592-624 | a write handle for the parent and name, not yet flushed |
| WebDav.WriteFile.RemoveOldVersions | src-tauri/crates/daemon/src/fs.rs:700-707 | the deduplication loop removes exactly the same-named live files of the parent |
| WebDav.VersionsById | src-tauri/crates/daemon/src/fs.rs:700-707 | deleting the listed files one id at a time equals filtering out the same-named live files |
| WebDav.MatchingIdsMember | src-tauri/crates/daemon/src/fs.rs:700-707 | the ids collected are exactly those of same-named listed files |
| WebDav.WriteFile.Flush | src-tauri/crates/daemon/src/fs.rs:679-790 | does nothing once flushed; else removes old versions, then records a 0-byte file with message -1, skips system files, or records the upload; a failed upload leaves the handle unflushed |
| Commands.TrimStart | src-tauri/src/lib.rs:131 | the longest suffix not starting with white space, with only white space removed |
| Commands.TrimEnd | src-tauri/src/lib.rs:131 | the longest prefix not ending with white space, with only white space removed |
| Commands.TrimEndMatches | src-tauri/src/lib.rs:131 | the longest prefix not ending with the character, with only that character removed |
| Commands.FirstOccurrence | src-tauri/src/lib.rs:129-130 | the first position of the separator at or after `from`, or `None` when it does not occur |
| Commands.ParseU64 | src-tauri/src/lib.rs:132 | `Some(n)` exactly for an optional `+` then one or more digits whose value `n` is below 2^64; `None` otherwise |
| Commands.ParseU64RoundTrip | src-tauri/src/lib.rs:132 | every `u64` in decimal, with or without `+`, parses back to itself |
| Commands.FloodWaitSeconds | src-tauri/src/lib.rs:127-133 | the parsed field after the first `value: ` (up to the next one), with `)` and white space trimmed; 0 when the separator is missing or the field does not parse; always below 2^64 |
| Commands.Hms | src-tauri/src/lib.rs:135-142 | `h*3600 + m*60 + s` is the seconds, with `m` and `s` below 60 |
| Commands.TrimDigits | src-tauri/src/lib.rs:131 | trimming `digits)` yields the digits |
| Commands.NoEarlierSeparator | src-tauri/src/lib.rs:129-130 | after text not containing `value: `, the separator written next is the first one in the message |
| Commands.FloodWaitRoundTrip | src-tauri/src/lib.rs:127-133 | after any text not containing `value: `, a message carrying `value: n)` parses back to `n` |
| Commands.LoginState.constructor | src-tauri/src/lib.rs:55-59 | no client and no tokens |
| Commands.LoginState.LoginStart | src-tauri/src/lib.rs:55-154 | resets the client; fails without credentials; at most two code requests; only a restart on the first attempt retries, after dropping the client; a sent code stores the phone token and clears the password token |
| Commands.TotalParts | src-tauri/src/lib.rs:353-355 | the least number of 512 KiB parts covering the size |
| Commands.ReadParts | src-tauri/src/lib.rs:369-375 | when every read fills the buffer while the file has that much left, the read loop yields `total_parts` parts summing to the size, all full but the last |
| Commands.PartsCount | src-tauri/src/lib.rs:353-355 | `k` full parts and a non-empty tail make `k + 1` parts |
| Commands.Batch | src-tauri/src/lib.rs:1106-1108 | each batch has at most 50 files |
| Commands.MissingInBatchMember | src-tauri/src/lib.rs:1127-1144 | an id is reported missing exactly when its index-aligned reply has no message or no media |
| Commands.FirstFailure | src-tauri/src/lib.rs:1106-1122 | the first batch whose `get_messages_by_id` failed, every earlier one answered; None exactly when all were answered |
| Commands.SyncFiles | src-tauri/src/lib.rs:1089-1158 | a failed `get_me` (before the empty-store check) or the first failed batch returns that error and removes nothing; "No files to sync." for an empty store; otherwise deletes exactly the missing ids and reports their count or that all files are up to date |
| Commands.PathDisplay | src-tauri/src/lib.rs:877-884 | "In: My Drive" at the root, "In: name" of an existing parent, `None` otherwise |
| Commands.FetchStarred | src-tauri/src/lib.rs:869-911 | the starred items, in order, each paired with its path display |
| Backup.FolderMapSpec | src-tauri/src/lib.rs:1284-1287 | the map has a key exactly for each folder id and maps it to the last folder with it |
| Backup.BuildFolderMap | src-tauri/src/lib.rs:1284-1287 | the insertion loop builds the folder map |
| Backup.FolderMapOfUnique | src-tauri/src/lib.rs:1284-1287 | with unique ids, the map sends each folder's id to that folder |
| Backup.FolderMapKeys | src-tauri/src/lib.rs:1284-1287 | every entry is keyed by its own id |
| Backup.AncestorsAt | src-tauri/src/lib.rs:1308-1319 | the walk ends at an unknown parent, fails at a trashed ancestor, and otherwise prepends the folder's name |
| Backup.WalkAncestors | src-tauri/src/lib.rs:1308-1327 | the while loop reports `valid` exactly when no ancestor is trashed, and then the names from the root down |
| Backup.WalkFollowsChain | src-tauri/src/lib.rs:1308-1319 | along an acyclic parent chain the walk fails iff some ancestor is trashed, else returns the chain's names top-down |
| Backup.Entries | src-tauri/src/lib.rs:1298-1337 | one entry per backed-up file |
| Backup.CollectEntries | src-tauri/src/lib.rs:1298-1337 | the file loop collects the entries |
| Backup.EntriesMember | src-tauri/src/lib.rs:1298-1337 | an entry exists exactly for each backed-up file |
| Backup.EntryOfChain | src-tauri/src/lib.rs:1298-1336 | a live file is backed up exactly when no ancestor is trashed, under the ancestor names top-down followed by its name |
| Backup.SplitPackets | src-tauri/src/lib.rs:1340-1357 | the packing loop computes the packets |
| Backup.PacketsGood | src-tauri/src/lib.rs:1340-1357 | the packets concatenate to the entries in order, none is empty, an oversized packet holds exactly one entry, and every packet boundary was forced by the limit |
| Backup.ZipNumber | src-tauri/src/lib.rs:1360-1366 | with several packets, the `i`-th zip name carries the number `i + 1` |
| Backup.ZipNamesDistinct | src-tauri/src/lib.rs:1360-1366 | the zip names of distinct packets differ |
| Backup.ChildJobsDerived | src-tauri/src/lib.rs:1260-1264 | every job queued after a folder is one of its subfolders, under the folder's path plus the subfolder's name, one component longer |
| Backup.RootJob | src-tauri/src/lib.rs:1193-1196 | a root job exists exactly when the folder exists |
| Backup.DrainQueue | src-tauri/src/lib.rs:1199-1265 | draining the queue visits the jobs of the breadth-first order and downloads their files in that order |
| Backup.DownloadFolder | src-tauri/src/lib.rs:1161-1268 | "Folder not found" for an unknown folder; else the breadth-first visit from it and its download plan |
| Backup.DownloadOrder | src-tauri/src/lib.rs:1199-1264 | the traversal starts at the requested folder, never decreases in depth, and every later job is a subfolder of an earlier one, with the parent's path plus its name |
| Backup.ChildJobsMember | src-tauri/src/lib.rs:1260-1264 | every subfolder of a processed folder is queued, under the folder's path plus the subfolder's name |
| Backup.BfsClosed | src-tauri/src/lib.rs:1199-1264 | the traversal holds the whole starting queue and every job any processed folder queues |
| Backup.DownloadComplete | src-tauri/src/lib.rs:1199-1264 | every subfolder of a processed folder is processed too, under the folder's path plus its name |
| Backup.FileJobsMember | src-tauri/src/lib.rs:1210-1257 | a folder's downloads are exactly its direct files under its path plus the file name |
| Backup.PlanOnly | src-tauri/src/lib.rs:1203-1265 | every planned download is a direct file of a visited folder |
| Backup.PlanIncludes | src-tauri/src/lib.rs:1203-1265 | every direct file of a visited folder is planned |
| Dashboard.CountUpdate | src/components/Dashboard.tsx:171-210 | replacing one item changes a status count by that item's contribution only |
| Dashboard.FirstPending | src/components/Dashboard.tsx:176 | the lowest index of a pending item, `None` iff none is pending |
| Dashboard.WithProgress | src/components/Dashboard.tsx:155-161 | only uploading items with the event's path take the new progress; nothing else changes |
| Dashboard.ProgressKeepsCounts | src/components/Dashboard.tsx:155-161 | a progress event keeps every status count |
| Dashboard.Settle | src/components/Dashboard.tsx:203-207 | the item at the index becomes completed with progress 100 or error with progress 0; others unchanged |
| Dashboard.SettleKeepsCap | src/components/Dashboard.tsx:203-207 | a completion never raises the number of uploading items |
| Dashboard.StaleCompletion | src/components/Dashboard.tsx:203-207 | a completion whose index now holds a pending item (after clear and re-enqueue) settles that unrelated item |
| Dashboard.LastSegment | src/components/Dashboard.tsx:299 | the longest suffix free of '/' and '\\', preceded by a separator when shorter than the path |
| Dashboard.DisplayName | src/components/Dashboard.tsx:299 | the last segment, or "Unknown File" when it is empty |
| Dashboard.NewItems | src/components/Dashboard.tsx:293-304 | one pending item per path with progress 0, its display name and the folder current at selection |
| Dashboard.NewItemsIdle | src/components/Dashboard.tsx:293-304 | enqueued items add to the pending count and not to the uploading count |
| Dashboard.HeaderComplete | src/components/Dashboard.tsx:993-996 | "Uploads complete" exactly when no item is pending or uploading |
| Dashboard.CrumbFolder | src/components/Dashboard.tsx:140-147 | a crumb's folder is its id, with 'root' and null both meaning the root |
| Dashboard.DashboardState.constructor | src/components/Dashboard.tsx:49-55 | the initial state: root, "My Drive", one crumb, empty queue |
| Dashboard.DashboardState.ProcessQueue | src/components/Dashboard.tsx:171-210 | starts an upload exactly when fewer than 3 are uploading and one is pending; promotes the lowest pending index to uploading with progress 0, and starts it with its stored target folder |
| Dashboard.DashboardState.CompleteUpload | src/components/Dashboard.tsx:203-207 | settles the admission index; a success bumps `refresh` |
| Dashboard.DashboardState.OnProgress | src/components/Dashboard.tsx:155-161 | merges a progress event by path |
| Dashboard.DashboardState.HandleUpload | src/components/Dashboard.tsx:285-310 | appends the new items; existing items untouched |
| Dashboard.DashboardState.ClearQueue | src/components/Dashboard.tsx:1006 | the queue becomes empty |
| Dashboard.DashboardState.HandleNavigate | src/components/Dashboard.tsx:126-138 | sets the folder and name; appends a crumb exactly when the id is truthy (present and not empty) |
| Dashboard.DashboardState.HandleBreadcrumbClick | src/components/Dashboard.tsx:140-147 | keeps crumbs up to the clicked one and opens its folder |
| Dashboard.DashboardState.NavigateThenClickBack | src/components/Dashboard.tsx:126-147 | opening a folder and clicking the crumb it added shows that folder under its name again, with the trail the opening left |
| Cache.CacheFileName | src-tauri/crates/daemon/src/cache.rs:29-31 | `<id>_<name>` with every '/' of the name replaced by '_' |
| Cache.CacheFileNameStaysInside | src-tauri/crates/daemon/src/cache.rs:29-31 | for an id without '/', the cache name has no '/' |
| Cache.CacheFileNamesDistinct | src-tauri/crates/daemon/src/cache.rs:29-31 | distinct ids of equal length give distinct cache names |
| Cache.CacheDir.constructor | src-tauri/crates/daemon/src/cache.rs:13-19 | an empty cache directory |
| Cache.CacheDir.GetFile | src-tauri/crates/daemon/src/cache.rs:21-69 | reuses a cached file of the right length; else removes it, creates an empty file for message -1, or fetches; "Message not found" for a missing message; a message without media still returns the path, with no file in the cache |
| Thumbnail.ChooseThumb | src-tauri/crates/core/src/client.rs:13-31 | `None` exactly when there are no thumbs; otherwise one of the thumbs |
| Thumbnail.FirstIndex | src-tauri/crates/core/src/client.rs:24-29 | the first index of a type |
| Thumbnail.PreferredIndex | src-tauri/crates/core/src/client.rs:24-31 | an index into the type list, `None` iff it is empty |
| Thumbnail.ChooseByTypes | src-tauri/crates/core/src/client.rs:24-31 | the choice is the thumb at the index the type list alone determines |
| Thumbnail.FindOfType | src-tauri/crates/core/src/client.rs:24-29 | the search for a type finds the thumb at its first index, or nothing iff the type is absent |
| FileCard.FileCategory | src/components/FileCard.tsx:66-83 | image, video, audio, pdf or generic, each exactly when its test is the first to pass |
| FileCard.IsVideoPassesVideoTest | src/components/FileCard.tsx:73-85 | whatever `isVideo` accepts also passes the icon's video test |
| FileCard.UpperCaseVideoMime | src/components/FileCard.tsx:73-85 | the converse fails: an upper-case video mime type has the video icon but is not `isVideo` |
| FileCard.FolderIcon | src/components/FileCard.tsx:42-87 | the icon under the item's key when it is one of FOLDER_ICONS, else the plain folder |
| FileCard.ClickAction | src/components/FileCard.tsx:100-108 | `onClick` when given; else navigate for a folder or preview for a file, if those handlers are given |
| FileCard.FolderBackground | src/components/FileCard.tsx:130 | the gradient, else the color, else "#22d3ee" |
| FileCard.FolderOpacity | src/components/FileCard.tsx:131 | opaque exactly under a cover image; 0.9 exactly for a gradient without one; 0.2 exactly with neither |
| Auth.FilterCountriesMember | src/components/Auth.tsx:270-275 | a country is listed iff its lowercased name contains the lowercased query or its code contains the query |
| Auth.EmptyQueryListsAll | src/components/Auth.tsx:270-275 | an empty query lists every country, in order |
| Auth.AuthForm.constructor | src/components/Auth.tsx:250-259 | the initial state: phone step, code "+91", nothing loading |
| Auth.AuthForm.FullPhone | src/components/Auth.tsx:282 | the dialling code followed by the phone |
| Auth.AuthForm.SelectCountry | src/components/Auth.tsx:435-439 | sets the code, closes the dropdown, clears the search |
| Auth.AuthForm.BeginSubmit | src/components/Auth.tsx:278-280 | loading on and error cleared, which disables the current submit button |
| Auth.AuthForm.FinishPhone | src/components/Auth.tsx:277-290 | success moves to the code step; failure keeps the step and sets the error; loading off |
| Auth.AuthForm.FinishCode | src/components/Auth.tsx:292-309 | success logs in; a PASSWORD_REQUIRED error moves to the password step with no error; other errors set the error, "Login failed" for a rejection without a string message; loading off |
| Auth.AuthForm.FinishPassword | src/components/Auth.tsx:311-324 | success logs in; failure sets the error and stays; loading off |
| Common.Find | src-tauri/crates/core/src/client.rs:24-29 | the first element satisfying the test, `None` iff there is none |
| Common.AsU64 | src-tauri/src/lib.rs:1347 | the `i64 as u64` cast: a non-negative size is kept, a negative one wraps by 2^64 |
| Common.Lower | src/components/FileCard.tsx:67-68 | lower-cases each character |
| Common.ReplaceChar | src-tauri/crates/daemon/src/cache.rs:29 | replaces each occurrence of one character |
| Common.DigitsValueOfNatToString | src-tauri/src/lib.rs:1363 | the decimal rendering of a number reads back as that number |

## Left out

- Telegram calls are inputs, not models: connecting, `request_login_code`, `sign_in`, `check_password`, part uploads, `SendMedia`, `get_messages_by_id`, `download_media`, `delete_messages`.
- File-system I/O is not modelled: temp files, `metadata()`, zip writing, session files, PID files. So are the `.part` renames.
- JSON persistence (`Database::new`, `save`, `reload`) is not modelled. The lock guards are left out too, and every store change is one sequential step.
- Concurrency is not modelled: the 16-way parallel part upload, the atomic progress counter, the React effect scheduling. Each queue update is one atomic step.
- Progress percentages and size formatting use floating point in the source. Progress is a `real` here, and the formatting is not modelled.
- "Not logged in" guards and `emit` progress events of the commands are not modelled.
- Commands.LoginState.LoginStart: a failure to load the session file (src-tauri/src/lib.rs:82) is not modelled. API credentials are one boolean input. The final "Failed after retry" is not modelled because no run reaches it.
- Backup.SplitPackets: packet sizes are unbounded integers. The source's `u64` running sum could in principle wrap; that needs over 2^64 bytes of entries.
- Common.AsU64: sizes below -2^64 are outside its contract and map to 0; the source's sizes are `i64` values, well inside.
- Store.FolderStats: returns `Diverges` on reaching a folder already on the stack, where the source recurses without end. Divergence is proved for two folders inside each other, not for every longer cycle.
- Store.FolderStats: `total_size` is an `i64` and `total_count` an `i32` (src-tauri/crates/core/src/db.rs:425-426); the model's sums are unbounded, so an overflow past those widths is not modelled.
- Commands.ReadParts: assumes every read fills the 512 KiB buffer while that much of the file is left. A short read would send more parts than `total_parts`; that is not modelled.
- Commands.TotalParts: `file_part` and `file_total_parts` are sent as `i32` casts (src-tauri/src/lib.rs:396-406); part numbers here are unbounded, so the truncation past 2^31 parts is not modelled.
- WebDav.Open, WebDav.DavFs.CreateDir, WebDav.DavFs.Rename: a parent path that parses again is taken to be the components before the last. A component whose text decodes differently a second time (one holding a `%` escape) is not modelled.
- Store.TotalUsageIsLiveSum: `get_total_usage` sums the sizes as `i64` (src-tauri/crates/core/src/db.rs:648-657), which wraps or panics past 2^63 - 1; `TotalUsage` sums unbounded integers, so that overflow is not modelled.
- Store.Database.CleanupTrash: `days * 24 * 60 * 60` is `i64` arithmetic (src-tauri/crates/core/src/db.rs:523), which overflows for a `days` above about 1.07e14; `TrashLimit` computes it on unbounded integers.
- Message identifiers are `i32` in the source (`Vec<i32>`, src-tauri/src/lib.rs:1107); `FileMetadata.messageId` is an unbounded `int`, so a value outside 32 bits is not modelled.
- WebDav.WriteFile.Flush: the recorded mime type is an input, where the source guesses it from the file name with `mime_guess::from_path` (src-tauri/crates/daemon/src/fs.rs:747).
- Backup.WalkAncestors: requires that the parent chain has no cycle, where the source would loop forever.
- Backup.DownloadFolder: takes a ghost fuel bound on the traversal, which a cyclic store cannot meet; the source would loop forever.
- Backup.DownloadFolder: the per-file message fetch, download and skip outcomes (src-tauri/src/lib.rs:1210-1257) are summarised as the planned downloads. The model states which files are fetched to which path, not whether each fetch succeeded.
- Cache.CacheDir.GetFile: a failure of `metadata()` or of creating the empty file is not modelled, and a failed download leaves no partial file.
- FileCard.FolderIcon: JavaScript prototype keys (such as "constructor") are not keys of FOLDER_ICONS here.
- Lower-casing is ASCII, not Unicode `toLowerCase`/`to_lowercase`.
- The COUNTRIES table is an abstract input sequence.
- Rendering, animation, theme and other UI-only state are not modelled.
- Dashboard.DashboardState.HandleUpload: a cancelled dialog is an empty selection.
- The thumbnail download and its base64 encoding (src-tauri/crates/core/src/client.rs:33 onwards) are not modelled.
- URL splitting and percent-decoding of WebDAV paths belong to the `dav_server` crate and are not modelled. So is the mapping of `FsError` to HTTP status codes.
- The clock and UUID generation are parameters.
- `extract_thumbnail_base64` selection is modelled, but `client.rs::connect` is not.

## Observations

- `WebDav.WriteFile.Flush` describes the source's order. A 0-byte ".DS_Store" is therefore recorded. A failed upload has already deleted the older versions of the file.
- `Dashboard.StaleCompletion` describes the source's use of the admission index. After the queue is cleared and refilled, a late completion settles whichever item now sits at that index.
- `FileCard.UpperCaseVideoMime` describes the source's `isVideo`. It tests the raw mime type, while the icon tests the lower-cased one.

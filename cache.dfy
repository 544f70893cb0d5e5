/** The WebDAV daemon's download cache (src-tauri/crates/daemon/src/cache.rs). The
    cache directory is a map from file name to file length; what the Telegram
    request and the media download return is an input. */
module Cache {
  import opened Common
  import opened Store

  /** The cache file of a record: its identifier, '_', and its name with every '/'
      replaced by '_'. */
  function CacheFileName(id: string, name: string): (r: string)
    ensures |r| == |id| + 1 + |name|
    ensures r[..|id|] == id && r[|id|] == '_'
    ensures forall i :: |id| < i < |r| ==> r[i] != '/'
    ensures forall i :: 0 <= i < |name| ==> r[|id| + 1 + i] == (if name[i] == '/' then '_' else name[i])
  {
    id + "_" + ReplaceChar(name, '/', '_')
  }

  /** Only the identifier part of a cache file name can hold a '/': the name never
      leaves the cache directory through the record's name. */
  lemma CacheFileNameStaysInside(id: string, name: string)
    requires forall i :: 0 <= i < |id| ==> id[i] != '/'
    ensures forall i :: 0 <= i < |CacheFileName(id, name)| ==> CacheFileName(id, name)[i] != '/'
  {
    var r := CacheFileName(id, name);
    forall i | 0 <= i < |r|
      ensures r[i] != '/'
    {
      if i < |id| {
        assert r[i] == r[..|id|][i];
      }
    }
  }

  /** Records with identifiers of one length (UUIDs) have distinct cache files
      when their identifiers differ. */
  lemma CacheFileNamesDistinct(id1: string, name1: string, id2: string, name2: string)
    requires |id1| == |id2| && id1 != id2
    ensures CacheFileName(id1, name1) != CacheFileName(id2, name2)
  {
    var a, b := CacheFileName(id1, name1), CacheFileName(id2, name2);
    assert a[..|id1|] == id1 && b[..|id1|] == id2;
  }

  /** What the fetch of a missing file returns: the message request fails, the
      message is missing, the media download fails, the message carries no media
      (the download reports that it wrote nothing, which `get_file` ignores), or
      the download writes `length` bytes. */
  datatype Fetch = RequestFailed(error: string) | NoMessage | DownloadFailed(reason: string) | NoMedia
                 | Downloaded(length: nat)

  /** A cached file is reused only when its length is the record's size. */
  predicate IsHit(dir: map<string, nat>, f: FileMetadata)
  {
    CacheFileName(f.id, f.name) in dir && dir[CacheFileName(f.id, f.name)] == AsU64(f.size)
  }

  class CacheDir {
    /** The files in the cache directory and their lengths. */
    var files: map<string, nat>

    constructor ()
      ensures files == map[]
    {
      files := map[];
    }

    /** `CacheManager::get_file`. A hit returns the cached file untouched. Otherwise
        a stale file is removed; a record without a message (`message_id == -1`)
        gets an empty file; anything else is fetched, and the file is kept when
        the download writes it. A message without media still yields the path,
        though no file is there. */
    method GetFile(f: FileMetadata, fetch: Fetch) returns (r: Outcome)
      modifies this
      ensures IsHit(old(files), f) ==> r == Ok(CacheFileName(f.id, f.name)) && files == old(files)
      ensures !IsHit(old(files), f) && f.messageId == -1 ==>
        r == Ok(CacheFileName(f.id, f.name)) && files == old(files)[CacheFileName(f.id, f.name) := 0]
      ensures !IsHit(old(files), f) && f.messageId != -1 ==>
        match fetch
        case RequestFailed(e) => r == Err(e) && files == old(files) - {CacheFileName(f.id, f.name)}
        case NoMessage => r == Err("Message not found") && files == old(files) - {CacheFileName(f.id, f.name)}
        case DownloadFailed(e) => r == Err(e) && files == old(files) - {CacheFileName(f.id, f.name)}
        case NoMedia =>
          r == Ok(CacheFileName(f.id, f.name)) && files == old(files) - {CacheFileName(f.id, f.name)} &&
          CacheFileName(f.id, f.name) !in files
        case Downloaded(n) => r == Ok(CacheFileName(f.id, f.name)) && files == old(files)[CacheFileName(f.id, f.name) := n]
    {
      var path := CacheFileName(f.id, f.name);
      if path in files {
        if files[path] == AsU64(f.size) {
          return Ok(path);
        }
        files := files - {path};
      }
      if f.messageId == -1 {
        files := files[path := 0];
        return Ok(path);
      }
      match fetch
      case RequestFailed(e) =>
        r := Err(e);
      case NoMessage =>
        r := Err("Message not found");
      case DownloadFailed(e) =>
        r := Err(e);
      case NoMedia =>
        r := Ok(path);
      case Downloaded(n) =>
        files := files[path := n];
        r := Ok(path);
    }
  }
}

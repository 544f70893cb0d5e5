/** The pure parts of the desktop app's backend commands: reading a FLOOD_WAIT
    delay out of a Telegram error, the login-code request with its single retry,
    the part arithmetic of an upload, which files a sync finds missing, and the
    location label of starred items. Telegram calls are replaced by their
    outcomes, which the commands receive as inputs. */
module Commands {
  import opened Common
  import opened Store

  // ---------------------------------------------------------------------------
  // Strings as Rust's `str` methods treat them
  // ---------------------------------------------------------------------------

  /** `char::is_whitespace`: the characters with the Unicode White_Space property. */
  predicate IsWhitespace(c: char)
  {
    var n := c as int;
    n == 0x20 || 0x09 <= n <= 0x0D || n == 0x85 || n == 0xA0 || n == 0x1680 || 0x2000 <= n <= 0x200A ||
    n == 0x2028 || n == 0x2029 || n == 0x202F || n == 0x205F || n == 0x3000
  }

  function TrimStart(s: string): (r: string)
    ensures |r| <= |s| && r == s[|s| - |r|..]
    ensures r != [] ==> !IsWhitespace(r[0])
    ensures forall i :: 0 <= i < |s| - |r| ==> IsWhitespace(s[i])
  {
    if s != [] && IsWhitespace(s[0]) then TrimStart(s[1..]) else s
  }

  function TrimEnd(s: string): (r: string)
    ensures |r| <= |s| && r == s[..|r|]
    ensures r != [] ==> !IsWhitespace(r[|r| - 1])
    ensures forall i :: |r| <= i < |s| ==> IsWhitespace(s[i])
  {
    if s != [] && IsWhitespace(s[|s| - 1]) then TrimEnd(s[..|s| - 1]) else s
  }

  /** `str::trim`. */
  function Trim(s: string): string
  {
    TrimEnd(TrimStart(s))
  }

  /** `str::trim_end_matches` with a single character. */
  function TrimEndMatches(s: string, c: char): (r: string)
    ensures |r| <= |s| && r == s[..|r|]
    ensures r != [] ==> r[|r| - 1] != c
    ensures forall i :: |r| <= i < |s| ==> s[i] == c
  {
    if s != [] && s[|s| - 1] == c then TrimEndMatches(s[..|s| - 1], c) else s
  }

  /** The first position at or after `from` where `sep` occurs. */
  function FirstOccurrence(s: string, sep: string, from: nat): (r: Option<nat>)
    ensures r.Some? ==> from <= r.value && OccursAt(s, sep, r.value) &&
                        forall j :: from <= j < r.value ==> !OccursAt(s, sep, j)
    ensures r.None? ==> forall j :: from <= j ==> !OccursAt(s, sep, j)
    decreases |s| - from
  {
    if from + |sep| > |s| then None
    else if OccursAt(s, sep, from) then Some(from)
    else FirstOccurrence(s, sep, from + 1)
  }

  /** `s.split(sep).nth(1)`: the text between the first and the second occurrence of
      `sep` (or up to the end), if `sep` occurs at all. */
  function SecondField(s: string, sep: string): Option<string>
  {
    match FirstOccurrence(s, sep, 0)
    case None => None
    case Some(i) =>
      var rest := s[i + |sep|..];
      match FirstOccurrence(rest, sep, 0)
      case Some(j) => Some(rest[..j])
      case None => Some(rest)
  }

  predicate AllDigits(s: string)
  {
    forall i :: 0 <= i < |s| ==> IsDigit(s[i])
  }

  /** The text `str::parse::<u64>` reads as digits: after an optional leading `+`. */
  function UnsignedDigits(s: string): string
  {
    if |s| > 0 && s[0] == '+' then s[1..] else s
  }

  /** `str::parse::<u64>`: an optional `+`, then one or more decimal digits, with a
      value below 2^64; anything else is an error. */
  function ParseU64(s: string): (r: Option<nat>)
    ensures r.Some? <==>
      UnsignedDigits(s) != [] && AllDigits(UnsignedDigits(s)) && DigitsValue(UnsignedDigits(s)) < U64Limit
    ensures r.Some? ==> r.value == DigitsValue(UnsignedDigits(s)) && r.value < U64Limit
  {
    var digits := UnsignedDigits(s);
    if digits == [] || !AllDigits(digits) then None
    else if DigitsValue(digits) < U64Limit then Some(DigitsValue(digits))
    else None
  }

  /** Every `u64`, written in decimal with or without a `+`, parses back. */
  lemma ParseU64RoundTrip(n: nat)
    requires n < U64Limit
    ensures ParseU64(NatToString(n)) == Some(n)
    ensures ParseU64("+" + NatToString(n)) == Some(n)
  {
    DigitsValueOfNatToString(n);
    assert NatToString(n)[0] != '+';
    assert ("+" + NatToString(n))[1..] == NatToString(n);
  }

  // ---------------------------------------------------------------------------
  // FLOOD_WAIT
  // ---------------------------------------------------------------------------

  /** The delay a FLOOD_WAIT error asks for: the number after `value: `, with
      trailing parentheses and surrounding whitespace removed; 0 when absent or
      not a valid `u64`. */
  function FloodWaitSeconds(message: string): (r: nat)
    ensures r < U64Limit
    ensures SecondField(message, "value: ").None? ==> r == 0
    ensures SecondField(message, "value: ").Some? ==>
      var parsed := ParseU64(Trim(TrimEndMatches(SecondField(message, "value: ").value, ')')));
      (parsed.None? ==> r == 0) && (parsed.Some? ==> r == parsed.value)
  {
    match SecondField(message, "value: ")
    case None => 0
    case Some(field) => UnwrapOr(ParseU64(Trim(TrimEndMatches(field, ')'))), 0)
  }

  /** Hours, minutes and seconds of a delay. */
  function Hms(seconds: nat): (r: (nat, nat, nat))
    ensures r.0 * 3600 + r.1 * 60 + r.2 == seconds
    ensures r.1 < 60 && r.2 < 60
  {
    (seconds / 3600, (seconds % 3600) / 60, seconds % 60)
  }

  /** The message shown for a FLOOD_WAIT error. */
  function FloodWaitText(seconds: nat): string
  {
    if seconds > 0 then
      var (h, m, s) := Hms(seconds);
      "Too many attempts. Please wait " + NatToString(h) + "h " + NatToString(m) + "m " + NatToString(s) + "s."
    else "Too many attempts. Please wait a while before trying again."
  }

  /** A decimal rendering contains no letter `v`, so the separator cannot start in it. */
  lemma NoSeparatorIn(s: string, t: string)
    requires forall i :: 0 <= i < |s| ==> s[i] != 'v'
    ensures forall j :: 0 <= j < |s| ==> !OccursAt(s + t, "value: ", j)
  {
    forall j | 0 <= j < |s|
      ensures !OccursAt(s + t, "value: ", j)
    {
      assert (s + t)[j] == s[j];
      if j + 7 <= |s + t| {
        assert (s + t)[j..j + 7][0] == (s + t)[j];
      }
    }
  }

  /** When `prefix` does not contain the separator, the separator written after it
      is the first one: its `v` occurs nowhere else in the separator, so no
      occurrence can start inside `prefix` and run into it. */
  lemma NoEarlierSeparator(prefix: string, t: string)
    requires !Contains(prefix, "value: ")
    ensures forall j :: 0 <= j < |prefix| ==> !OccursAt(prefix + "value: " + t, "value: ", j)
  {
    var msg := prefix + "value: " + t;
    forall j | 0 <= j < |prefix|
      ensures !OccursAt(msg, "value: ", j)
    {
      if j + 7 <= |prefix| {
        assert !OccursAt(prefix, "value: ", j);
        assert msg[j..j + 7] == prefix[j..j + 7];
      } else if j + 7 <= |msg| {
        var k := |prefix| - j;
        assert msg[|prefix|] == 'v';
        assert msg[j..j + 7][k] == 'v' && "value: "[k] != 'v';
      }
    }
  }

  lemma TrimDigits(d: string)
    requires d != [] && AllDigits(d)
    ensures Trim(TrimEndMatches(d + ")", ')')) == d
  {
    assert (d + ")")[..|d|] == d;
    assert TrimEndMatches(d + ")", ')') == TrimEndMatches(d, ')');
    assert TrimEndMatches(d, ')') == d;
    assert !IsWhitespace(d[0]);
    assert TrimStart(d) == d;
    assert !IsWhitespace(d[|d| - 1]);
  }

  /** Reading back a delay the server wrote as `... value: <n>)`, behind any text
      in which `value: ` does not occur, gives the delay. */
  lemma FloodWaitRoundTrip(prefix: string, n: nat)
    requires !Contains(prefix, "value: ")
    requires n < U64Limit
    ensures FloodWaitSeconds(prefix + "value: " + NatToString(n) + ")") == n
  {
    var digits := NatToString(n);
    var msg := prefix + "value: " + digits + ")";
    assert msg == prefix + ("value: " + digits + ")");
    assert msg == prefix + "value: " + (digits + ")");
    NoEarlierSeparator(prefix, digits + ")");
    assert msg[|prefix|..|prefix| + 7] == "value: ";
    assert OccursAt(msg, "value: ", |prefix|);
    var first := FirstOccurrence(msg, "value: ", 0);
    assert first.Some? && first.value <= |prefix|;
    assert !OccursAt(msg, "value: ", first.value) || first.value == |prefix|;
    assert first == Some(|prefix|);
    var rest := msg[|prefix| + 7..];
    assert rest == digits + ")";
    assert forall i :: 0 <= i < |digits| ==> digits[i] != 'v';
    NoSeparatorIn(digits, ")");
    assert FirstOccurrence(rest, "value: ", 0).None?;
    TrimDigits(digits);
    ParseU64RoundTrip(n);
  }

  // ---------------------------------------------------------------------------
  // Requesting a login code
  // ---------------------------------------------------------------------------

  /** Outcome of connecting a fresh client. */
  datatype Connect = Connected | ConnectFailed(error: string)

  /** Outcome of `request_login_code`: a phone-code token or the error's text. */
  datatype CodeRequest = CodeSent(token: string) | RequestFailed(message: string)

  /** Errors after which the session is discarded and the request tried again. */
  predicate IsRestart(message: string)
  {
    Contains(message, "AUTH_RESTART") || Contains(message, "rpc error 500")
  }

  /** The error returned for a failed request that is not retried. */
  function RequestError(message: string): Outcome
  {
    if Contains(message, "FLOOD_WAIT") then Err(FloodWaitText(FloodWaitSeconds(message)))
    else Err("Failed to send code: " + message)
  }

  /** The login state kept in `AppState`: whether a client is connected, and the
      tokens of the login in progress. */
  class LoginState {
    var hasClient: bool
    var phoneToken: Option<string>
    var passwordToken: Option<string>

    constructor ()
      ensures !hasClient && phoneToken.None? && passwordToken.None?
    {
      hasClient := false;
      phoneToken := None;
      passwordToken := None;
    }

    /** `login_start`: drops any connected client, refuses to go on without API
        credentials (`hasCredentials`, read from the build or the environment), then
        makes at most two attempts; attempt `k` connects with `connects[k]` when no
        client is present and then gets `requests[k]`. Only the first attempt is
        retried, only on a restart error, and only after the client is dropped, so
        each attempt connects afresh. `requestsMade` counts the code requests sent. */
    method LoginStart(hasCredentials: bool, connects: seq<Connect>, requests: seq<CodeRequest>) returns (r: Outcome, requestsMade: nat)
      requires |connects| == 2 && |requests| == 2
      modifies this
      ensures requestsMade <= 2
      ensures !hasCredentials ==> r == Err("API Credentials missing in .env") && requestsMade == 0 && !hasClient
      ensures hasCredentials && connects[0].ConnectFailed? ==>
        r == Err(connects[0].error) && requestsMade == 0 && !hasClient
      ensures hasCredentials && connects[0].Connected? ==>
        requestsMade >= 1 &&
        match requests[0]
        case CodeSent(t) =>
          r == Ok("Code sent") && requestsMade == 1 && hasClient && phoneToken == Some(t) && passwordToken.None?
        case RequestFailed(m) =>
          if !IsRestart(m) then r == RequestError(m) && requestsMade == 1 && hasClient
          else
            match connects[1]
            case ConnectFailed(e) => r == Err(e) && requestsMade == 1 && !hasClient
            case Connected =>
              requestsMade == 2 && hasClient &&
              match requests[1]
              case CodeSent(t) => r == Ok("Code sent") && phoneToken == Some(t) && passwordToken.None?
              case RequestFailed(m2) => r == RequestError(m2)
      ensures r.Err? ==> phoneToken == old(phoneToken) && passwordToken == old(passwordToken)
    {
      hasClient := false;
      requestsMade := 0;
      if !hasCredentials {
        return Err("API Credentials missing in .env"), requestsMade;
      }
      var attempt := 0;
      while true
        invariant attempt <= 1 && requestsMade == attempt && !hasClient
        invariant attempt == 1 ==> requests[0].RequestFailed? && IsRestart(requests[0].message) && connects[0].Connected?
        invariant phoneToken == old(phoneToken) && passwordToken == old(passwordToken)
        decreases 2 - attempt
      {
        if !hasClient {
          match connects[attempt]
          case ConnectFailed(e) =>
            return Err(e), requestsMade;
          case Connected =>
            hasClient := true;
        }
        requestsMade := requestsMade + 1;
        match requests[attempt]
        case CodeSent(t) =>
          phoneToken := Some(t);
          passwordToken := None;
          return Ok("Code sent"), requestsMade;
        case RequestFailed(m) =>
          if attempt == 0 && IsRestart(m) {
            hasClient := false;
            attempt := 1;
            continue;
          }
          return RequestError(m), requestsMade;
      }
    }
  }

  // ---------------------------------------------------------------------------
  // Uploading: part arithmetic
  // ---------------------------------------------------------------------------

  /** Files above 10 MiB go through the big-file upload calls. */
  const BigFileThreshold: nat := 10 * 1024 * 1024

  /** Each part carries 512 KiB. */
  const ChunkSize: nat := 512 * 1024

  predicate IsBig(size: nat)
  {
    size > BigFileThreshold
  }

  /** `total_parts`: the number of parts, rounded up. */
  function TotalParts(size: nat): (n: nat)
    ensures n * ChunkSize >= size
    ensures n > 0 ==> (n - 1) * ChunkSize < size
    ensures n == 0 <==> size == 0
  {
    (size + ChunkSize - 1) / ChunkSize
  }

  function Sum(s: seq<nat>): nat
  {
    if s == [] then 0 else Sum(s[..|s| - 1]) + s[|s| - 1]
  }

  lemma SumSnoc(s: seq<nat>, x: nat)
    ensures Sum(s + [x]) == Sum(s) + x
  {
    assert (s + [x])[..|s|] == s;
  }

  /** The upload's read loop, under reads that fill the buffer whenever the file has
      that much left: the part lengths it sends. Exactly `TotalParts` parts, every
      part full but the last, and all bytes covered once. */
  method ReadParts(size: nat) returns (parts: seq<nat>)
    ensures |parts| == TotalParts(size)
    ensures Sum(parts) == size
    ensures forall i :: 0 <= i < |parts| ==> 0 < parts[i] <= ChunkSize
    ensures forall i :: 0 <= i < |parts| - 1 ==> parts[i] == ChunkSize
  {
    parts := [];
    var remaining: nat := size;
    while remaining > 0
      invariant Sum(parts) + remaining == size
      invariant forall i :: 0 <= i < |parts| ==> 0 < parts[i] <= ChunkSize
      invariant remaining > 0 ==> forall i :: 0 <= i < |parts| ==> parts[i] == ChunkSize
      invariant forall i :: 0 <= i < |parts| - 1 ==> parts[i] == ChunkSize
      invariant remaining > 0 ==> Sum(parts) == |parts| * ChunkSize
      invariant remaining == 0 ==> |parts| == TotalParts(size)
      decreases remaining
    {
      var n := if remaining < ChunkSize then remaining else ChunkSize;
      SumSnoc(parts, n);
      if n == remaining {
        PartsCount(|parts|, remaining, size);
      }
      parts := parts + [n];
      remaining := remaining - n;
    }
  }

  /** A run of `k` full parts followed by a last part of `r` bytes is the rounded-up count. */
  lemma PartsCount(k: nat, r: nat, size: nat)
    requires 0 < r <= ChunkSize && size == k * ChunkSize + r
    ensures k + 1 == TotalParts(size)
  {
    var n := TotalParts(size);
    LessByFactor(k, n, ChunkSize);
    LessByFactor(n - 1, k + 1, ChunkSize);
  }

  lemma LessByFactor(a: int, b: int, c: int)
    requires c > 0 && a * c < b * c
    ensures a < b
  {
  }

  // ---------------------------------------------------------------------------
  // Sync: which records lost their message
  // ---------------------------------------------------------------------------

  const SyncBatch: nat := 50

  /** What `get_messages_by_id` returned for one identifier. */
  datatype Reply = NoMessage | Message(hasMedia: bool)

  /** A record is broken when its message is gone or carries no media. */
  predicate IsMissing(r: Reply)
  {
    r.NoMessage? || !r.hasMedia
  }

  function NumBatches(n: nat): nat
  {
    (n + SyncBatch - 1) / SyncBatch
  }

  /** The records of batch `c`: positions `50c` up to `50c + 50`, clipped. */
  function Batch(files: seq<FileMetadata>, c: nat): (b: seq<FileMetadata>)
    requires c < NumBatches(|files|)
    ensures |b| <= SyncBatch
  {
    var lo := c * SyncBatch;
    var hi := if lo + SyncBatch < |files| then lo + SyncBatch else |files|;
    files[lo..hi]
  }

  /** What one `get_messages_by_id` call gave: the replies, or the client's error
      text. */
  datatype Fetch = Fetched(replies: seq<Reply>) | FetchError(error: string)

  /** One fetch per batch, and a batch that was answered has at most one reply per
      requested message, position by position. */
  ghost predicate RepliesFit(files: seq<FileMetadata>, fetches: seq<Fetch>)
  {
    |fetches| == NumBatches(|files|) &&
    forall c :: 0 <= c < |fetches| && fetches[c].Fetched? ==> |fetches[c].replies| <= |Batch(files, c)|
  }

  /** The first `c` batches were answered. */
  predicate AllFetched(fetches: seq<Fetch>, c: nat)
    requires c <= |fetches|
  {
    forall k :: 0 <= k < c ==> fetches[k].Fetched?
  }

  /** The index of the first batch the server failed to answer, if any. */
  function FirstFailure(fetches: seq<Fetch>): (r: Option<nat>)
    ensures r.None? <==> AllFetched(fetches, |fetches|)
    ensures r.Some? ==> r.value < |fetches| && fetches[r.value].FetchError? && AllFetched(fetches, r.value)
  {
    if fetches == [] then None
    else if fetches[0].FetchError? then Some(0)
    else match FirstFailure(fetches[1..])
      case None => None
      case Some(k) => Some(k + 1)
  }

  /** Identifiers of the batch's records whose aligned reply is missing, from the
      first `|reply|` positions. */
  function MissingInBatch(batch: seq<FileMetadata>, reply: seq<Reply>): seq<string>
    requires |reply| <= |batch|
  {
    if reply == [] then []
    else
      var n := |reply| - 1;
      MissingInBatch(batch, reply[..n]) + (if IsMissing(reply[n]) then [batch[n].id] else [])
  }

  /** The missing identifiers of the first `c` batches. */
  function MissingUpTo(files: seq<FileMetadata>, fetches: seq<Fetch>, c: nat): seq<string>
    requires RepliesFit(files, fetches) && c <= |fetches| && AllFetched(fetches, c)
  {
    if c == 0 then []
    else MissingUpTo(files, fetches, c - 1) + MissingInBatch(Batch(files, c - 1), fetches[c - 1].replies)
  }

  lemma MissingInBatchNext(batch: seq<FileMetadata>, reply: seq<Reply>, i: nat)
    requires i < |reply| <= |batch|
    ensures IsMissing(reply[i]) ==> MissingInBatch(batch, reply[..i + 1]) == MissingInBatch(batch, reply[..i]) + [batch[i].id]
    ensures !IsMissing(reply[i]) ==> MissingInBatch(batch, reply[..i + 1]) == MissingInBatch(batch, reply[..i])
  {
    assert reply[..i + 1][..i] == reply[..i];
  }

  /** An identifier is reported for a batch exactly when some answered position of
      the batch holds that record and its reply says missing. */
  lemma {:induction false} MissingInBatchMember(batch: seq<FileMetadata>, reply: seq<Reply>, x: string)
    requires |reply| <= |batch|
    ensures x in MissingInBatch(batch, reply) <==>
      exists i :: 0 <= i < |reply| && batch[i].id == x && IsMissing(reply[i])
  {
    if reply != [] {
      var n := |reply| - 1;
      MissingInBatchMember(batch, reply[..n], x);
      assert forall i :: 0 <= i < n ==> reply[..n][i] == reply[i];
    }
  }

  /** `sync_files`: asks for the account (`meError` is the error of `get_me`, if
      it failed), then for the messages batch by batch; the first failed call ends
      the command with its error and nothing removed. Otherwise it collects the
      identifiers of records whose message is gone or has no media, removes exactly
      those records and reports their number. */
  method SyncFiles(db: Database, meError: Option<string>, fetches: seq<Fetch>)
    returns (r: Outcome, missing: seq<string>)
    requires db.Valid() && RepliesFit(db.files, fetches)
    modifies db
    ensures db.Valid() && db.folders == old(db.folders)
    ensures meError.Some? ==> r == Err(meError.value) && db.files == old(db.files)
    ensures meError.None? && old(db.files) == [] ==> r == Ok("No files to sync.") && db.files == old(db.files)
    ensures meError.None? && old(db.files) != [] && FirstFailure(fetches).Some? ==>
      r == Err(fetches[FirstFailure(fetches).value].error) && db.files == old(db.files)
    ensures meError.None? && old(db.files) != [] && FirstFailure(fetches).None? ==>
      missing == MissingUpTo(old(db.files), fetches, |fetches|) &&
      db.files == Filter(old(db.files), FileIdNotIn(missing)) &&
      r == Ok(if |missing| > 0 then "Sync complete. Removed " + NatToString(|missing|) + " deleted files."
              else "Sync complete. All files are up to date.")
  {
    missing := [];
    if meError.Some? {
      return Err(meError.value), missing;
    }
    if db.files == [] {
      return Ok("No files to sync."), missing;
    }
    var all := db.files;
    for c := 0 to |fetches|
      invariant unchanged(db)
      invariant AllFetched(fetches, c)
      invariant FirstFailure(fetches).None? || FirstFailure(fetches).value >= c
      invariant missing == MissingUpTo(all, fetches, c)
    {
      if fetches[c].FetchError? {
        FirstFailureIs(fetches, c);
        return Err(fetches[c].error), missing;
      }
      var batch := Batch(all, c);
      var reply := fetches[c].replies;
      for i := 0 to |reply|
        invariant unchanged(db)
        invariant missing == MissingUpTo(all, fetches, c) + MissingInBatch(batch, reply[..i])
      {
        MissingInBatchNext(batch, reply, i);
        if IsMissing(reply[i]) {
          missing := missing + [batch[i].id];
        }
      }
      assert reply[..|reply|] == reply;
    }
    if |missing| > 0 {
      db.DeleteFilesByIds(missing);
      r := Ok("Sync complete. Removed " + NatToString(|missing|) + " deleted files.");
    } else {
      FilterAll(db.files, FileIdNotIn(missing));
      r := Ok("Sync complete. All files are up to date.");
    }
  }

  /** A failed batch after answered ones is the first failure. */
  lemma {:induction false} FirstFailureIs(fetches: seq<Fetch>, c: nat)
    requires c < |fetches| && AllFetched(fetches, c) && fetches[c].FetchError?
    ensures FirstFailure(fetches) == Some(c)
  {
    if c > 0 {
      FirstFailureIs(fetches[1..], c - 1);
    }
  }

  /** The location shown next to a starred item: "In: My Drive" at the root, the
      parent's name when the parent exists, nothing for a dangling parent. */
  function PathDisplay(folders: seq<Folder>, parent: Option<string>): (r: Option<string>)
    ensures parent.None? ==> r == Some("In: My Drive")
    ensures parent.Some? ==> (r.Some? <==> HasFolder(folders, parent.value))
    ensures parent.Some? && r.Some? ==>
      exists k :: 0 <= k < |folders| && folders[k].id == parent.value && r.value == "In: " + folders[k].name
  {
    match parent
    case None => Some("In: My Drive")
    case Some(fid) =>
      match LookupFolderName(folders, fid)
      case Some(name) => Some("In: " + name)
      case None => None
  }

  /** `fetch_starred`: every starred live item, paired with its location label. */
  function FetchStarred(folders: seq<Folder>, files: seq<FileMetadata>)
    : (r: (seq<(Folder, Option<string>)>, seq<(FileMetadata, Option<string>)>))
    ensures |r.0| == |GetStarred(folders, files).0| && |r.1| == |GetStarred(folders, files).1|
    ensures forall i :: 0 <= i < |r.0| ==>
      r.0[i].0 == GetStarred(folders, files).0[i] && r.0[i].1 == PathDisplay(folders, r.0[i].0.parentId)
    ensures forall i :: 0 <= i < |r.1| ==>
      r.1[i].0 == GetStarred(folders, files).1[i] && r.1[i].1 == PathDisplay(folders, r.1[i].0.folderId)
  {
    var (sf, sfl) := GetStarred(folders, files);
    (seq(|sf|, i requires 0 <= i < |sf| => (sf[i], PathDisplay(folders, sf[i].parentId))),
     seq(|sfl|, i requires 0 <= i < |sfl| => (sfl[i], PathDisplay(folders, sfl[i].folderId))))
  }
}

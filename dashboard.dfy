/** The Dashboard's upload queue and breadcrumb navigation (src/components/Dashboard.tsx).
    Each React state update is one atomic step here: the queue, the breadcrumbs,
    the current folder and the refresh counter are fields of one object, and each
    handler is a method that replaces them. */
module Dashboard {
  import opened Common

  datatype Status = Pending | Uploading | Completed | Error

  /** A queue entry; `targetFolderId` is the folder shown when the file was picked. */
  datatype Item = Item(path: string, name: string, status: Status, progress: real, targetFolderId: Option<string>)

  /** What an admitted upload captures: the queue index it was admitted at, and the
      path, display name and target folder it uploads with. */
  datatype Upload = Upload(index: nat, path: string, name: string, folderId: Option<string>)

  datatype Crumb = Crumb(id: Option<string>, name: string)

  /** At most this many uploads run at once. */
  const MaxActive: nat := 3

  // ---------------------------------------------------------------------------
  // Queue selectors
  // ---------------------------------------------------------------------------

  /** The number of items with status `st` (`filter(..).length`). */
  function Count(q: seq<Item>, st: Status): nat
  {
    if q == [] then 0 else Count(q[..|q| - 1], st) + (if q[|q| - 1].status == st then 1 else 0)
  }

  lemma CountSnoc(q: seq<Item>, x: Item, st: Status)
    ensures Count(q + [x], st) == Count(q, st) + (if x.status == st then 1 else 0)
  {
    assert (q + [x])[..|q|] == q;
  }

  /** No item has status `st` exactly when the count is zero. */
  lemma {:induction false} CountZero(q: seq<Item>, st: Status)
    ensures Count(q, st) == 0 <==> forall i :: 0 <= i < |q| ==> q[i].status != st
  {
    if q != [] {
      var n := |q| - 1;
      CountZero(q[..n], st);
      assert forall i :: 0 <= i < n ==> q[..n][i] == q[i];
    }
  }

  /** Counting over two joined queues adds up. */
  lemma {:induction false} CountConcat(a: seq<Item>, b: seq<Item>, st: Status)
    ensures Count(a + b, st) == Count(a, st) + Count(b, st)
    decreases |b|
  {
    if b == [] {
      assert a + b == a;
    } else {
      var n := |b| - 1;
      assert a + b == (a + b[..n]) + [b[n]];
      CountConcat(a, b[..n], st);
      CountSnoc(a + b[..n], b[n], st);
    }
  }

  /** Two queues whose items have the same statuses position by position have the
      same counts. */
  lemma {:induction false} CountSameStatuses(a: seq<Item>, b: seq<Item>, st: Status)
    requires |a| == |b| && forall i :: 0 <= i < |a| ==> a[i].status == b[i].status
    ensures Count(a, st) == Count(b, st)
  {
    if a != [] {
      var n := |a| - 1;
      assert forall i :: 0 <= i < n ==> a[..n][i] == a[i] && b[..n][i] == b[i];
      CountSameStatuses(a[..n], b[..n], st);
    }
  }

  /** Replacing one item changes the count by what leaves and what arrives. */
  lemma {:induction false} CountUpdate(q: seq<Item>, k: nat, x: Item, st: Status)
    requires k < |q|
    ensures Count(q[k := x], st) == Count(q, st) - (if q[k].status == st then 1 else 0) + (if x.status == st then 1 else 0)
  {
    var n := |q| - 1;
    var r := q[k := x];
    assert r[..n] == if k < n then q[..n][k := x] else q[..n];
    if k < n {
      CountUpdate(q[..n], k, x, st);
    }
  }

  /** The lowest index of a pending item (`findIndex(item => item.status === 'pending')`,
      with `None` for -1). */
  function FirstPending(q: seq<Item>): (r: Option<nat>)
    ensures r.None? <==> forall i :: 0 <= i < |q| ==> q[i].status != Pending
    ensures r.Some? ==>
      r.value < |q| && q[r.value].status == Pending && forall j :: 0 <= j < r.value ==> q[j].status != Pending
  {
    if q == [] then None
    else if q[0].status == Pending then Some(0)
    else
      var r := FirstPending(q[1..]);
      assert forall i :: 1 <= i < |q| ==> q[i] == q[1..][i - 1];
      match r
      case None => None
      case Some(k) => Some(k + 1)
  }

  /** The progress listener's update: items with the event's path that are
      uploading take the event's progress. */
  function WithProgress(q: seq<Item>, path: string, progress: real): (r: seq<Item>)
    ensures |r| == |q|
    ensures forall i :: 0 <= i < |q| ==>
      r[i].status == q[i].status && r[i].path == q[i].path && r[i].name == q[i].name && r[i].targetFolderId == q[i].targetFolderId
    ensures forall i :: 0 <= i < |q| ==>
      r[i].progress == (if q[i].path == path && q[i].status == Uploading then progress else q[i].progress)
  {
    seq(|q|, i requires 0 <= i < |q| =>
      if q[i].path == path && q[i].status == Uploading then q[i].(progress := progress) else q[i])
  }

  /** A progress event changes no status, so no count. */
  lemma ProgressKeepsCounts(q: seq<Item>, path: string, progress: real, st: Status)
    ensures Count(WithProgress(q, path, progress), st) == Count(q, st)
  {
    CountSameStatuses(WithProgress(q, path, progress), q, st);
  }

  /** The status an upload settles in. */
  function Settled(success: bool): Status
  {
    if success then Completed else Error
  }

  /** The completion update: the item at the admission index becomes completed
      with progress 100, or failed with progress 0. */
  function Settle(q: seq<Item>, index: nat, success: bool): (r: seq<Item>)
    ensures |r| == |q|
    ensures forall i :: 0 <= i < |q| && i != index ==> r[i] == q[i]
    ensures index < |q| ==> r[index] == q[index].(status := Settled(success), progress := if success then 100.0 else 0.0)
  {
    seq(|q|, i requires 0 <= i < |q| =>
      if i == index then q[i].(status := Settled(success), progress := if success then 100.0 else 0.0) else q[i])
  }

  /** A completion never adds to the number of running uploads. */
  lemma SettleKeepsCap(q: seq<Item>, index: nat, success: bool)
    ensures Count(Settle(q, index, success), Uploading) <= Count(q, Uploading)
  {
    if index < |q| {
      assert Settle(q, index, success) == q[index := Settle(q, index, success)[index]];
      CountUpdate(q, index, Settle(q, index, success)[index], Uploading);
    } else {
      assert Settle(q, index, success) == q;
    }
  }

  /** The stale-index hazard: when the queue was cleared and refilled while an
      upload ran, its completion lands on whatever item now sits at the captured
      index. A pending item hit this way is marked settled without being uploaded,
      and leaves the pending set, so it is never admitted. */
  lemma StaleCompletion(q: seq<Item>, index: nat, success: bool)
    requires index < |q| && q[index].status == Pending
    ensures Settle(q, index, success)[index].path == q[index].path
    ensures Settle(q, index, success)[index].status == Settled(success)
    ensures Count(Settle(q, index, success), Pending) == Count(q, Pending) - 1
  {
    assert Settle(q, index, success) == q[index := Settle(q, index, success)[index]];
    CountUpdate(q, index, Settle(q, index, success)[index], Pending);
  }

  /** `path.split(/[/\\]/).pop()`: the text after the last '/' or '\'. */
  function LastSegment(path: string): (r: string)
    ensures |r| <= |path| && r == path[|path| - |r|..]
    ensures forall i :: 0 <= i < |r| ==> r[i] != '/' && r[i] != '\\'
    ensures |r| < |path| ==> path[|path| - |r| - 1] == '/' || path[|path| - |r| - 1] == '\\'
  {
    if path == [] then []
    else if path[|path| - 1] == '/' || path[|path| - 1] == '\\' then []
    else
      var n := |path| - 1;
      var r := LastSegment(path[..n]);
      assert path[..n][n - |r|..] == path[n - |r|..n];
      r + [path[n]]
  }

  /** The display name of a picked file: its last segment, or "Unknown File" when
      that is empty. */
  function DisplayName(path: string): (r: string)
    ensures r == "Unknown File" || (r != [] && r == LastSegment(path))
  {
    var s := LastSegment(path);
    if s == [] then "Unknown File" else s
  }

  /** The items handleUpload appends: one per picked path, pending, at progress 0,
      aimed at the folder shown when the files were picked. */
  function NewItems(paths: seq<string>, target: Option<string>): (r: seq<Item>)
    ensures |r| == |paths|
    ensures forall i :: 0 <= i < |paths| ==>
      r[i] == Item(paths[i], DisplayName(paths[i]), Pending, 0.0, target)
  {
    seq(|paths|, i requires 0 <= i < |paths| => Item(paths[i], DisplayName(paths[i]), Pending, 0.0, target))
  }

  /** Appending picked files starts no upload. */
  lemma NewItemsIdle(paths: seq<string>, target: Option<string>, q: seq<Item>)
    ensures Count(q + NewItems(paths, target), Uploading) == Count(q, Uploading)
    ensures Count(q + NewItems(paths, target), Pending) == Count(q, Pending) + |paths|
  {
    var items := NewItems(paths, target);
    CountZero(items, Uploading);
    CountConcat(q, items, Uploading);
    CountConcat(q, items, Pending);
    AllPending(items);
  }

  lemma {:induction false} AllPending(items: seq<Item>)
    requires forall i :: 0 <= i < |items| ==> items[i].status == Pending
    ensures Count(items, Pending) == |items|
  {
    if items != [] {
      var n := |items| - 1;
      assert forall i :: 0 <= i < n ==> items[..n][i] == items[i];
      AllPending(items[..n]);
    }
  }

  /** The upload panel's header. */
  function HeaderText(q: seq<Item>): string
  {
    var n := Count(q, Pending) + Count(q, Uploading);
    if n == 0 then "Uploads complete" else "Uploading " + NatToString(n) + " items"
  }

  /** The header says the uploads are complete exactly when every item has
      completed or failed. */
  lemma HeaderComplete(q: seq<Item>)
    ensures HeaderText(q) == "Uploads complete" <==>
      forall i :: 0 <= i < |q| ==> q[i].status == Completed || q[i].status == Error
  {
    CountZero(q, Pending);
    CountZero(q, Uploading);
    var n := Count(q, Pending) + Count(q, Uploading);
    if n != 0 {
      var t := "Uploading " + NatToString(n) + " items";
      assert t[6] == 'i' && "Uploads complete"[6] == 's';
    }
  }

  // ---------------------------------------------------------------------------
  // Breadcrumbs
  // ---------------------------------------------------------------------------

  /** The folder a breadcrumb leads to: the crumb's id, with 'root' meaning the root. */
  function CrumbFolder(c: Crumb): (r: Option<string>)
    ensures r.None? <==> c.id.None? || c.id == Some("root")
    ensures r.Some? ==> r == c.id
  {
    if c.id == Some("root") then None else c.id
  }

  /** The title a breadcrumb click shows. */
  function CrumbTitle(c: Crumb): string
  {
    if c.name == "Home" then "My Cloud" else c.name
  }

  // ---------------------------------------------------------------------------
  // The component's state
  // ---------------------------------------------------------------------------

  class DashboardState {
    var uploadQueue: seq<Item>
    var currentFolder: Option<string>
    var folderName: string
    var breadcrumbs: seq<Crumb>
    var refresh: nat

    /** The trail is never empty and at most three items are marked uploading. */
    predicate Valid()
      reads this
    {
      |breadcrumbs| >= 1 && Count(uploadQueue, Uploading) <= MaxActive
    }

    /** The initial state: the root is shown, the queue is empty. */
    constructor ()
      ensures Valid()
      ensures uploadQueue == [] && currentFolder == None && folderName == "My Drive"
      ensures breadcrumbs == [Crumb(None, "My Drive")] && refresh == 0
    {
      uploadQueue := [];
      currentFolder := None;
      folderName := "My Drive";
      breadcrumbs := [Crumb(None, "My Drive")];
      refresh := 0;
    }

    /** processQueue: with fewer than three uploads running, the first pending item
        becomes uploading at progress 0 and is returned for upload with the target
        folder stored in it; otherwise nothing changes. */
    method ProcessQueue() returns (started: Option<Upload>)
      requires Valid()
      modifies this
      ensures Valid()
      ensures started.Some? <==>
        Count(old(uploadQueue), Uploading) < MaxActive && exists i :: 0 <= i < |old(uploadQueue)| && old(uploadQueue)[i].status == Pending
      ensures started.None? ==> uploadQueue == old(uploadQueue)
      ensures started.Some? ==>
        var k := started.value.index;
        k < |old(uploadQueue)| && old(uploadQueue)[k].status == Pending &&
        (forall j :: 0 <= j < k ==> old(uploadQueue)[j].status != Pending) &&
        uploadQueue == old(uploadQueue)[k := old(uploadQueue)[k].(status := Uploading, progress := 0.0)] &&
        started.value == Upload(k, old(uploadQueue)[k].path, old(uploadQueue)[k].name, old(uploadQueue)[k].targetFolderId)
      ensures currentFolder == old(currentFolder) && folderName == old(folderName)
      ensures breadcrumbs == old(breadcrumbs) && refresh == old(refresh)
    {
      var active := Count(uploadQueue, Uploading);
      if active >= MaxActive {
        return None;
      }
      var pending := FirstPending(uploadQueue);
      if pending.None? {
        return None;
      }
      var k := pending.value;
      var item := uploadQueue[k];
      CountUpdate(uploadQueue, k, item.(status := Uploading, progress := 0.0), Uploading);
      uploadQueue := uploadQueue[k := item.(status := Uploading, progress := 0.0)];
      started := Some(Upload(k, item.path, item.name, item.targetFolderId));
    }

    /** The end of an admitted upload: the item at the captured index is settled;
        a success also bumps the refresh counter. */
    method CompleteUpload(index: nat, success: bool)
      requires Valid()
      modifies this
      ensures Valid()
      ensures uploadQueue == Settle(old(uploadQueue), index, success)
      ensures refresh == if success then old(refresh) + 1 else old(refresh)
      ensures currentFolder == old(currentFolder) && folderName == old(folderName) && breadcrumbs == old(breadcrumbs)
    {
      SettleKeepsCap(uploadQueue, index, success);
      uploadQueue := Settle(uploadQueue, index, success);
      if success {
        refresh := refresh + 1;
      }
    }

    /** The 'upload-progress' listener. */
    method OnProgress(path: string, progress: real)
      requires Valid()
      modifies this
      ensures Valid()
      ensures uploadQueue == WithProgress(old(uploadQueue), path, progress)
      ensures currentFolder == old(currentFolder) && folderName == old(folderName)
      ensures breadcrumbs == old(breadcrumbs) && refresh == old(refresh)
    {
      ProgressKeepsCounts(uploadQueue, path, progress, Uploading);
      uploadQueue := WithProgress(uploadQueue, path, progress);
    }

    /** handleUpload after the file dialog: the picked paths (none when the dialog
        was cancelled) join the end of the queue, aimed at the current folder. */
    method HandleUpload(selected: seq<string>)
      requires Valid()
      modifies this
      ensures Valid()
      ensures uploadQueue == old(uploadQueue) + NewItems(selected, old(currentFolder))
      ensures currentFolder == old(currentFolder) && folderName == old(folderName)
      ensures breadcrumbs == old(breadcrumbs) && refresh == old(refresh)
    {
      NewItemsIdle(selected, currentFolder, uploadQueue);
      uploadQueue := uploadQueue + NewItems(selected, currentFolder);
    }

    /** The panel's close button. */
    method ClearQueue()
      requires Valid()
      modifies this
      ensures Valid()
      ensures uploadQueue == []
      ensures currentFolder == old(currentFolder) && folderName == old(folderName)
      ensures breadcrumbs == old(breadcrumbs) && refresh == old(refresh)
    {
      uploadQueue := [];
    }

    /** handleNavigate: shows the folder; a folder id that JavaScript takes as true
        (present and not empty) joins the trail. */
    method HandleNavigate(folderId: Option<string>, name: string)
      requires Valid()
      modifies this
      ensures Valid()
      ensures currentFolder == folderId && folderName == name
      ensures breadcrumbs == if Truthy(folderId) then old(breadcrumbs) + [Crumb(folderId, name)] else old(breadcrumbs)
      ensures uploadQueue == old(uploadQueue) && refresh == old(refresh)
    {
      currentFolder := folderId;
      folderName := name;
      if Truthy(folderId) {
        breadcrumbs := breadcrumbs + [Crumb(folderId, name)];
      }
    }

    /** handleBreadcrumbClick: shows the clicked crumb's folder and cuts the trail
        after it. */
    method HandleBreadcrumbClick(index: nat)
      requires Valid() && index < |breadcrumbs|
      modifies this
      ensures Valid()
      ensures breadcrumbs == old(breadcrumbs)[..index + 1]
      ensures currentFolder == CrumbFolder(old(breadcrumbs)[index])
      ensures folderName == CrumbTitle(old(breadcrumbs)[index])
      ensures uploadQueue == old(uploadQueue) && refresh == old(refresh)
    {
      var item := breadcrumbs[index];
      currentFolder := CrumbFolder(item);
      breadcrumbs := breadcrumbs[..index + 1];
      folderName := CrumbTitle(item);
    }

    /** Opening a folder card and then clicking the crumb it added: the folder is
        shown again under its own name, with the trail the opening left. The
        literal id 'root' and the name 'Home' are the crumb click's special cases. */
    method NavigateThenClickBack(id: string, name: string)
      requires Valid() && id != "" && id != "root" && name != "Home"
      modifies this
      ensures Valid()
      ensures breadcrumbs == old(breadcrumbs) + [Crumb(Some(id), name)]
      ensures currentFolder == Some(id) && folderName == name
      ensures uploadQueue == old(uploadQueue) && refresh == old(refresh)
    {
      HandleNavigate(Some(id), name);
      HandleBreadcrumbClick(|breadcrumbs| - 1);
    }
  }
}

/** The file card's selectors (src/components/FileCard.tsx): the icon category of a
    file, the video test, the folder icon lookup, the click dispatch and the folder
    background. Case folding is ASCII (Common.Lower). */
module FileCard {
  import opened Common

  datatype ItemKind = FileItem | FolderItem

  /** The props a card reads; an absent optional prop is `None`. */
  datatype CardItem = CardItem(
    id: string, name: string, kind: ItemKind, mimeType: Option<string>,
    icon: Option<string>, color: Option<string>, gradient: Option<string>, coverImage: Option<string>)

  /** `a || b` on optional strings. */
  function OrElse(a: Option<string>, b: string): (r: string)
    ensures Truthy(a) ==> r == a.value
    ensures !Truthy(a) ==> r == b
  {
    if Truthy(a) then a.value else b
  }

  /** `s` ends with '.' and one of `exts`. */
  predicate HasExtension(s: string, exts: seq<string>)
  {
    exists i :: 0 <= i < |exts| && EndsWith(s, "." + exts[i])
  }

  const ImageExtensions: seq<string> := ["jpg", "jpeg", "png", "gif", "webp", "bmp", "svg"]
  const VideoExtensions: seq<string> := ["mp4", "mov", "avi", "wmv", "flv", "webm", "mkv"]
  const AudioExtensions: seq<string> := ["mp3", "wav", "ogg", "m4a", "flac"]

  datatype Category = ImageFile | VideoFile | AudioFile | PdfFile | GenericFile

  /** The tests of getFileIcon, on the lowercased name and the lowercased mime type;
      the extension tests are case-insensitive. */
  predicate ImageTest(name: string, mime: string)
  {
    StartsWith(mime, "image/") || HasExtension(Lower(name), ImageExtensions)
  }

  predicate VideoTest(name: string, mime: string)
  {
    StartsWith(mime, "video/") || HasExtension(Lower(name), VideoExtensions)
  }

  predicate AudioTest(name: string, mime: string)
  {
    StartsWith(mime, "audio/") || HasExtension(Lower(name), AudioExtensions)
  }

  predicate PdfTest(name: string, mime: string)
  {
    mime == "application/pdf" || EndsWith(name, ".pdf")
  }

  /** getFileIcon's category: the first test that passes, in the order image,
      video, audio, pdf. */
  function FileCategory(item: CardItem): (r: Category)
    ensures var name, mime := Lower(item.name), Lower(UnwrapOr(item.mimeType, ""));
      (r == ImageFile <==> ImageTest(name, mime)) &&
      (r == VideoFile <==> !ImageTest(name, mime) && VideoTest(name, mime)) &&
      (r == AudioFile <==> !ImageTest(name, mime) && !VideoTest(name, mime) && AudioTest(name, mime)) &&
      (r == PdfFile <==> !ImageTest(name, mime) && !VideoTest(name, mime) && !AudioTest(name, mime) && PdfTest(name, mime)) &&
      (r == GenericFile <==> !ImageTest(name, mime) && !VideoTest(name, mime) && !AudioTest(name, mime) && !PdfTest(name, mime))
  {
    var name := Lower(item.name);
    var mime := Lower(UnwrapOr(item.mimeType, ""));
    if ImageTest(name, mime) then ImageFile
    else if VideoTest(name, mime) then VideoFile
    else if AudioTest(name, mime) then AudioFile
    else if PdfTest(name, mime) then PdfFile
    else GenericFile
  }

  /** `isVideo`: the video test on the raw mime type (the extension test is
      case-insensitive on its own). */
  predicate IsVideo(item: CardItem)
  {
    VideoTest(item.name, UnwrapOr(item.mimeType, ""))
  }

  lemma LowerPrefix(s: string, p: string)
    requires StartsWith(s, p) && Lower(p) == p
    ensures StartsWith(Lower(s), p)
  {
    forall i | 0 <= i < |p|
      ensures Lower(s)[i] == p[i]
    {
      assert s[i] == p[i];
      assert Lower(p)[i] == LowerChar(p[i]);
    }
  }

  lemma LowerIdempotent(s: string)
    ensures Lower(Lower(s)) == Lower(s)
  {
    assert forall i :: 0 <= i < |s| ==> LowerChar(LowerChar(s[i])) == LowerChar(s[i]);
  }

  /** What `isVideo` accepts passes getFileIcon's video test too. */
  lemma IsVideoPassesVideoTest(item: CardItem)
    requires IsVideo(item)
    ensures VideoTest(Lower(item.name), Lower(UnwrapOr(item.mimeType, "")))
  {
    var mime := UnwrapOr(item.mimeType, "");
    LowerIdempotent(item.name);
    if StartsWith(mime, "video/") {
      assert Lower("video/") == "video/";
      LowerPrefix(mime, "video/");
    }
  }

  /** The converse fails: an upper-case mime type is a video for the icon but not
      for `isVideo`. */
  lemma UpperCaseVideoMime()
    ensures var item := CardItem("clip", "clip", FileItem, Some("VIDEO/MP4"), None, None, None, None);
      FileCategory(item) == VideoFile && !IsVideo(item)
  {
    var item := CardItem("clip", "clip", FileItem, Some("VIDEO/MP4"), None, None, None, None);
    assert Lower("VIDEO/MP4") == "video/mp4";
    assert Lower("clip") == "clip";
    NoDotNoExtension("clip", VideoExtensions);
    NoDotNoExtension("clip", ImageExtensions);
    assert "VIDEO/MP4"[..6][0] == 'V';
  }

  /** A name without a dot has no extension. */
  lemma NoDotNoExtension(s: string, exts: seq<string>)
    requires forall i :: 0 <= i < |s| ==> s[i] != '.'
    ensures !HasExtension(s, exts)
  {
    forall i | 0 <= i < |exts|
      ensures !EndsWith(s, "." + exts[i])
    {
      var d := "." + exts[i];
      assert d[0] == '.';
      assert |d| <= |s| ==> s[|s| - |d|..][0] == s[|s| - |d|];
    }
  }

  /** The keys of FOLDER_ICONS; "default" stands for the plain folder icon. */
  const FolderIcons: seq<string> := ["default", "briefcase", "heart", "code", "globe", "user", "users", "shield",
    "lock", "settings", "archive", "cloud", "database", "smartphone", "monitor", "book", "coffee", "gift", "tag", "flag"]

  /** `FolderIconStart`: the icon under the item's key when there is one, the plain
      folder otherwise. */
  function FolderIcon(item: CardItem): (r: string)
    ensures r in FolderIcons
    ensures Truthy(item.icon) && item.icon.value in FolderIcons ==> r == item.icon.value
    ensures !(Truthy(item.icon) && item.icon.value in FolderIcons) ==> r == "default"
  {
    if Truthy(item.icon) && item.icon.value in FolderIcons then item.icon.value else "default"
  }

  /** What a click does. */
  datatype Click = CallOnClick | Navigate(id: string) | Preview | NoAction

  /** The card's onClick: a card-level handler wins; otherwise a folder navigates
      and a file previews, when those handlers are given. */
  function ClickAction(item: CardItem, hasOnClick: bool, hasOnNavigate: bool, hasOnPreview: bool): (r: Click)
    ensures hasOnClick ==> r == CallOnClick
    ensures !hasOnClick && item.kind == FolderItem ==> r == (if hasOnNavigate then Navigate(item.id) else NoAction)
    ensures !hasOnClick && item.kind == FileItem ==> r == (if hasOnPreview then Preview else NoAction)
  {
    if hasOnClick then CallOnClick
    else match item.kind
      case FolderItem => if hasOnNavigate then Navigate(item.id) else NoAction
      case FileItem => if hasOnPreview then Preview else NoAction
  }

  /** A folder card's background: its gradient, else its color, else the default cyan. */
  function FolderBackground(item: CardItem): (r: string)
    ensures Truthy(item.gradient) ==> r == item.gradient.value
    ensures !Truthy(item.gradient) && Truthy(item.color) ==> r == item.color.value
    ensures !Truthy(item.gradient) && !Truthy(item.color) ==> r == "#22d3ee"
  {
    OrElse(item.gradient, OrElse(item.color, "#22d3ee"))
  }

  /** A folder card's background opacity: opaque under a cover image, 0.9 for a
      gradient, 0.2 for a plain color or the default. */
  function FolderOpacity(item: CardItem): (r: real)
    ensures Truthy(item.coverImage) <==> r == 1.0
    ensures r == 0.9 <==> !Truthy(item.coverImage) && Truthy(item.gradient)
    ensures r == 0.2 <==> !Truthy(item.coverImage) && !Truthy(item.gradient)
  {
    if Truthy(item.coverImage) then 1.0 else if Truthy(item.gradient) then 0.9 else 0.2
  }
}

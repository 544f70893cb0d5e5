/** Thumbnail choice in `utils::extract_thumbnail_base64`
    (src-tauri/crates/core/src/client.rs). Only the choice of size is modelled; the
    download and the base64 encoding that follow are not. */
module Thumbnail {
  import opened Common

  /** A photo size as Telegram lists it: its type letter and the rest, kept opaque. */
  datatype Thumb = Thumb(photoType: string, location: string)

  datatype Media = Photo(thumbs: seq<Thumb>) | Document(thumbs: seq<Thumb>) | OtherMedia

  function OfType(t: string): Thumb -> bool
  {
    (x: Thumb) => x.photoType == t
  }

  /** The thumbs a message offers: those of a photo or document, none otherwise. */
  function ThumbsOf(media: Option<Media>): seq<Thumb>
  {
    match media
    case Some(Photo(ts)) => ts
    case Some(Document(ts)) => ts
    case _ => []
  }

  /** The size the thumbnail is taken from: the first "m", else the first "s",
      else the first "w", else the last one. */
  function ChooseThumb(media: Option<Media>): (r: Option<Thumb>)
    ensures r.None? <==> ThumbsOf(media) == []
    ensures r.Some? ==> r.value in ThumbsOf(media)
  {
    var thumbs := ThumbsOf(media);
    if thumbs == [] then None
    else
      match Find(thumbs, OfType("m"))
      case Some(t) => Some(t)
      case None =>
        match Find(thumbs, OfType("s"))
        case Some(t) => Some(t)
        case None =>
          match Find(thumbs, OfType("w"))
          case Some(t) => Some(t)
          case None => Some(thumbs[|thumbs| - 1])
  }

  /** The position of the chosen size, computed from the type letters alone. */
  function PreferredIndex(types: seq<string>): (r: Option<nat>)
    ensures r.None? <==> types == []
    ensures r.Some? ==> r.value < |types|
  {
    if types == [] then None
    else if "m" in types then Some(FirstIndex(types, "m"))
    else if "s" in types then Some(FirstIndex(types, "s"))
    else if "w" in types then Some(FirstIndex(types, "w"))
    else Some(|types| - 1)
  }

  function FirstIndex(types: seq<string>, t: string): (r: nat)
    requires t in types
    ensures r < |types| && types[r] == t && forall j :: 0 <= j < r ==> types[j] != t
  {
    if types[0] == t then 0 else
      assert t in types[1..] by {
        var k :| 0 <= k < |types| && types[k] == t;
        assert types[1..][k - 1] == t;
      }
      var r := FirstIndex(types[1..], t);
      assert forall j :: 1 <= j <= r ==> types[j] == types[1..][j - 1];
      1 + r
  }

  function Types(thumbs: seq<Thumb>): (r: seq<string>)
    ensures |r| == |thumbs| && forall i :: 0 <= i < |thumbs| ==> r[i] == thumbs[i].photoType
  {
    seq(|thumbs|, i requires 0 <= i < |thumbs| => thumbs[i].photoType)
  }

  /** The choice depends on the type letters only: it is the thumb at the position
      the letters select. */
  lemma ChooseByTypes(media: Option<Media>)
    ensures var thumbs := ThumbsOf(media);
      match PreferredIndex(Types(thumbs))
      case None => ChooseThumb(media).None?
      case Some(k) => k < |thumbs| && ChooseThumb(media) == Some(thumbs[k])
  {
    var thumbs := ThumbsOf(media);
    var types := Types(thumbs);
    if thumbs != [] {
      FindOfType(thumbs, "m");
      FindOfType(thumbs, "s");
      FindOfType(thumbs, "w");
    }
  }

  /** Find by type letter is the thumb at the letter's first position. */
  lemma FindOfType(thumbs: seq<Thumb>, t: string)
    ensures Find(thumbs, OfType(t)).None? <==> t !in Types(thumbs)
    ensures t in Types(thumbs) ==> Find(thumbs, OfType(t)) == Some(thumbs[FirstIndex(Types(thumbs), t)])
  {
    var types := Types(thumbs);
    if t in types {
      var k := FirstIndex(types, t);
      var r := Find(thumbs, OfType(t));
      assert OfType(t)(thumbs[k]);
      var j :| 0 <= j < |thumbs| && thumbs[j] == r.value && OfType(t)(thumbs[j]) &&
        forall i :: 0 <= i < j ==> !OfType(t)(thumbs[i]);
      assert types[j] == t;
      assert j == k;
    } else {
      forall i | 0 <= i < |thumbs|
        ensures !OfType(t)(thumbs[i])
      {
        assert types[i] == thumbs[i].photoType;
      }
    }
  }
}

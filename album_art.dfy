/**
 * Album-art selection shared by the UI (`getAlbumArtUrl`): prefer the first
 * image of medium height (250 to 350 pixels, inclusive), otherwise fall back
 * to the first image, whose empty URL counts as none.
 */
module AlbumArt {
  import opened Wrappers

  /** An album image; heights are whole pixels. */
  datatype AlbumImage = AlbumImage(url: string, height: int, width: int)

  predicate Medium(img: AlbumImage) {
    250 <= img.height <= 350
  }

  /** `Array.prototype.find` with the medium predicate, as an index. */
  function FindMedium(images: seq<AlbumImage>): (r: Option<nat>)
    ensures r.Some? ==> r.value < |images| && Medium(images[r.value])
    ensures r.Some? ==> forall j :: 0 <= j < r.value ==> !Medium(images[j])
    ensures r.None? ==> forall j :: 0 <= j < |images| ==> !Medium(images[j])
    decreases |images|
  {
    if images == [] then None
    else if Medium(images[0]) then Some(0)
    else
      match FindMedium(images[1..])
      case None => None
      case Some(k) => Some(k + 1)
  }

  /** `getAlbumArtUrl`: a missing list is `None`. */
  function GetAlbumArtUrl(images: Option<seq<AlbumImage>>): (r: Option<string>)
    ensures images.None? || images.value == [] ==> r.None?
    ensures r.Some? ==> exists i :: 0 <= i < |images.value| && images.value[i].url == r.value
  {
    if images.None? || |images.value| == 0 then None
    else
      match FindMedium(images.value)
      case Some(k) => Some(images.value[k].url)
      case None => if images.value[0].url == "" then None else Some(images.value[0].url)
  }

  /** When some image is of medium height, the result is the URL of the first such image. */
  lemma PrefersFirstMedium(images: seq<AlbumImage>, k: nat)
    requires k < |images| && Medium(images[k])
    requires forall j :: 0 <= j < k ==> !Medium(images[j])
    ensures GetAlbumArtUrl(Some(images)) == Some(images[k].url)
  {
  }

  /** With no medium image, the first image's URL, unless it is empty. */
  lemma FallsBackToFirst(images: seq<AlbumImage>)
    requires |images| > 0
    requires forall j :: 0 <= j < |images| ==> !Medium(images[j])
    ensures GetAlbumArtUrl(Some(images)) == if images[0].url == "" then None else Some(images[0].url)
  {
  }

  /**
   * The empty-URL check applies only to the fallback: a medium image with an
   * empty URL is returned as the empty string.
   */
  lemma MediumEmptyUrlReturned(rest: seq<AlbumImage>, height: int, width: int)
    requires 250 <= height <= 350
    ensures GetAlbumArtUrl(Some([AlbumImage("", height, width)] + rest)) == Some("")
  {
  }
}

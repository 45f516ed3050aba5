// SteganographyHelper2: how many pixels a text needs when each pixel hides
// one bit, and how many a bitmap has.
module Steganography {
  import opened Wrappers
  import opened Geometry

  /** GetPictureSizeNeededToEmbedText: eight bits per character. */
  function PictureSizeNeeded(text: string): (r: int)
    ensures r >= 0 && r % 8 == 0
    ensures r == 0 <==> text == ""
  {
    |text| * 8
  }

  /** GetPictureSize: width times height; a null bitmap is refused. */
  function PictureSize(bmp: Option<Bitmap>): (r: Result<int>)
    ensures r.Err? <==> bmp.None?
    ensures r.Err? ==> r.error == ArgumentNull
    ensures r.Ok? ==> r.value == bmp.value.width * bmp.value.height
  {
    if bmp.None? then Err(ArgumentNull) else Ok(bmp.value.width * bmp.value.height)
  }

  /** Whether `bmp` has room for `text`. */
  predicate HasRoomFor(bmp: Bitmap, text: string)
  {
    PictureSize(Some(bmp)).value >= PictureSizeNeeded(text)
  }

  /** The need is never negative, is 0 for the empty text, grows with the
      length and adds up over concatenation. */
  lemma NeededProperties(text: string, longer: string)
    requires |text| <= |longer|
    ensures PictureSizeNeeded("") == 0 && PictureSizeNeeded(text) >= 0
    ensures PictureSizeNeeded(text) <= PictureSizeNeeded(longer)
    ensures PictureSizeNeeded(text + longer) == PictureSizeNeeded(text) + PictureSizeNeeded(longer)
  {
  }

  /** A 100x100 bitmap holds 1000 characters; a 50x50 one does not. */
  lemma CapacityExamples(text: string)
    requires |text| == 1000
    ensures PictureSize(Some(Bitmap(100, 100, []))) == Ok(10000) && PictureSizeNeeded(text) == 8000
    ensures HasRoomFor(Bitmap(100, 100, []), text)
    ensures PictureSize(Some(Bitmap(50, 50, []))) == Ok(2500) && !HasRoomFor(Bitmap(50, 50, []), text)
  {
  }
}

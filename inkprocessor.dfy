// InkProcessor: coordinate conversion, the segments a drawing of the ink
// consists of, the image generators with their capacity check and
// auto-grow loop, and the Base64 transport form of a sample list.
// A bitmap is its size and the lines drawn on it; the pen, the background
// fill and GDI+ itself are not modelled.
module InkProcessor {
  import opened Wrappers
  import opened Geometry
  import opened Ink
  import opened InkJson
  import Utf8
  import Base64
  import opened Steganography
  import opened ContextPen

  datatype GenerateImageResult =
    Successful | SerializeToJsonFail | PictureSizeTooSmallToEmbedData | SteganographyEmbedFail | Error

  /** ConvertCoordinate: each axis multiplied by the target dimension and
      divided, truncating, by the source dimension. */
  function ConvertCoordinate(point: Point, fromDimension: Size, toDimension: Size): (r: Point)
    requires fromDimension.width != 0 && fromDimension.height != 0
    ensures fromDimension == toDimension ==> r == point
  {
    ScaledIdentity(point.x, fromDimension.width);
    ScaledIdentity(point.y, fromDimension.height);
    Point(Scaled(point.x, toDimension.width, fromDimension.width),
          Scaled(point.y, toDimension.height, fromDimension.height))
  }

  /** The axes are converted independently: x depends only on x and the
      widths, y only on y and the heights. */
  lemma ConvertAxes(point: Point, other: Point, fromDimension: Size, toDimension: Size, from': Size, to': Size)
    requires fromDimension.width != 0 && fromDimension.height != 0
    requires from'.width != 0 && from'.height != 0
    ensures point.x == other.x && fromDimension.width == from'.width && toDimension.width == to'.width ==>
              ConvertCoordinate(point, fromDimension, toDimension).x == ConvertCoordinate(other, from', to').x
    ensures point.y == other.y && fromDimension.height == from'.height && toDimension.height == to'.height ==>
              ConvertCoordinate(point, fromDimension, toDimension).y == ConvertCoordinate(other, from', to').y
  {
  }

  /** For non-negative coordinates and dimensions the conversion keeps the
      order along each axis, and a point inside the source area lands
      inside the target area. */
  lemma ConvertMonotone(p: Point, q: Point, fromDimension: Size, toDimension: Size)
    requires fromDimension.width > 0 && fromDimension.height > 0
    requires toDimension.width >= 0 && toDimension.height >= 0
    requires 0 <= p.x <= q.x && 0 <= p.y <= q.y
    ensures ConvertCoordinate(p, fromDimension, toDimension).x <= ConvertCoordinate(q, fromDimension, toDimension).x
    ensures ConvertCoordinate(p, fromDimension, toDimension).y <= ConvertCoordinate(q, fromDimension, toDimension).y
  {
    ScaledMonotone(p.x, q.x, toDimension.width, fromDimension.width);
    ScaledMonotone(p.y, q.y, toDimension.height, fromDimension.height);
  }

  lemma ConvertInside(p: Point, fromDimension: Size, toDimension: Size)
    requires 0 <= p.x < fromDimension.width && 0 <= p.y < fromDimension.height
    requires toDimension.width > 0 && toDimension.height > 0
    ensures var r := ConvertCoordinate(p, fromDimension, toDimension);
      0 <= r.x < toDimension.width && 0 <= r.y < toDimension.height
  {
    ScaledBelow(p.x, toDimension.width, fromDimension.width);
    ScaledBelow(p.y, toDimension.height, fromDimension.height);
  }

  // ----- which segments a drawing consists of -----

  /** Where a sample is drawn: at its coordinates cast to int, or at those
      coordinates converted from the capture size to the bitmap size. */
  datatype Placement = AsSampled | Converted(from: Size, to: Size)

  predicate Placeable(placement: Placement)
  {
    placement.Converted? ==> placement.from.width != 0 && placement.from.height != 0
  }

  function Place(d: InkData, placement: Placement): Point
    requires Placeable(placement)
  {
    match placement
    case AsSampled => Coordinates(d)
    case Converted(from, to) => ConvertCoordinate(Coordinates(d), from, to)
  }

  /** The line drawn between samples i - 1 and i, if any. */
  predicate Drawn(ink: seq<InkData>, i: int)
  {
    1 <= i < |ink| && ink[i - 1].contact && ink[i].contact
  }

  /** The lines drawn for `ink`, in order: one between every two
      consecutive samples that are both in contact. */
  function Segments(ink: seq<InkData>, placement: Placement): (r: seq<(Point, Point)>)
    requires Placeable(placement)
    ensures |r| < |ink| || |r| == 0
  {
    if |ink| < 2 then []
    else
      var n := |ink|;
      Segments(ink[..n - 1], placement) +
        (if Drawn(ink, n - 1) then [(Place(ink[n - 2], placement), Place(ink[n - 1], placement))] else [])
  }

  /** A line is drawn exactly for the pairs of consecutive samples in
      contact, between their places. */
  lemma SegmentsDrawn(ink: seq<InkData>, placement: Placement, line: (Point, Point))
    requires Placeable(placement)
    ensures line in Segments(ink, placement) <==>
              exists i :: Drawn(ink, i) && line == (Place(ink[i - 1], placement), Place(ink[i], placement))
  {
    if line in Segments(ink, placement) {
      var i := SegmentSource(ink, placement, line);
    }
    if exists i :: Drawn(ink, i) && line == (Place(ink[i - 1], placement), Place(ink[i], placement)) {
      var i :| Drawn(ink, i) && line == (Place(ink[i - 1], placement), Place(ink[i], placement));
      SegmentOfPair(ink, placement, i);
    }
  }

  /** Every line drawn comes from a pair of consecutive samples in contact. */
  lemma {:induction false} SegmentSource(ink: seq<InkData>, placement: Placement, line: (Point, Point)) returns (i: int)
    requires Placeable(placement)
    requires line in Segments(ink, placement)
    ensures Drawn(ink, i) && line == (Place(ink[i - 1], placement), Place(ink[i], placement))
  {
    var n := |ink|;
    var init := ink[..n - 1];
    if line in Segments(init, placement) {
      i := SegmentSource(init, placement, line);
      assert init[i - 1] == ink[i - 1] && init[i] == ink[i];
    } else {
      i := n - 1;
    }
  }

  /** Every pair of consecutive samples in contact is drawn. */
  lemma {:induction false} SegmentOfPair(ink: seq<InkData>, placement: Placement, i: int)
    requires Placeable(placement) && Drawn(ink, i)
    ensures (Place(ink[i - 1], placement), Place(ink[i], placement)) in Segments(ink, placement)
  {
    var n := |ink|;
    if i < n - 1 {
      var init := ink[..n - 1];
      SegmentOfPair(init, placement, i);
      assert init[i - 1] == ink[i - 1] && init[i] == ink[i];
    }
  }

  /** A stroke whose samples are all in contact is drawn as the polyline
      through all of them. */
  lemma {:induction false} SegmentsOfStroke(ink: seq<InkData>, placement: Placement)
    requires Placeable(placement)
    requires forall i :: 0 <= i < |ink| ==> ink[i].contact
    ensures |Segments(ink, placement)| == (if |ink| < 2 then 0 else |ink| - 1)
    ensures forall k :: 0 <= k < |Segments(ink, placement)| ==>
              Segments(ink, placement)[k] == (Place(ink[k], placement), Place(ink[k + 1], placement))
  {
    if |ink| >= 2 {
      var n := |ink|;
      var init := ink[..n - 1];
      SegmentsOfStroke(init, placement);
      assert Drawn(ink, n - 1);
      assert forall i :: 0 <= i < |init| ==> init[i] == ink[i];
    }
  }

  /** A stream with no two consecutive samples in contact draws nothing. */
  lemma {:induction false} SegmentsNone(ink: seq<InkData>, placement: Placement)
    requires Placeable(placement)
    requires forall i :: 1 <= i < |ink| ==> !Drawn(ink, i)
    ensures Segments(ink, placement) == []
  {
    if |ink| >= 2 {
      var init := ink[..|ink| - 1];
      forall i | 1 <= i < |init| ensures !Drawn(init, i) {
        assert !Drawn(ink, i);
      }
      SegmentsNone(init, placement);
    }
  }

  /** The drawing loop: for every i from 1, a line between samples i - 1
      and i when both are in contact. */
  method DrawSegments(ink: seq<InkData>, placement: Placement) returns (lines: seq<(Point, Point)>)
    requires Placeable(placement)
    ensures lines == Segments(ink, placement)
  {
    lines := [];
    var i := 1;
    while i < |ink|
      invariant 1 <= i <= |ink| || |ink| < 2
      invariant lines == Segments(ink[..if |ink| < 2 then |ink| else i], placement)
    {
      var p1 := Place(ink[i - 1], placement);
      var p2 := Place(ink[i], placement);
      if ink[i - 1].contact && ink[i].contact {
        lines := lines + [(p1, p2)];
      }
      assert ink[..i + 1][..i] == ink[..i];
      assert Drawn(ink[..i + 1], i) == Drawn(ink, i);
      i := i + 1;
    }
    assert ink[..if |ink| < 2 then |ink| else i] == ink;
  }

  // ----- the image generators -----

  /** new Bitmap(width, height): a bitmap with nothing drawn; a dimension
      that is not positive is refused. */
  function NewBitmap(size: Size): (r: Result<Bitmap>)
    ensures r.Ok? <==> size.width > 0 && size.height > 0
    ensures r.Ok? ==> r.value.width == size.width && r.value.height == size.height && r.value.lines == []
  {
    if size.width > 0 && size.height > 0 then Ok(Bitmap(size.width, size.height, [])) else Err(InvalidArgument)
  }

  /** What a generator hands back: its status, the bitmap and the text the
      bitmap carries once embedText has hidden it there. */
  datatype Generated = Generated(status: GenerateImageResult, bitmap: Bitmap, payload: Option<string>)

  /** The status of a drawing: Error exactly for a null list. */
  function StatusOf(inkData: Option<seq<InkData>>): GenerateImageResult
  {
    if inkData.None? then Error else Successful
  }

  /** The lines of a drawing: none for a null list. */
  function LinesOf(inkData: Option<seq<InkData>>, placement: Placement): seq<(Point, Point)>
    requires Placeable(placement)
  {
    if inkData.None? then [] else Segments(inkData.value, placement)
  }

  /** GenerateImageFromInkData(bitmap, inkData, bitmapSize, pen, background):
      the bitmap is created outside the try block, so a size it refuses
      escapes; a null list fails inside it and gives Error. */
  method GenerateImageFromInkData(inkData: Option<seq<InkData>>, bitmapSize: Size) returns (r: Result<Generated>)
    ensures r.Err? <==> !(bitmapSize.width > 0 && bitmapSize.height > 0)
    ensures r.Err? ==> r.error == InvalidArgument
    ensures r.Ok? ==> r.value == Generated(StatusOf(inkData),
                                           Bitmap(bitmapSize.width, bitmapSize.height, LinesOf(inkData, AsSampled)), None)
  {
    var created := NewBitmap(bitmapSize);
    if created.Err? {
      return Err(created.error);
    }
    var bitmap := created.value;
    if inkData.None? {
      return Ok(Generated(Error, bitmap, None));
    }
    var lines := DrawSegments(inkData.value, AsSampled);
    r := Ok(Generated(Successful, bitmap.(lines := lines), None));
  }

  /** GenerateImageFromInkDataResize: the same drawing on a bitmap of
      `newSize`, every point converted from `originalSize`. The conversion
      divides by the original dimensions, which throws inside the try
      block (Error) when one is 0 and there are two samples to convert. */
  method GenerateImageFromInkDataResize(inkData: Option<seq<InkData>>, originalSize: Size, newSize: Size)
    returns (r: Result<Generated>)
    ensures r.Err? <==> !(newSize.width > 0 && newSize.height > 0)
    ensures r.Err? ==> r.error == InvalidArgument
    ensures r.Ok? ==> r.value.bitmap.width == newSize.width && r.value.bitmap.height == newSize.height
    ensures r.Ok? ==> r.value.payload.None?
    ensures r.Ok? ==> (r.value.status == Error <==>
                        inkData.None? ||
                        (|inkData.value| >= 2 && (originalSize.width == 0 || originalSize.height == 0)))
    ensures r.Ok? && r.value.status != Error ==>
              r.value.status == Successful &&
              (|inkData.value| < 2 ==> r.value.bitmap.lines == []) &&
              (|inkData.value| >= 2 ==>
                 Placeable(Converted(originalSize, newSize)) &&
                 r.value.bitmap.lines == Segments(inkData.value, Converted(originalSize, newSize)))
    ensures r.Ok? && originalSize.width > 0 && originalSize.height > 0 ==>
              r.value == Generated(StatusOf(inkData), Bitmap(newSize.width, newSize.height,
                                   LinesOf(inkData, Converted(originalSize, newSize))), None)
  {
    var created := NewBitmap(newSize);
    if created.Err? {
      return Err(created.error);
    }
    var bitmap := created.value;
    if inkData.None? {
      return Ok(Generated(Error, bitmap, None));
    }
    var ink := inkData.value;
    if |ink| >= 2 && (originalSize.width == 0 || originalSize.height == 0) {
      return Ok(Generated(Error, bitmap, None));
    }
    if |ink| < 2 {
      return Ok(Generated(Successful, bitmap, None));
    }
    var lines := DrawSegments(ink, Converted(originalSize, newSize));
    r := Ok(Generated(Successful, bitmap.(lines := lines), None));
  }

  // ----- capacity and auto-grow -----

  function Area(size: Size): int
  {
    size.width * size.height
  }

  /** The size tried at multiplier k / 2: both dimensions multiplied and
      truncated, as the (int) cast of the float product does. */
  function GrowSize(size: Size, k: int): Size
  {
    Size(Quot(size.width * k, 2), Quot(size.height * k, 2))
  }

  /** Multiplier 1 is the original size, and no step shrinks it. */
  lemma GrowSizeBounds(size: Size, k: int)
    requires size.width > 0 && size.height > 0 && k >= 2
    ensures GrowSize(size, k).width >= size.width && GrowSize(size, k).height >= size.height
    ensures GrowSize(size, 2) == size
  {
    MulNonNegative(size.width, 2);
    MulNonNegative(size.height, 2);
    MulMonotone(size.width, 2, k);
    MulMonotone(size.height, 2, k);
    QuotMonotone(size.width * 2, size.width * k, 2);
    QuotMonotone(size.height * 2, size.height * k, 2);
    QuotOfMultiple(size.width, 2);
    QuotOfMultiple(size.height, 2);
  }

  /** A larger multiplier never gives fewer pixels. */
  lemma GrowMonotone(size: Size, j: int, k: int)
    requires size.width > 0 && size.height > 0 && 2 <= j <= k
    ensures Area(GrowSize(size, j)) <= Area(GrowSize(size, k))
  {
    var a, b := GrowSize(size, j), GrowSize(size, k);
    GrowSizeBounds(size, j);
    MulNonNegative(size.width, j);
    MulNonNegative(size.height, j);
    MulMonotone(size.width, j, k);
    MulMonotone(size.height, j, k);
    QuotMonotone(size.width * j, size.width * k, 2);
    QuotMonotone(size.height * j, size.height * k, 2);
    MulMonotone(a.width, a.height, b.height);
    MulMonotone(b.height, a.width, b.width);
  }

  /** The half-step the auto-grow loop stops at, starting from k: the
      first whose size holds `needed` pixels, or 11 (multiplier 5.5), the
      step taken once the multiplier has passed 5. */
  function FinalStep(size: Size, needed: int, k: int): (r: int)
    requires 2 <= k <= 11
    ensures k <= r <= 11
    ensures r == 11 || Area(GrowSize(size, r)) >= needed
    ensures forall j :: k <= j < r ==> Area(GrowSize(size, j)) < needed
    decreases 11 - k
  {
    if k == 11 || Area(GrowSize(size, k)) >= needed then k else FinalStep(size, needed, k + 1)
  }

  /** The size the image ends at: the original one, or the one the
      auto-grow loop stops at. */
  function FittedSize(size: Size, needed: int, autoResizeToFitData: bool): Size
  {
    if autoResizeToFitData then GrowSize(size, FinalStep(size, needed, 2)) else size
  }

  /** Growing never hurts and stops as soon as it can: the fitted size has
      at least the original area; it falls short of `needed` only when
      every multiplier up to 5.5 does; and a smaller multiplier that fits
      is never passed over. */
  lemma FittedSizeProperties(size: Size, needed: int, j: int)
    requires size.width > 0 && size.height > 0 && 2 <= j <= 11
    ensures Area(FittedSize(size, needed, true)) >= Area(size)
    ensures Area(FittedSize(size, needed, true)) < needed ==> Area(GrowSize(size, j)) < needed
    ensures Area(GrowSize(size, j)) >= needed ==> FinalStep(size, needed, 2) <= j
    ensures Area(FittedSize(size, needed, false)) < needed ==> Area(size) < needed
  {
    var k := FinalStep(size, needed, 2);
    GrowSizeBounds(size, 2);
    GrowMonotone(size, 2, k);
  }

  /** The two ends of the loop: a 10x10 image asked for 10000 pixels
      grows to the 5.5 multiplier, 55x55, and is still too small; a
      100x100 image asked for 20000 stops at multiplier 1.5, 150x150. */
  lemma GrowExamples()
    ensures FinalStep(Size(10, 10), 10000, 2) == 11 && FittedSize(Size(10, 10), 10000, true) == Size(55, 55)
    ensures Area(Size(55, 55)) < 10000
    ensures FinalStep(Size(100, 100), 20000, 2) == 3 && FittedSize(Size(100, 100), 20000, true) == Size(150, 150)
  {
    QuotOfMultiple(55, 2);
    assert 10 * 11 == 55 * 2;
    assert 100 * 3 == 150 * 2;
    QuotOfMultiple(150, 2);
    assert Area(Size(100, 100)) < 20000 && Area(GrowSize(Size(100, 100), 3)) >= 20000;
  }

  /** What the capacity check and embedding make of a drawing of
      `bitmapSize`: the last drawing (the original one, or the one at the
      fitted size with every point converted), refused when it has fewer
      than 8 pixels per character of `json`, and otherwise carrying `json`
      when embedText succeeds (`embedOk`). */
  function Fitted(inkData: Option<seq<InkData>>, bitmapSize: Size, json: string,
                  autoResizeToFitData: bool, embedOk: bool): (g: Generated)
    requires bitmapSize.width > 0 && bitmapSize.height > 0
  {
    var needed := PictureSizeNeeded(json);
    var k := if autoResizeToFitData then FinalStep(bitmapSize, needed, 2) else 2;
    var fitted := GrowSize(bitmapSize, k);
    var bitmap :=
      if k == 2 then Bitmap(bitmapSize.width, bitmapSize.height, LinesOf(inkData, AsSampled))
      else Bitmap(fitted.width, fitted.height, LinesOf(inkData, Converted(bitmapSize, fitted)));
    if Area(fitted) < needed then Generated(PictureSizeTooSmallToEmbedData, bitmap, None)
    else if !embedOk then Generated(SteganographyEmbedFail, bitmap, None)
    else Generated(StatusOf(inkData), bitmap, Some(json))
  }

  /** The outcome of the encoding path: too small exactly when the fitted
      size has fewer than 8 |json| pixels; carrying the text exactly when it
      fits and embedText succeeds; never SerializeToJsonFail; the bitmap has
      the fitted size. */
  lemma FittedOutcome(inkData: Option<seq<InkData>>, bitmapSize: Size, json: string,
                      autoResizeToFitData: bool, embedOk: bool)
    requires bitmapSize.width > 0 && bitmapSize.height > 0
    ensures var g := Fitted(inkData, bitmapSize, json, autoResizeToFitData, embedOk);
      var fitted := FittedSize(bitmapSize, 8 * |json|, autoResizeToFitData);
      (g.status == PictureSizeTooSmallToEmbedData <==> Area(fitted) < 8 * |json|) &&
      (g.payload.Some? <==> Area(fitted) >= 8 * |json| && embedOk) &&
      (g.payload.Some? ==> g.payload.value == json && g.status == StatusOf(inkData)) &&
      g.status != SerializeToJsonFail &&
      g.bitmap.width == fitted.width && g.bitmap.height == fitted.height
  {
    var needed := PictureSizeNeeded(json);
    var k := if autoResizeToFitData then FinalStep(bitmapSize, needed, 2) else 2;
    GrowSizeBounds(bitmapSize, k);
    assert FittedSize(bitmapSize, needed, autoResizeToFitData) == GrowSize(bitmapSize, k);
  }

  /** The capacity check, the auto-grow loop and the embedding, shared by
      GenerateImageFromContextPenData and GenerateImageFromInkData with
      encodeData: `drawn` is the drawing of `inkData` at `bitmapSize`. */
  method FitAndEmbed(inkData: Option<seq<InkData>>, bitmapSize: Size, drawn: Generated, json: string,
                     autoResizeToFitData: bool, embedOk: bool) returns (r: Generated)
    requires bitmapSize.width > 0 && bitmapSize.height > 0
    requires drawn == Generated(StatusOf(inkData), Bitmap(bitmapSize.width, bitmapSize.height, LinesOf(inkData, AsSampled)), None)
    ensures r == Fitted(inkData, bitmapSize, json, autoResizeToFitData, embedOk)
  {
    var dataSizeNeeded := PictureSizeNeeded(json);
    var bitmap := drawn.bitmap;
    var result := drawn.status;
    var pictureSize := PictureSize(Some(bitmap)).value;
    var k := 2;
    GrowSizeBounds(bitmapSize, 2);
    if autoResizeToFitData {
      while pictureSize < dataSizeNeeded && k <= 10
        invariant 2 <= k <= 11
        invariant FinalStep(bitmapSize, dataSizeNeeded, k) == FinalStep(bitmapSize, dataSizeNeeded, 2)
        invariant pictureSize == Area(GrowSize(bitmapSize, k))
        invariant result == StatusOf(inkData)
        invariant k == 2 ==> bitmap == drawn.bitmap
        invariant k > 2 ==> bitmap == Bitmap(GrowSize(bitmapSize, k).width, GrowSize(bitmapSize, k).height,
                                             LinesOf(inkData, Converted(bitmapSize, GrowSize(bitmapSize, k))))
        decreases 11 - k
      {
        k := k + 1;
        var biggerSize := GrowSize(bitmapSize, k);
        GrowSizeBounds(bitmapSize, k);
        var resized := GenerateImageFromInkDataResize(inkData, bitmapSize, biggerSize);
        bitmap := resized.value.bitmap;
        result := resized.value.status;
        pictureSize := PictureSize(Some(bitmap)).value;
      }
    }
    if pictureSize < dataSizeNeeded {
      return Generated(PictureSizeTooSmallToEmbedData, bitmap, None);
    }
    if !embedOk {
      return Generated(SteganographyEmbedFail, bitmap, None);
    }
    r := Generated(result, bitmap, Some(json));
  }

  // ----- the encoding generators -----

  /** GenerateImageFromInkData(bitmap, inkData, bitmapSize, pen, background,
      encodeData, autoResizeToFitData): the drawing, and with encodeData the
      JSON text of the list checked against the capacity, grown if asked,
      and embedded. `embedOk` says whether embedText succeeds. Writing the
      list cannot throw (a null list is written "null"), so
      SerializeToJsonFail never comes back. */
  method GenerateImageFromInkDataEncoded(inkData: Option<seq<InkData>>, bitmapSize: Size, encodeData: bool,
                                         autoResizeToFitData: bool, embedOk: bool) returns (r: Result<Generated>)
    ensures r.Err? <==> !(bitmapSize.width > 0 && bitmapSize.height > 0)
    ensures r.Err? ==> r.error == InvalidArgument
    ensures r.Ok? && !encodeData ==>
              r.value == Generated(StatusOf(inkData),
                                   Bitmap(bitmapSize.width, bitmapSize.height, LinesOf(inkData, AsSampled)), None)
    ensures r.Ok? && encodeData ==>
              r.value == Fitted(inkData, bitmapSize, SerializeInkDataListToJson(inkData), autoResizeToFitData, embedOk)
  {
    var created := NewBitmap(bitmapSize);
    if created.Err? {
      return Err(created.error);
    }
    var drawing := GenerateImageFromInkData(inkData, bitmapSize);
    var drawn := drawing.value;
    if !encodeData {
      return Ok(drawn);
    }
    var json := SerializeInkDataListToJson(inkData);
    var fitted := FitAndEmbed(inkData, bitmapSize, drawn, json, autoResizeToFitData, embedOk);
    r := Ok(fitted);
  }

  /** GenerateImageFromInkData(bmp, inkData, bitmapSize, pen, background,
      encodeData): the same without auto-grow. */
  method GenerateImageFromInkDataFixedSize(inkData: Option<seq<InkData>>, bitmapSize: Size, encodeData: bool,
                                           embedOk: bool) returns (r: Result<Generated>)
    ensures r.Err? <==> !(bitmapSize.width > 0 && bitmapSize.height > 0)
    ensures r.Err? ==> r.error == InvalidArgument
    ensures r.Ok? && !encodeData ==>
              r.value == Generated(StatusOf(inkData),
                                   Bitmap(bitmapSize.width, bitmapSize.height, LinesOf(inkData, AsSampled)), None)
    ensures r.Ok? && encodeData ==>
              r.value == Fitted(inkData, bitmapSize, SerializeInkDataListToJson(inkData), false, embedOk)
  {
    var created := NewBitmap(bitmapSize);
    if created.Err? {
      return Err(created.error);
    }
    r := GenerateImageFromInkDataEncoded(inkData, bitmapSize, encodeData, false, embedOk);
  }

  /** GenerateImageFromContextPenData: the image of the context's pen data
      at the device's screen size; the payload is the context's ToString
      text. A context without a device record fails on the first line. */
  method GenerateImageFromContextPenData(contextPenData: ContextPenData, deviceJson: string, layoutJson: string,
                                         encodeData: bool, autoResizeToFitData: bool, embedOk: bool)
    returns (r: Result<Generated>)
    ensures contextPenData.penDevice.None? ==> r == Err(NullReference)
    ensures contextPenData.penDevice.Some? ==>
              var size := Size(contextPenData.penDevice.value.screenWidth, contextPenData.penDevice.value.screenHeight);
              (r.Err? <==> !(size.width > 0 && size.height > 0)) &&
              (r.Err? ==> r.error == InvalidArgument) &&
              (r.Ok? && !encodeData ==>
                 r.value == Generated(StatusOf(contextPenData.penData),
                                      Bitmap(size.width, size.height, LinesOf(contextPenData.penData, AsSampled)), None)) &&
              (r.Ok? && encodeData ==>
                 r.value == Fitted(contextPenData.penData, size, contextPenData.Description(deviceJson, layoutJson),
                                   autoResizeToFitData, embedOk))
  {
    if contextPenData.penDevice.None? {
      return Err(NullReference);
    }
    var device := contextPenData.penDevice.value;
    var bitmapSize := Size(device.screenWidth, device.screenHeight);
    var created := NewBitmap(bitmapSize);
    if created.Err? {
      return Err(created.error);
    }
    var drawing := GenerateImageFromInkData(contextPenData.penData, bitmapSize);
    var drawn := drawing.value;
    if !encodeData {
      return Ok(drawn);
    }
    var json := contextPenData.ToString(deviceJson, layoutJson);
    var fitted := FitAndEmbed(contextPenData.penData, bitmapSize, drawn, json, autoResizeToFitData, embedOk);
    r := Ok(fitted);
  }

  // ----- the Base64 transport form -----

  /** Base64Encode: the JSON text of the list, as UTF-8, in Base64; the
      text is whole groups of four, of the alphabet and a final padding. */
  function Base64Encode(penData: Option<seq<InkData>>): (r: string)
    ensures |r| % 4 == 0
    ensures forall i :: 0 <= i < |r| ==> Base64.ValueOf(r[i]).Some? || (r[i] == '=' && i >= |r| - 2)
  {
    var data := Utf8.Encode(SerializeInkDataListToJson(penData));
    Base64.EncodeAlphabet(data);
    Base64.Encode(data)
  }

  /** Base64Decode: the three steps undone in reverse order; each can
      refuse its input. */
  function Base64Decode(base64: string): (r: Result<Option<seq<InkData>>>)
    ensures Base64.Decode(base64).Err? ==> r == Err(MalformedInput)
    ensures r == Ok(None) <==> Base64.Decode(base64) == Ok(Utf8.Encode("null"))
  {
    Utf8.DecodeEncode("null");
    match Base64.Decode(base64)
    case Err(e) => Err(e)
    case Ok(data) =>
      match Utf8.Decode(data)
      case Err(e) => Err(e)
      case Ok(json) =>
        Utf8.EncodeDecode(data);
        DeserializeJsonToInkDataList(json)
  }

  /** Decoding gives back the list that was encoded, sample by sample, and
      so two different lists never share an encoding. */
  lemma Base64RoundTrip(penData: Option<seq<InkData>>, other: Option<seq<InkData>>)
    ensures Base64Decode(Base64Encode(penData)) == Ok(penData)
    ensures Base64Encode(penData) == Base64Encode(other) ==> penData == other
  {
    var json := SerializeInkDataListToJson(penData);
    Base64.DecodeEncode(Utf8.Encode(json));
    Utf8.DecodeEncode(json);
    DeserializeSerialized(penData);
    var json' := SerializeInkDataListToJson(other);
    Base64.DecodeEncode(Utf8.Encode(json'));
    Utf8.DecodeEncode(json');
    DeserializeSerialized(other);
  }
}

// InkData: one pen sample as a device reports it. The sample is a value:
// Duplicate copies it field by field and the ct/pr setters become
// functional updates of the sample they are applied to.
module Ink {
  import opened Geometry

  /** C#'s uint. */
  type UInt32 = v: int | 0 <= v < 0x1_0000_0000

  /** C#'s int, as far as a cast of a uint gives one. */
  type Int32 = v: int | -0x8000_0000 <= v < 0x8000_0000

  /** The sample: sequence number, coordinates, pressure, timing, the
      contact and proximity flags and the tag of the button or image hit. */
  datatype InkData = InkData(seqNo: UInt32, x: UInt32, y: UInt32, p: UInt32, t: UInt32,
                             contact: bool, proximity: bool, tag: string)

  /** new InkData(): every number 0, both flags false, the tag "". */
  function NewInkData(): (r: InkData)
    ensures r.seqNo == 0 && r.x == 0 && r.y == 0 && r.p == 0 && r.t == 0
    ensures !r.contact && !r.proximity && r.tag == ""
  {
    InkData(0, 0, 0, 0, 0, false, false, "")
  }

  /** The ct getter: contact as 1 or 0. */
  function Ct(d: InkData): int
  {
    if d.contact then 1 else 0
  }

  /** The ct setter: only the value 1 means contact. */
  function WithCt(d: InkData, value: int): InkData
  {
    d.(contact := value == 1)
  }

  /** The pr getter: proximity as 1 or 0. */
  function Pr(d: InkData): int
  {
    if d.proximity then 1 else 0
  }

  /** The pr setter: only the value 1 means proximity. */
  function WithPr(d: InkData, value: int): InkData
  {
    d.(proximity := value == 1)
  }

  /** ct and pr are 0/1 codes of the two flags: each reads 1 exactly when
      its flag is set, writing back what was read changes nothing, and
      writing v reads back as 1 when v is 1 and as 0 otherwise, touching
      nothing but that flag. */
  lemma FlagEncoding(d: InkData, v: int)
    ensures (Ct(d) == 1 <==> d.contact) && (Ct(d) == 0 <==> !d.contact)
    ensures (Pr(d) == 1 <==> d.proximity) && (Pr(d) == 0 <==> !d.proximity)
    ensures WithCt(d, Ct(d)) == d && WithPr(d, Pr(d)) == d
    ensures Ct(WithCt(d, v)) == (if v == 1 then 1 else 0) && Pr(WithPr(d, v)) == (if v == 1 then 1 else 0)
    ensures WithCt(d, v).(contact := d.contact) == d && WithPr(d, v).(proximity := d.proximity) == d
    ensures Pr(WithCt(d, v)) == Pr(d) && Ct(WithPr(d, v)) == Ct(d)
  {
  }

  /** (int)v for a uint v: the same 32 bits read as a signed number. */
  function ToInt32(v: UInt32): (r: Int32)
    ensures r % 0x1_0000_0000 == v % 0x1_0000_0000
    ensures v < 0x8000_0000 ==> r == v
    ensures v >= 0x8000_0000 ==> r < 0
  {
    if v < 0x8000_0000 then v else v - 0x1_0000_0000
  }

  /** The coordinates property: (x, y) as a Point. */
  function Coordinates(d: InkData): (r: Point)
    ensures d.x < 0x8000_0000 && d.y < 0x8000_0000 ==> r == Point(d.x, d.y)
  {
    Point(ToInt32(d.x), ToInt32(d.y))
  }

  /** Duplicate(): a new sample with all eight fields copied. */
  function Duplicate(d: InkData): (r: InkData)
    ensures r == d
  {
    InkData(d.seqNo, d.x, d.y, d.p, d.t, d.contact, d.proximity, d.tag)
  }

  /** Whether Duplicate(originalDimension, newDimension) has a defined
      result: the ratios must be finite and not negative and the rescaled
      coordinates must fit a uint. */
  predicate CanRescale(d: InkData, originalDimension: Size, newDimension: Size)
  {
    originalDimension.width > 0 && originalDimension.height > 0 &&
    newDimension.width >= 0 && newDimension.height >= 0 &&
    Scaled(d.x, newDimension.width, originalDimension.width) < 0x1_0000_0000 &&
    Scaled(d.y, newDimension.height, originalDimension.height) < 0x1_0000_0000
  }

  /** Duplicate(originalDimension, newDimension): the copy with x scaled by
      the width ratio and y by the height ratio, each truncated. */
  function DuplicateRescaled(d: InkData, originalDimension: Size, newDimension: Size): (r: InkData)
    requires CanRescale(d, originalDimension, newDimension)
    ensures r.x == Scaled(d.x, newDimension.width, originalDimension.width)
    ensures r.y == Scaled(d.y, newDimension.height, originalDimension.height)
    ensures r.(x := d.x, y := d.y) == Duplicate(d)
  {
    var result := Duplicate(d);
    ScaledNonNegative(d.x, newDimension.width, originalDimension.width);
    ScaledNonNegative(d.y, newDimension.height, originalDimension.height);
    result.(x := Scaled(result.x, newDimension.width, originalDimension.width),
            y := Scaled(result.y, newDimension.height, originalDimension.height))
  }

  /** Rescaling to the same dimensions gives back the sample. */
  lemma RescaleIdentity(d: InkData, dimension: Size)
    requires dimension.width > 0 && dimension.height > 0
    ensures CanRescale(d, dimension, dimension)
    ensures DuplicateRescaled(d, dimension, dimension) == d
  {
    ScaledIdentity(d.x, dimension.width);
    ScaledIdentity(d.y, dimension.height);
  }

  /** Rescaling keeps the order of coordinates along each axis. */
  lemma RescaleMonotone(d: InkData, e: InkData, originalDimension: Size, newDimension: Size)
    requires CanRescale(d, originalDimension, newDimension) && CanRescale(e, originalDimension, newDimension)
    requires d.x <= e.x && d.y <= e.y
    ensures DuplicateRescaled(d, originalDimension, newDimension).x <= DuplicateRescaled(e, originalDimension, newDimension).x
    ensures DuplicateRescaled(d, originalDimension, newDimension).y <= DuplicateRescaled(e, originalDimension, newDimension).y
  {
    ScaledMonotone(d.x, e.x, newDimension.width, originalDimension.width);
    ScaledMonotone(d.y, e.y, newDimension.height, originalDimension.height);
  }
}

// BoxLayout: a Layout split into a 3-by-3 grid of cells. Elements placed in a
// cell share it along the flow direction, with optional spacing between them.
module BoxLayouts {
  import opened Wrappers
  import opened Geometry
  import opened Text
  import opened Elements
  import opened Layouts

  /** The nine cells. POSITION.UNKNOWN only ever comes back from the position
      lookup, which here answers an Option instead. */
  datatype Position =
    | TOP_LEFT | TOP_CENTRE | TOP_RIGHT
    | MIDDLE_LEFT | MIDDLE_CENTRE | MIDDLE_RIGHT
    | BOTTOM_LEFT | BOTTOM_CENTRE | BOTTOM_RIGHT

  datatype Flow = RIGHT | DOWN

  /** 0 for the left column, 1 for the centre, 2 for the right. */
  function Column(p: Position): (c: nat)
    ensures c < 3
  {
    match p
    case TOP_LEFT | MIDDLE_LEFT | BOTTOM_LEFT => 0
    case TOP_CENTRE | MIDDLE_CENTRE | BOTTOM_CENTRE => 1
    case TOP_RIGHT | MIDDLE_RIGHT | BOTTOM_RIGHT => 2
  }

  /** 0 for the top row, 1 for the middle, 2 for the bottom. */
  function Row(p: Position): (r: nat)
    ensures r < 3
  {
    match p
    case TOP_LEFT | TOP_CENTRE | TOP_RIGHT => 0
    case MIDDLE_LEFT | MIDDLE_CENTRE | MIDDLE_RIGHT => 1
    case BOTTOM_LEFT | BOTTOM_CENTRE | BOTTOM_RIGHT => 2
  }

  /** The position in row `row` and column `column`. */
  function At(row: nat, column: nat): (p: Position)
    requires row < 3 && column < 3
    ensures Row(p) == row && Column(p) == column
  {
    if row == 0 then (if column == 0 then TOP_LEFT else if column == 1 then TOP_CENTRE else TOP_RIGHT)
    else if row == 1 then (if column == 0 then MIDDLE_LEFT else if column == 1 then MIDDLE_CENTRE else MIDDLE_RIGHT)
    else (if column == 0 then BOTTOM_LEFT else if column == 1 then BOTTOM_CENTRE else BOTTOM_RIGHT)
  }

  /** A position is determined by its row and its column. */
  lemma RowAndColumnIdentify(p: Position)
    ensures At(Row(p), Column(p)) == p
  {
  }

  /** The k-th cell in the order the code handles them: TopLeft, TopCentre,
      TopRight, MiddleLeft, ..., BottomRight. */
  function GridPosition(k: nat): (p: Position)
    requires k < 9
    ensures GridIndex(p) == k
  {
    if k == 0 then TOP_LEFT else if k == 1 then TOP_CENTRE else if k == 2 then TOP_RIGHT
    else if k == 3 then MIDDLE_LEFT else if k == 4 then MIDDLE_CENTRE else if k == 5 then MIDDLE_RIGHT
    else if k == 6 then BOTTOM_LEFT else if k == 7 then BOTTOM_CENTRE else BOTTOM_RIGHT
  }

  function GridIndex(p: Position): (k: nat)
    ensures k < 9
  {
    3 * Row(p) + Column(p)
  }

  /** Each cell comes exactly once in the grid order. */
  lemma GridPositionOf(p: Position)
    ensures GridPosition(GridIndex(p)) == p
  {
    RowAndColumnIdentify(p);
  }

  /** The six ratio fields: left:centre:right across, top:middle:bottom down. */
  datatype Ratios = Ratios(left: int, centre: int, right: int, top: int, middle: int, bottom: int)
  {
    function HorizontalTotal(): int { left + centre + right }
    function VerticalTotal(): int { top + middle + bottom }
    predicate NonNegative() { left >= 0 && centre >= 0 && right >= 0 && top >= 0 && middle >= 0 && bottom >= 0 }
    function ColumnRatio(c: nat): int { if c == 0 then left else if c == 1 then centre else right }
    function RowRatio(r: nat): int { if r == 0 then top else if r == 1 then middle else bottom }
  }

  const DefaultRatios := Ratios(1, 1, 1, 1, 1, 1)

  /** (int)(part / (float)total * length), computed exactly. A zero total
      makes the share NaN or infinite, so its cast gives IndefiniteInt. */
  function Share(part: int, total: int, length: int): int
  {
    if total == 0 then IndefiniteInt else Quot(part * length, total)
  }

  /** getCellWidthForPosition. */
  function ColumnWidth(r: Ratios, c: nat, width: int): int
  {
    Share(r.ColumnRatio(c), r.HorizontalTotal(), width)
  }

  /** getCellHeightForPosition. */
  function RowHeight(r: Ratios, row: nat, height: int): int
  {
    Share(r.RowRatio(row), r.VerticalTotal(), height)
  }

  /** The left edge of a column: neighbouring columns share one pixel, so the
      centre starts at width(left) - 1 and the right at
      width(left) + width(centre) - 1. */
  function ColumnStart(r: Ratios, c: nat, width: int): int
  {
    if c == 0 then 0
    else if c == 1 then ColumnWidth(r, 0, width) - 1
    else ColumnWidth(r, 0, width) + ColumnWidth(r, 1, width) - 1
  }

  function RowStart(r: Ratios, row: nat, height: int): int
  {
    if row == 0 then 0
    else if row == 1 then RowHeight(r, 0, height) - 1
    else RowHeight(r, 0, height) + RowHeight(r, 1, height) - 1
  }

  /** getCellLocationForPosition. */
  function CellLocation(r: Ratios, p: Position, width: int, height: int): Point
  {
    Point(ColumnStart(r, Column(p), width), RowStart(r, Row(p), height))
  }

  /** getBoundsForPosition. */
  function CellBounds(r: Ratios, p: Position, width: int, height: int): Rectangle
  {
    RectangleOf(CellLocation(r, p, width, height),
                Size(ColumnWidth(r, Column(p), width), RowHeight(r, Row(p), height)))
  }

  /** With the three column ratios adding up to 0 (setHorizontalRatio(0, 0,
      0), or -1:-1:2 read from a layout file) every column has the width
      IndefiniteInt, and the columns start at 0, IndefiniteInt - 1 and
      2 * IndefiniteInt - 1; nothing throws. */
  lemma ZeroHorizontalTotal(r: Ratios, p: Position, width: int, height: int)
    requires r.HorizontalTotal() == 0
    ensures CellBounds(r, p, width, height).width == IndefiniteInt
    ensures CellBounds(r, p, width, height).x ==
              if Column(p) == 0 then 0 else if Column(p) == 1 then IndefiniteInt - 1 else 2 * IndefiniteInt - 1
  {
  }

  /** A cell holding n elements is cut into 10 parts per element and
      `spacing` parts per gap. */
  function Parts(n: nat, spacing: nat): (k: int)
    requires n >= 1
    ensures k >= 10
  {
    n * 10 + (n - 1) * spacing
  }

  function ElementLength(a: int, n: nat, spacing: nat): int
    requires n >= 1
  {
    Quot(a * 10, Parts(n, spacing))
  }

  function SpacingLength(a: int, n: nat, spacing: nat): int
    requires n >= 1
  {
    Quot(a * spacing, Parts(n, spacing))
  }

  /** Slot i of a cell cut into element lengths eL and gaps sL: i lengths
      and i gaps along the flow from the cell's origin, and the whole cell
      across it. */
  function Slot(cell: Rectangle, flow: Flow, eL: int, sL: int, i: nat): Rectangle
  {
    if flow == RIGHT then Rectangle(cell.x + i * eL + i * sL, cell.y, eL, cell.height)
    else Rectangle(cell.x, cell.y + i * eL + i * sL, cell.width, eL)
  }

  /** Render(position): the bounds given to element i of the n elements of
      cell p, the cell's flow length being cut into Parts(n, spacing). */
  function SlotBounds(r: Ratios, flow: Flow, spacing: nat, p: Position, n: nat, i: nat,
                      width: int, height: int): Rectangle
    requires n >= 1
  {
    var cell := CellBounds(r, p, width, height);
    var a := if flow == RIGHT then cell.width else cell.height;
    Slot(cell, flow, ElementLength(a, n, spacing), SpacingLength(a, n, spacing), i)
  }

  /** The first n slots of a cell cut into element lengths eL and gaps sL. */
  function Slots(cell: Rectangle, flow: Flow, eL: int, sL: int, n: nat): (slots: seq<Rectangle>)
    ensures |slots| == n
  {
    seq(n, i requires 0 <= i < n => Slot(cell, flow, eL, sL, i))
  }

  /** The slots of the n elements of cell p, in order. */
  function CellSlots(r: Ratios, flow: Flow, spacing: nat, p: Position, n: nat, width: int, height: int)
    : (slots: seq<Rectangle>)
    ensures |slots| == n
  {
    if n == 0 then []
    else
      var cell := CellBounds(r, p, width, height);
      var a := if flow == RIGHT then cell.width else cell.height;
      Slots(cell, flow, ElementLength(a, n, spacing), SpacingLength(a, n, spacing), n)
  }

  /** The loop of Render(position): element i of `es` gets Slot i. */
  method PlaceAlong(es: seq<Element>, cell: Rectangle, flow: Flow, eL: int, sL: int)
    requires Distinct(es)
    modifies es`location, es`size
    ensures PlacedIn(es, Slots(cell, flow, eL, sL, |es|))
  {
    for i := 0 to |es|
      invariant forall j :: 0 <= j < i ==> es[j].Bounds() == Slot(cell, flow, eL, sL, j)
    {
      if flow == RIGHT {
        es[i].location := Point(cell.x + i * eL + i * sL, cell.y);
        es[i].size := Size(eL, cell.height);
      } else {
        es[i].location := Point(cell.x, cell.y + i * eL + i * sL);
        es[i].size := Size(cell.width, eL);
      }
    }
    assert forall i :: 0 <= i < |es| ==> BoundsOf(es)[i] == Slots(cell, flow, eL, sL, |es|)[i];
  }

  // ----- properties of the cell geometry -----

  /** With non-negative ratios the three shares of a length never exceed it
      and lose at most two pixels to truncation. */
  lemma SharesTile(a: int, b: int, c: int, length: int)
    requires a >= 0 && b >= 0 && c >= 0 && a + b + c > 0 && length >= 0
    ensures Share(a, a + b + c, length) >= 0 && Share(b, a + b + c, length) >= 0 && Share(c, a + b + c, length) >= 0
    ensures length - 2 <= Share(a, a + b + c, length) + Share(b, a + b + c, length) + Share(c, a + b + c, length) <= length
  {
    var t := a + b + c;
    var na, nb, nc := a * length, b * length, c * length;
    MulNonNegative(a, length);
    MulNonNegative(b, length);
    MulNonNegative(c, length);
    QuotNonNegative(na, t);
    QuotNonNegative(nb, t);
    QuotNonNegative(nc, t);
    assert t * length == na + nb + nc;
    ThreeQuotients(t, length, na / t, nb / t, nc / t, na, nb, nc);
  }

  /** The arithmetic core of SharesTile: three floors of parts of t * length. */
  lemma ThreeQuotients(t: int, length: int, qa: int, qb: int, qc: int, na: int, nb: int, nc: int)
    requires t > 0 && na + nb + nc == t * length
    requires t * qa <= na < t * qa + t
    requires t * qb <= nb < t * qb + t
    requires t * qc <= nc < t * qc + t
    ensures length - 2 <= qa + qb + qc <= length
  {
    var sum := qa + qb + qc;
    assert t * sum == t * qa + t * qb + t * qc;
    assert t * (length + 1) == t * length + t;
    assert t * (sum + 3) == t * sum + 3 * t;
    if sum > length {
      MulMonotone(t, length + 1, sum);
    }
    if length > sum + 2 {
      MulMonotone(t, sum + 3, length);
    }
  }

  /** The three columns together cover the width up to two pixels. */
  lemma ColumnsTile(r: Ratios, width: int)
    requires r.NonNegative() && r.HorizontalTotal() > 0 && width >= 0
    ensures forall c :: 0 <= c < 3 ==> ColumnWidth(r, c, width) >= 0
    ensures width - 2 <= ColumnWidth(r, 0, width) + ColumnWidth(r, 1, width) + ColumnWidth(r, 2, width) <= width
  {
    SharesTile(r.left, r.centre, r.right, width);
  }

  /** The three rows together cover the height up to two pixels. */
  lemma RowsTile(r: Ratios, height: int)
    requires r.NonNegative() && r.VerticalTotal() > 0 && height >= 0
    ensures forall row :: 0 <= row < 3 ==> RowHeight(r, row, height) >= 0
    ensures height - 2 <= RowHeight(r, 0, height) + RowHeight(r, 1, height) + RowHeight(r, 2, height) <= height
  {
    SharesTile(r.top, r.middle, r.bottom, height);
  }

  /** n element lengths and n - 1 gaps fit in the length they were cut from. */
  lemma SubdivisionFits(a: int, n: nat, spacing: nat)
    requires a >= 0 && n >= 1
    ensures ElementLength(a, n, spacing) >= 0 && SpacingLength(a, n, spacing) >= 0
    ensures n * ElementLength(a, n, spacing) + (n - 1) * SpacingLength(a, n, spacing) <= a
  {
    var p := Parts(n, spacing);
    MulNonNegative(a, spacing);
    QuotNonNegative(a * 10, p);
    QuotNonNegative(a * spacing, p);
    var eL, sL := ElementLength(a, n, spacing), SpacingLength(a, n, spacing);
    assert p * eL <= a * 10;
    assert p * sL <= a * spacing;
    ShareSum(a, n, spacing, p, eL, sL);
  }

  /** The arithmetic core of SubdivisionFits, on opaque lengths. */
  lemma ShareSum(a: int, n: nat, spacing: nat, p: int, eL: int, sL: int)
    requires a >= 0 && n >= 1 && p == n * 10 + (n - 1) * spacing
    requires p * eL <= a * 10 && p * sL <= a * spacing
    ensures n * eL + (n - 1) * sL <= a
  {
    var x := n * eL + (n - 1) * sL;
    MulMonotone(n, p * eL, a * 10);
    MulMonotone(n - 1, p * sL, a * spacing);
    Distribute(p, n, n - 1, eL, sL);
    Distribute(a, n, n - 1, 10, spacing);
    assert p * x <= p * a;
    assert p * (a + 1) == p * a + p;
    if x > a {
      MulMonotone(p, a + 1, x);
    }
  }

  /** c * (m * u + k * v) regrouped. */
  lemma Distribute(c: int, m: int, k: int, u: int, v: int)
    ensures c * (m * u + k * v) == m * (c * u) + k * (c * v)
  {
    assert c * (m * u) == m * (c * u);
    assert c * (k * v) == k * (c * v);
  }

  /** The slots handed out by Render(position) stay inside the cell, keep
      its extent across the flow, and follow each other without overlap
      along it. */
  lemma SlotsPartitionCell(r: Ratios, flow: Flow, spacing: nat, p: Position, n: nat,
                           width: int, height: int)
    requires r.NonNegative() && r.HorizontalTotal() > 0 && r.VerticalTotal() > 0
    requires width >= 0 && height >= 0 && n >= 1
    ensures forall i :: 0 <= i < n ==>
              var s, cell := SlotBounds(r, flow, spacing, p, n, i, width, height), CellBounds(r, p, width, height);
              s.width >= 0 && s.height >= 0 &&
              cell.x <= s.x && s.x + s.width <= cell.x + cell.width &&
              cell.y <= s.y && s.y + s.height <= cell.y + cell.height &&
              (flow == RIGHT ==> s.y == cell.y && s.height == cell.height) &&
              (flow == DOWN ==> s.x == cell.x && s.width == cell.width)
    ensures forall i, j :: 0 <= i < j < n ==>
              var s, t := SlotBounds(r, flow, spacing, p, n, i, width, height), SlotBounds(r, flow, spacing, p, n, j, width, height);
              if flow == RIGHT then s.x + s.width <= t.x else s.y + s.height <= t.y
  {
    ColumnsTile(r, width);
    RowsTile(r, height);
    var cell := CellBounds(r, p, width, height);
    var a := if flow == RIGHT then cell.width else cell.height;
    assert a >= 0;
    SubdivisionFits(a, n, spacing);
    var eL, sL := ElementLength(a, n, spacing), SpacingLength(a, n, spacing);
    forall i | 0 <= i < n
      ensures i * eL + i * sL + eL <= a && i * eL >= 0 && i * sL >= 0
    {
      MulNonNegative(n - 1 - i, eL);
      MulNonNegative(n - 1 - i, sL);
      MulNonNegative(i, eL);
      MulNonNegative(i, sL);
      assert n * eL == i * eL + eL + (n - 1 - i) * eL;
      assert (n - 1) * sL == i * sL + (n - 1 - i) * sL;
    }
    forall i, j | 0 <= i < j < n
      ensures i * eL + i * sL + eL <= j * eL + j * sL
    {
      MulNonNegative(j - i - 1, eL);
      MulNonNegative(j - i, sL);
      assert j * eL == i * eL + eL + (j - i - 1) * eL;
      assert j * sL == i * sL + (j - i) * sL;
    }
  }

  /** The demonstration screen: buttons A, B and C in the middle-centre cell
      of an 800 by 480 display, Flow DOWN, Spacing 2, horizontal ratio 1:5:1.
      The cell is 571 by 160 at (113, 159); 34 parts give each button 47
      pixels and each gap 9. */
  lemma ThreeButtonsDown()
    ensures CellBounds(Ratios(1, 5, 1, 1, 1, 1), MIDDLE_CENTRE, 800, 480) == Rectangle(113, 159, 571, 160)
    ensures SlotBounds(Ratios(1, 5, 1, 1, 1, 1), DOWN, 2, MIDDLE_CENTRE, 3, 0, 800, 480) == Rectangle(113, 159, 571, 47)
    ensures SlotBounds(Ratios(1, 5, 1, 1, 1, 1), DOWN, 2, MIDDLE_CENTRE, 3, 1, 800, 480) == Rectangle(113, 215, 571, 47)
    ensures SlotBounds(Ratios(1, 5, 1, 1, 1, 1), DOWN, 2, MIDDLE_CENTRE, 3, 2, 800, 480) == Rectangle(113, 271, 571, 47)
  {
  }

  // ----- grid lines -----

  /** The names of the eight debugging grid lines, in the order they are added. */
  const GridNames: seq<string> := [
    "OUTER_LEFT_LINE", "OUTER_TOP_LINE", "OUTER_RIGHT_LINE", "OUTER_BOTTOM_LINE",
    "INNER_VERTICAL_LEFT_LINE", "INNER_VERTICAL_RIGHT_LINE",
    "INNER_HORIZONTAL_TOP_LINE", "INNER_HORIZONTAL_BOTTOM_LINE"]

  /** createGridLines: start and end of each grid line. The outer frame runs
      along the screen edges; the inner lines start at the origins of the
      centre column, the right column, the middle row and the bottom row. */
  function GridLineEnds(r: Ratios, width: int, height: int): (ends: seq<(Point, Point)>)
    ensures |ends| == 8
  {
    var topCentre := CellLocation(r, TOP_CENTRE, width, height);
    var topRight := CellLocation(r, TOP_RIGHT, width, height);
    var middleLeft := CellLocation(r, MIDDLE_LEFT, width, height);
    var bottomLeft := CellLocation(r, BOTTOM_LEFT, width, height);
    [ (Point(0, 0), Point(0, height)),
      (Point(0, 0), Point(width - 1, 0)),
      (Point(width - 1, 0), Point(width - 1, height - 1)),
      (Point(0, height - 1), Point(width - 1, height - 1)),
      (topCentre, Point(topCentre.x, height)),
      (topRight, Point(topRight.x, height)),
      (middleLeft, Point(width, middleLeft.y)),
      (bottomLeft, Point(width, bottomLeft.y)) ]
  }

  /** `line` is grid line k of the table `ends`: black, one pixel wide. */
  ghost predicate IsGridLine(line: Element, k: nat, ends: seq<(Point, Point)>)
    requires k < 8 && |ends| == 8
    reads line
  {
    line.name == GridNames[k] && line.kind == LINE &&
    line.lineStart == ends[k].0 && line.lineEnd == ends[k].1 &&
    line.location == line.lineStart &&
    line.linePen == Some(PenOf(Black))
  }

  /** `lines` are the eight grid lines of the table `ends`, in order. */
  ghost predicate IsGrid(lines: seq<Element>, ends: seq<(Point, Point)>)
    requires |ends| == 8
    reads lines
  {
    |lines| == 8 && forall k :: 0 <= k < 8 ==> IsGridLine(lines[k], k, ends)
  }

  /** The bounds of the elements `cell`, in order. */
  ghost function BoundsOf(cell: seq<Element>): (bs: seq<Rectangle>)
    reads cell
    ensures |bs| == |cell|
  {
    seq(|cell|, i reads cell requires 0 <= i < |cell| => cell[i].Bounds())
  }

  /** Render(position) has given the elements `cell` of a position their slots. */
  ghost predicate PlacedIn(cell: seq<Element>, slots: seq<Rectangle>)
    reads cell
  {
    BoundsOf(cell) == slots
  }

  /** What adding the eight grid lines does to a list with unique names: the
      old list is kept as a prefix, every grid name is then taken, names stay
      unique, and when every grid name was already taken (a second render)
      nothing is added at all. */
  lemma GridAddition(es: seq<Element>, lines: seq<Element>)
    requires UniqueNames(es) && |lines| == 8
    requires forall k :: 0 <= k < 8 ==> lines[k].name == GridNames[k]
    ensures UniqueNames(AddAll(es, lines))
    ensures |es| <= |AddAll(es, lines)| && AddAll(es, lines)[..|es|] == es
    ensures forall k :: 0 <= k < 8 ==> NameTaken(AddAll(es, lines), GridNames[k])
    ensures (forall k :: 0 <= k < 8 ==> NameTaken(es, GridNames[k])) ==> AddAll(es, lines) == es
  {
    AddAllKeepsNamesUnique(es, lines);
    AddAllExtends(es, lines);
    forall k | 0 <= k < 8 ensures NameTaken(AddAll(es, lines), GridNames[k]) {
      AddAllNames(es, lines, GridNames[k]);
    }
    if forall k :: 0 <= k < 8 ==> NameTaken(es, GridNames[k]) {
      forall e | e in lines ensures NameTaken(es, e.name) {
        var k :| 0 <= k < 8 && lines[k] == e;
      }
      AddAllOfTakenNames(es, lines);
    }
  }

  // ----- List<T>.Remove and bucket bookkeeping -----

  /** List<T>.Remove(e): drops the first occurrence of the object `e`. */
  function Delete(s: seq<Element>, e: Element): (r: seq<Element>)
    ensures |r| == if e in s then |s| - 1 else |s|
    ensures forall x :: x in r ==> x in s
  {
    if s == [] then []
    else if s[0] == e then s[1..]
    else [s[0]] + Delete(s[1..], e)
  }

  /** In a list with unique names, removing an element object is removing
      the first element that carries its name. */
  lemma {:induction false} DeleteIsRemovalByName(s: seq<Element>, e: Element)
    requires UniqueNames(s) && e in s
    ensures Delete(s, e) == WithoutFirst(s, e.name)
  {
    var rest := s[1..];
    assert s == [s[0]] + rest;
    WithoutFirstCons(s[0], rest, e.name);
    if s[0] != e {
      UniqueTail(s);
      assert e in rest;
      var k :| 0 <= k < |rest| && rest[k] == e;
      assert s[0].name != rest[k].name;
      DeleteIsRemovalByName(rest, e);
    }
  }

  predicate Distinct(s: seq<Element>)
  {
    forall i, j :: 0 <= i < j < |s| ==> s[i] != s[j]
  }

  /** Dropping one element keeps the rest distinct. */
  lemma RemovalKeepsDistinct(s: seq<Element>, name: string)
    requires Distinct(s)
    ensures Distinct(WithoutFirst(s, name))
  {
    var k := FirstIndexOf(s, name);
    if k < |s| {
      var r := s[..k] + s[k + 1..];
      forall i, j | 0 <= i < j < |r|
        ensures r[i] != r[j]
      {
        var i', j' := if i < k then i else i + 1, if j < k then j else j + 1;
        assert r[i] == s[i'] && r[j] == s[j'] && i' < j';
      }
    }
  }

  /** In a list with unique names, removal by name drops exactly the
      elements of that name (membership only). */
  lemma RemovalMembers(s: seq<Element>, name: string)
    requires UniqueNames(s)
    ensures forall x :: x in WithoutFirst(s, name) <==> x in s && x.name != name
  {
    WithoutFirstMembers(s, name);
  }

  // ----- safe names -----

  ghost function NamesOf(es: seq<Element>): set<string>
  {
    set i | 0 <= i < |es| :: es[i].name
  }

  lemma {:induction false} NamesOfBound(es: seq<Element>)
    ensures |NamesOf(es)| <= |es|
  {
    if es != [] {
      var init := es[..|es| - 1];
      NamesOfBound(init);
      assert forall i :: 0 <= i < |init| ==> init[i] == es[i];
      assert NamesOf(es) == NamesOf(init) + {es[|es| - 1].name};
    }
  }

  /** The candidates name1, ..., name<count>. */
  ghost function Numbered(name: string, count: nat): set<string>
  {
    set j | 1 <= j <= count :: name + NatToString(j)
  }

  lemma SuffixInjective(name: string, a: nat, b: nat)
    requires name + NatToString(a) == name + NatToString(b)
    ensures a == b
  {
    assert (name + NatToString(a))[|name|..] == NatToString(a);
    assert (name + NatToString(b))[|name|..] == NatToString(b);
    NatToStringInjective(a, b);
  }

  lemma {:induction false} NumberedCount(name: string, count: nat)
    ensures |Numbered(name, count)| == count
  {
    if count > 0 {
      NumberedCount(name, count - 1);
      assert Numbered(name, count) == Numbered(name, count - 1) + {name + NatToString(count)};
      forall j | 1 <= j <= count - 1 ensures name + NatToString(j) != name + NatToString(count) {
        if name + NatToString(j) == name + NatToString(count) {
          SuffixInjective(name, j, count);
        }
      }
    }
  }

  lemma SubsetCount<T>(a: set<T>, b: set<T>)
    requires a <= b
    ensures |a| <= |b|
  {
    assert b == a + (b - a);
    assert a * (b - a) == {};
  }

  /** Each of name1 .. name<count> being taken needs count distinct elements:
      this bounds the search in generateSafeName. */
  lemma TakenNumbersBound(es: seq<Element>, name: string, count: nat)
    requires forall j :: 1 <= j <= count ==> NameTaken(es, name + NatToString(j))
    ensures count <= |es|
  {
    NumberedCount(name, count);
    NamesOfBound(es);
    forall s | s in Numbered(name, count) ensures s in NamesOf(es) {
      var j :| 1 <= j <= count && s == name + NatToString(j);
      var i :| 0 <= i < |es| && es[i].name == s;
    }
    SubsetCount(Numbered(name, count), NamesOf(es));
  }

  // ----- the cells -----

  /** boxDict against the element list: every cell has a list, each element
      sits in at most one slot of one cell, and only elements of the layout
      sit in cells. */
  ghost predicate CellsValid(cells: map<Position, seq<Element>>, es: seq<Element>)
  {
    (forall p: Position :: p in cells) &&
    (forall p: Position :: Distinct(cells[p])) &&
    (forall p: Position, i :: 0 <= i < |cells[p]| ==> cells[p][i] in es) &&
    (forall p: Position, q: Position, i :: p != q && 0 <= i < |cells[p]| ==> cells[p][i] !in cells[q])
  }

  const EmptyCells: map<Position, seq<Element>> :=
    map[TOP_LEFT := [], TOP_CENTRE := [], TOP_RIGHT := [],
        MIDDLE_LEFT := [], MIDDLE_CENTRE := [], MIDDLE_RIGHT := [],
        BOTTOM_LEFT := [], BOTTOM_CENTRE := [], BOTTOM_RIGHT := []]

  lemma EmptyCellsValid()
    ensures forall p: Position :: p in EmptyCells && EmptyCells[p] == []
    ensures CellsValid(EmptyCells, [])
  {
    forall p: Position ensures p in EmptyCells && EmptyCells[p] == [] {
      match p
      case TOP_LEFT =>
      case TOP_CENTRE =>
      case TOP_RIGHT =>
      case MIDDLE_LEFT =>
      case MIDDLE_CENTRE =>
      case MIDDLE_RIGHT =>
      case BOTTOM_LEFT =>
      case BOTTOM_CENTRE =>
      case BOTTOM_RIGHT =>
    }
  }

  /** An element found in none of the nine cells is in no cell at all. */
  lemma InNoCell(cells: map<Position, seq<Element>>, e: Element)
    requires forall p: Position :: p in cells
    requires e !in cells[TOP_LEFT] && e !in cells[TOP_CENTRE] && e !in cells[TOP_RIGHT]
    requires e !in cells[MIDDLE_LEFT] && e !in cells[MIDDLE_CENTRE] && e !in cells[MIDDLE_RIGHT]
    requires e !in cells[BOTTOM_LEFT] && e !in cells[BOTTOM_CENTRE] && e !in cells[BOTTOM_RIGHT]
    ensures forall p: Position :: e !in cells[p]
  {
    forall p: Position ensures e !in cells[p] {
      match p
      case TOP_LEFT =>
      case TOP_CENTRE =>
      case TOP_RIGHT =>
      case MIDDLE_LEFT =>
      case MIDDLE_CENTRE =>
      case MIDDLE_RIGHT =>
      case BOTTOM_LEFT =>
      case BOTTOM_CENTRE =>
      case BOTTOM_RIGHT =>
    }
  }

  /** Appending a new element to one cell and to the list keeps the cells valid. */
  lemma CellsAdd(cells: map<Position, seq<Element>>, es: seq<Element>, p: Position, e: Element)
    requires CellsValid(cells, es) && e !in es
    ensures CellsValid(cells[p := cells[p] + [e]], es + [e])
  {
    var c := cells[p := cells[p] + [e]];
    forall q: Position ensures e !in cells[q] && forall i :: 0 <= i < |cells[q]| ==> cells[q][i] in es {
      assert forall i :: 0 <= i < |cells[q]| ==> cells[q][i] in es;
    }
    AppendDistinct(cells[p], e);
    forall q: Position, i | 0 <= i < |c[q]| ensures c[q][i] in es + [e] && (c[q][i] == e || c[q][i] == cells[q][i]) {
      if q == p && i == |cells[p]| {
        assert c[q][i] == e;
      } else {
        assert c[q][i] == cells[q][i];
      }
    }
    forall q: Position, r: Position, i | q != r && 0 <= i < |c[q]| ensures c[q][i] !in c[r] {
      if c[q][i] == e {
        assert q == p;
        assert e !in cells[r];
      } else {
        assert c[q][i] == cells[q][i] && cells[q][i] !in cells[r];
      }
    }
  }

  /** Appending a new object keeps a list distinct. */
  lemma AppendDistinct(s: seq<Element>, e: Element)
    requires Distinct(s) && e !in s
    ensures Distinct(s + [e])
  {
    var t := s + [e];
    forall i, j | 0 <= i < j < |t| ensures t[i] != t[j] {
      assert t[i] == s[i];
      if j < |s| {
        assert t[j] == s[j];
      }
    }
  }

  /** The names within one cell are unique. */
  lemma CellNamesUnique(cells: map<Position, seq<Element>>, es: seq<Element>, p: Position)
    requires CellsValid(cells, es) && UniqueNames(es)
    ensures UniqueNames(cells[p])
  {
    var b := cells[p];
    forall i, j | 0 <= i < j < |b| ensures b[i].name != b[j].name {
      assert b[i] in es && b[j] in es;
      var x :| 0 <= x < |es| && es[x] == b[i];
      var y :| 0 <= y < |es| && es[y] == b[j];
      assert x != y;
    }
  }

  /** When no element of the list has the name, no slot has it either. */
  lemma NoNameNoSlot(cells: map<Position, seq<Element>>, es: seq<Element>, name: string)
    requires CellsValid(cells, es) && !NameTaken(es, name)
    ensures forall p: Position :: WithoutFirst(cells[p], name) == cells[p]
    ensures forall p: Position, i :: 0 <= i < |cells[p]| ==> cells[p][i].name != name
  {
    forall p: Position, i | 0 <= i < |cells[p]| ensures cells[p][i].name != name {
      assert cells[p][i] in es;
    }
  }

  /** The facts about the element `e` that RemoveElement removes: taking
      the object out of the list, and out of the cell that holds it, is
      removal of the first element with its name, and no other cell holds
      that name. */
  lemma RemovalByObject(cells: map<Position, seq<Element>>, es: seq<Element>, e: Element)
    requires CellsValid(cells, es) && UniqueNames(es) && e in es
    ensures Delete(es, e) == WithoutFirst(es, e.name)
    ensures forall p: Position :: e in cells[p] ==> Delete(cells[p], e) == WithoutFirst(cells[p], e.name)
    ensures forall p: Position :: e !in cells[p] ==> WithoutFirst(cells[p], e.name) == cells[p]
  {
    DeleteIsRemovalByName(es, e);
    forall p: Position ensures e in cells[p] ==> Delete(cells[p], e) == WithoutFirst(cells[p], e.name) {
      if e in cells[p] {
        CellNamesUnique(cells, es, p);
        DeleteIsRemovalByName(cells[p], e);
      }
    }
    forall p: Position | e !in cells[p] ensures WithoutFirst(cells[p], e.name) == cells[p] {
      forall i | 0 <= i < |cells[p]| ensures cells[p][i].name != e.name {
        var x :| 0 <= x < |es| && es[x] == cells[p][i];
        var y :| 0 <= y < |es| && es[y] == e;
        assert x != y;
      }
    }
  }

  /** An element sits in one cell only. */
  lemma OnlyCell(cells: map<Position, seq<Element>>, es: seq<Element>, t: Position, e: Element)
    requires CellsValid(cells, es) && e in cells[t]
    ensures forall p: Position :: p != t ==> e !in cells[p]
  {
    var k :| 0 <= k < |cells[t]| && cells[t][k] == e;
  }

  /** RemoveElement once the element is found: taking `e` out of the list
      and out of the cell `t` that holds it (if any) removes its name from
      the list and from every cell, and keeps everything valid. */
  lemma RemovalPlan(cells: map<Position, seq<Element>>, es: seq<Element>, e: Element, t: Option<Position>)
    requires CellsValid(cells, es) && UniqueNames(es) && e in es
    requires t.Some? ==> e in cells[t.value]
    requires t.None? ==> forall p: Position :: e !in cells[p]
    ensures var cells' := if t.Some? then cells[t.value := Delete(cells[t.value], e)] else cells;
            Delete(es, e) == WithoutFirst(es, e.name) &&
            UniqueNames(Delete(es, e)) &&
            CellsValid(cells', Delete(es, e)) &&
            (forall p: Position :: cells'[p] == WithoutFirst(cells[p], e.name)) &&
            (forall p: Position, i :: 0 <= i < |cells'[p]| ==> cells'[p][i].name != e.name)
  {
    RemovalByObject(cells, es, e);
    RemoveDropsTheName(es, e.name);
    var cells' := if t.Some? then cells[t.value := Delete(cells[t.value], e)] else cells;
    if t.Some? {
      OnlyCell(cells, es, t.value, e);
    }
    assert forall p: Position :: p in cells' && cells'[p] == WithoutFirst(cells[p], e.name);
    CellsRemove(cells, es, e.name, cells');
  }

  /** Removing a name from the list and from every cell keeps the cells valid. */
  lemma CellsRemove(cells: map<Position, seq<Element>>, es: seq<Element>, name: string,
                    cells': map<Position, seq<Element>>)
    requires CellsValid(cells, es) && UniqueNames(es)
    requires forall p: Position :: p in cells' && cells'[p] == WithoutFirst(cells[p], name)
    ensures CellsValid(cells', WithoutFirst(es, name))
    ensures forall p: Position, i :: 0 <= i < |cells'[p]| ==> cells'[p][i].name != name
  {
    WithoutFirstMembers(es, name);
    forall p: Position
      ensures Distinct(cells'[p])
      ensures forall x :: x in cells'[p] <==> x in cells[p] && x.name != name
    {
      CellNamesUnique(cells, es, p);
      RemovalKeepsDistinct(cells[p], name);
      WithoutFirstMembers(cells[p], name);
    }
    forall p: Position, i | 0 <= i < |cells'[p]|
      ensures cells'[p][i] in WithoutFirst(es, name) && cells'[p][i].name != name
    {
      assert cells'[p][i] in cells'[p];
      assert cells'[p][i] in cells[p];
      assert cells'[p][i] in es;
    }
    forall p: Position, q: Position, i | p != q && 0 <= i < |cells'[p]| ensures cells'[p][i] !in cells'[q] {
      assert cells'[p][i] in cells'[p];
      var k :| 0 <= k < |cells[p]| && cells[p][k] == cells'[p][i];
    }
  }

  /** A longer list keeps the cells valid. */
  lemma CellsGrow(cells: map<Position, seq<Element>>, es: seq<Element>, es': seq<Element>)
    requires CellsValid(cells, es)
    requires forall i :: 0 <= i < |es| ==> es[i] in es'
    ensures CellsValid(cells, es')
  {
    forall p: Position, i | 0 <= i < |cells[p]| ensures cells[p][i] in es' {
      var k :| 0 <= k < |es| && es[k] == cells[p][i];
    }
  }

  /** The list after removeGridLines: every element whose name is one of
      `names` is dropped, the rest keep their order. */
  function WithoutNamed(es: seq<Element>, names: seq<string>): (r: seq<Element>)
    ensures forall i :: 0 <= i < |r| ==> r[i] in es && r[i].name !in names
    ensures forall i :: 0 <= i < |es| && es[i].name !in names ==> es[i] in r
  {
    if es == [] then []
    else if es[0].name in names then WithoutNamed(es[1..], names)
    else [es[0]] + WithoutNamed(es[1..], names)
  }

  /** RemoveElement on a list whose first element is `x`. */
  lemma WithoutFirstCons(x: Element, rest: seq<Element>, name: string)
    ensures x.name == name ==> WithoutFirst([x] + rest, name) == rest
    ensures x.name != name ==> WithoutFirst([x] + rest, name) == [x] + WithoutFirst(rest, name)
  {
    var s := [x] + rest;
    assert s[1..] == rest;
    if x.name != name {
      var k := FirstIndexOf(rest, name);
      assert FirstIndexOf(s, name) == 1 + k;
      if k < |rest| {
        assert s[..1 + k] + s[1 + k + 1..] == [x] + (rest[..k] + rest[k + 1..]);
      }
    }
  }

  /** A name nobody has changes nothing. */
  lemma {:induction false} UnusedName(es: seq<Element>, names: seq<string>, n: string)
    requires !NameTaken(es, n)
    ensures WithoutNamed(es, names + [n]) == WithoutNamed(es, names)
    decreases |es|
  {
    if es != [] {
      assert es[0].name != n;
      assert !NameTaken(es[1..], n) by {
        forall i | 0 <= i < |es[1..]| ensures es[1..][i].name != n {
          assert es[1..][i] == es[1 + i];
        }
      }
      UnusedName(es[1..], names, n);
      assert es[0].name in names + [n] <==> es[0].name in names;
    }
  }

  /** The tail of a list with unique names has unique names, none of them
      the head's. */
  lemma UniqueTail(es: seq<Element>)
    requires UniqueNames(es) && es != []
    ensures UniqueNames(es[1..]) && !NameTaken(es[1..], es[0].name)
  {
    var t := es[1..];
    forall i, j | 0 <= i < j < |t| ensures t[i].name != t[j].name {
      assert t[i] == es[i + 1] && t[j] == es[j + 1];
    }
    forall i | 0 <= i < |t| ensures t[i].name != es[0].name {
      assert t[i] == es[i + 1];
    }
  }

  /** With unique names, removing one more name by RemoveElement extends
      the series. */
  lemma {:induction false} RemovalStep(es: seq<Element>, names: seq<string>, n: string)
    requires UniqueNames(es)
    ensures WithoutFirst(WithoutNamed(es, names), n) == WithoutNamed(es, names + [n])
    decreases |es|
  {
    if es == [] {
      assert FirstIndexOf([], n) == 0;
    } else {
      var x, t := es[0], es[1..];
      UniqueTail(es);
      RemovalStep(t, names, n);
      var rest, rest' := WithoutNamed(t, names), WithoutNamed(t, names + [n]);
      if x.name in names {
        assert WithoutNamed(es, names) == rest;
        assert WithoutNamed(es, names + [n]) == rest';
      } else if x.name == n {
        assert WithoutNamed(es, names) == [x] + rest;
        assert WithoutNamed(es, names + [n]) == rest';
        WithoutFirstCons(x, rest, n);
        UnusedName(t, names, n);
      } else {
        assert WithoutNamed(es, names) == [x] + rest;
        assert x.name !in names + [n];
        assert WithoutNamed(es, names + [n]) == [x] + rest';
        WithoutFirstCons(x, rest, n);
      }
    }
  }

  /** No name of the series is left. */
  lemma NamedGone(es: seq<Element>, names: seq<string>)
    ensures forall k :: 0 <= k < |names| ==> !NameTaken(WithoutNamed(es, names), names[k])
  {
    var r := WithoutNamed(es, names);
    forall k, i | 0 <= k < |names| && 0 <= i < |r| ensures r[i].name != names[k] {
      assert r[i].name !in names;
    }
  }

  /** Every cell with a series of names removed. */
  ghost function CellsWithout(cells: map<Position, seq<Element>>, names: seq<string>): map<Position, seq<Element>>
  {
    map p | p in cells :: WithoutNamed(cells[p], names)
  }

  /** Before the first removal: an empty series removes nothing. */
  lemma NoNamesRemoved(es: seq<Element>, cells: map<Position, seq<Element>>)
    requires forall p: Position :: p in cells
    ensures WithoutNamed(es, []) == es
    ensures cells == CellsWithout(cells, [])
  {
    NoneNamed(es);
    forall p: Position ensures cells[p] == CellsWithout(cells, [])[p] {
      NoneNamed(cells[p]);
    }
  }

  lemma {:induction false} NoneNamed(es: seq<Element>)
    ensures WithoutNamed(es, []) == es
    decreases |es|
  {
    if es != [] {
      NoneNamed(es[1..]);
      assert es == [es[0]] + es[1..];
    }
  }

  /** One removal step of removeGridLines, on the list and on every cell. */
  lemma RemovalPrefixStep(es: seq<Element>, before: map<Position, seq<Element>>, after: map<Position, seq<Element>>,
                          cells0: map<Position, seq<Element>>, names: seq<string>, k: nat)
    requires k < |names| && UniqueNames(es)
    requires forall p: Position :: p in cells0 && UniqueNames(cells0[p])
    requires before == CellsWithout(cells0, names[..k])
    requires forall p: Position :: p in after && after[p] == WithoutFirst(before[p], names[k])
    ensures WithoutFirst(WithoutNamed(es, names[..k]), names[k]) == WithoutNamed(es, names[..k + 1])
    ensures after == CellsWithout(cells0, names[..k + 1])
  {
    assert names[..k + 1] == names[..k] + [names[k]];
    RemovalStep(es, names[..k], names[k]);
    forall p: Position ensures after[p] == CellsWithout(cells0, names[..k + 1])[p] {
      RemovalStep(cells0[p], names[..k], names[k]);
    }
  }

  // ----- the layout -----

  class BoxLayout {
    /** The Layout part: name, type BOX_LAYOUT and the element list. */
    const base: Layout
    var leftRatio: int
    var centreRatio: int
    var rightRatio: int
    var topRatio: int
    var middleRatio: int
    var bottomRatio: int
    var flow: Flow
    var spacing: int
    var showGrid: bool
    /** boxDict: the elements of each cell in the order they were added. */
    var buckets: map<Position, seq<Element>>

    function CurrentRatios(): Ratios
      reads this`leftRatio, this`centreRatio, this`rightRatio, this`topRatio, this`middleRatio, this`bottomRatio
    {
      Ratios(leftRatio, centreRatio, rightRatio, topRatio, middleRatio, bottomRatio)
    }

    ghost predicate Valid()
      reads this`spacing, this`buckets, base
    {
      base.Valid() && base.layoutType == BOX_LAYOUT && 0 <= spacing <= 10 &&
      CellsValid(buckets, base.elements)
    }

    /** BoxLayout(name): nine empty cells, ratios 1:1:1 both ways, flow
        RIGHT, no spacing, no grid. */
    constructor (name: string)
      ensures Valid() && fresh(base) && base.name == name
      ensures !base.listCreated && base.elements == []
      ensures CurrentRatios() == DefaultRatios && flow == RIGHT && spacing == 0 && !showGrid
      ensures forall p: Position :: buckets[p] == []
    {
      base := new Layout.OfType(name, BOX_LAYOUT);
      leftRatio, centreRatio, rightRatio := 1, 1, 1;
      topRatio, middleRatio, bottomRatio := 1, 1, 1;
      flow := RIGHT;
      spacing := 0;
      showGrid := false;
      buckets := EmptyCells;
      EmptyCellsValid();
    }

    /** The Spacing setter: values below 0 become 0 and above 10 become 10. */
    method SetSpacing(value: int)
      requires Valid()
      modifies this`spacing
      ensures Valid()
      ensures 0 <= value <= 10 ==> spacing == value
      ensures value < 0 ==> spacing == 0
      ensures value > 10 ==> spacing == 10
    {
      if value < 0 {
        spacing := 0;
      } else if value > 10 {
        spacing := 10;
      } else {
        spacing := value;
      }
    }

    /** setHorizontalRatio(left, centre, right). */
    method SetHorizontalRatio(left: int, centre: int, right: int)
      modifies this`leftRatio, this`centreRatio, this`rightRatio
      ensures CurrentRatios() == old(CurrentRatios()).(left := left, centre := centre, right := right)
    {
      leftRatio, centreRatio, rightRatio := left, centre, right;
    }

    /** setVerticalRatio(top, middle, bottom). */
    method SetVerticalRatio(top: int, middle: int, bottom: int)
      modifies this`topRatio, this`middleRatio, this`bottomRatio
      ensures CurrentRatios() == old(CurrentRatios()).(top := top, middle := middle, bottom := bottom)
    {
      topRatio, middleRatio, bottomRatio := top, middle, bottom;
    }

    /** GetElementListForPosition: the cell's elements, each one of the layout's. */
    function ElementsAt(p: Position): (r: seq<Element>)
      requires Valid()
      reads this`spacing, this`buckets, base
      ensures Distinct(r)
      ensures forall i :: 0 <= i < |r| ==> r[i] in base.elements
    {
      buckets[p]
    }

    /** getPositionForElement: the first cell, in grid order, that holds `e`. */
    function PositionOf(e: Element): (r: Option<Position>)
      requires forall p: Position :: p in buckets
      reads this`buckets
      ensures r.Some? ==> e in buckets[r.value]
      ensures r.None? <==> forall p: Position :: e !in buckets[p]
    {
      if e in buckets[TOP_LEFT] then Some(TOP_LEFT)
      else if e in buckets[TOP_CENTRE] then Some(TOP_CENTRE)
      else if e in buckets[TOP_RIGHT] then Some(TOP_RIGHT)
      else if e in buckets[MIDDLE_LEFT] then Some(MIDDLE_LEFT)
      else if e in buckets[MIDDLE_CENTRE] then Some(MIDDLE_CENTRE)
      else if e in buckets[MIDDLE_RIGHT] then Some(MIDDLE_RIGHT)
      else if e in buckets[BOTTOM_LEFT] then Some(BOTTOM_LEFT)
      else if e in buckets[BOTTOM_CENTRE] then Some(BOTTOM_CENTRE)
      else if e in buckets[BOTTOM_RIGHT] then Some(BOTTOM_RIGHT)
      else InNoCell(buckets, e); None
    }

    /** AddElement(element, position): refused when the name is taken;
        otherwise the element goes last in its cell and last in the list. */
    method AddToPosition(e: Element, p: Position) returns (ok: bool)
      requires Valid()
      modifies this`buckets, base`listCreated, base`elements
      ensures Valid()
      ensures ok <==> !NameTaken(old(base.elements), e.name)
      ensures ok ==> base.elements == old(base.elements) + [e] && buckets == old(buckets)[p := old(buckets[p]) + [e]]
      ensures !ok ==> base.elements == old(base.elements) && buckets == old(buckets)
    {
      var existing := base.GetElement(e.name);
      if existing != null {
        return false;
      }
      assert e !in base.elements;
      CellsAdd(buckets, base.elements, p, e);
      buckets := buckets[p := buckets[p] + [e]];
      ok := base.AddElement(e);
    }

    /** generateSafeName: the name itself when it is free, otherwise the name
        followed by the least number k >= 1 that makes it free. */
    method GenerateSafeName(name: string) returns (r: string)
      requires Valid()
      ensures !NameTaken(base.elements, r)
      ensures !NameTaken(base.elements, name) ==> r == name
      ensures NameTaken(base.elements, name) ==>
                exists k :: k >= 1 && r == name + NatToString(k) &&
                  forall j :: 1 <= j < k ==> NameTaken(base.elements, name + NatToString(j))
    {
      var existing := base.GetElement(name);
      if existing == null {
        return name;
      }
      var count := 1;
      var safeName := name + NatToString(count);
      existing := base.GetElement(safeName);
      while existing != null
        invariant count >= 1 && safeName == name + NatToString(count)
        invariant existing == null <==> !NameTaken(base.elements, safeName)
        invariant forall j :: 1 <= j < count ==> NameTaken(base.elements, name + NatToString(j))
        decreases |base.elements| + 1 - count
      {
        TakenNumbersBound(base.elements, name, count);
        count := count + 1;
        safeName := name + NatToString(count);
        existing := base.GetElement(safeName);
      }
      r := safeName;
    }

    /** AddElement(text, position[, hAlign]): a text element labelled `text`
        and named by generateSafeName, aligned `hAlign` (Center when not
        given), added to the cell. The safe name is always free, so the
        element is always added. */
    method AddText(text: string, p: Position, hAlign: Alignment) returns (r: Element?)
      requires Valid()
      modifies this`buckets, base`listCreated, base`elements
      ensures Valid()
      ensures r != null && fresh(r)
      ensures r.kind == TEXT && r.text == text && r.hAlign == hAlign && r.location == Point(0, 0)
      ensures !NameTaken(old(base.elements), r.name)
      ensures !NameTaken(old(base.elements), text) ==> r.name == text
      ensures base.elements == old(base.elements) + [r]
      ensures buckets == old(buckets)[p := old(buckets[p]) + [r]]
    {
      var name := GenerateSafeName(text);
      var ele := new Element.Text(name, text, Point(0, 0), Size(0, 0));
      ele.hAlign := hAlign;
      var ok := AddToPosition(ele, p);
      if ok {
        r := ele;
      } else {
        r := null;
      }
    }

    /** RemoveElement(name): answers false when the list was never created;
        otherwise drops the first element with that name from the list and
        from the cell holding it, leaving no slot with that name. */
    method RemoveElement(name: string) returns (ok: bool)
      requires Valid()
      modifies this`buckets, base`elements
      ensures Valid()
      ensures ok <==> NameTaken(old(base.elements), name)
      ensures base.elements == WithoutFirst(old(base.elements), name)
      ensures forall p: Position :: buckets[p] == WithoutFirst(old(buckets[p]), name)
      ensures forall p: Position, i :: 0 <= i < |buckets[p]| ==> buckets[p][i].name != name
    {
      if !base.listCreated {
        NoNameNoSlot(buckets, base.elements, name);
        return false;
      }
      var i := 0;
      while i < |base.elements|
        invariant 0 <= i <= |base.elements|
        invariant forall j :: 0 <= j < i ==> base.elements[j].name != name
      {
        var e := base.elements[i];
        if e.name == name {
          assert FirstIndexOf(base.elements, name) == i;
          DropFound(e);
          return true;
        }
        i := i + 1;
      }
      NoNameNoSlot(buckets, base.elements, name);
      return false;
    }

    /** The found branch of RemoveElement: elementList.Remove(e), then
        boxDict[getPositionForElement(e)].Remove(e) when e has a cell. */
    method DropFound(e: Element)
      requires Valid() && e in base.elements
      modifies this`buckets, base`elements
      ensures Valid()
      ensures base.elements == WithoutFirst(old(base.elements), e.name)
      ensures forall p: Position :: buckets[p] == WithoutFirst(old(buckets[p]), e.name)
      ensures forall p: Position, i :: 0 <= i < |buckets[p]| ==> buckets[p][i].name != e.name
    {
      var target := PositionOf(e);
      ghost var es := base.elements;
      ghost var after := if target.Some? then buckets[target.value := Delete(buckets[target.value], e)] else buckets;
      RemovalPlan(buckets, es, e, target);
      assert CellsValid(after, Delete(es, e));
      base.elements := Delete(base.elements, e);
      if target.Some? {
        buckets := buckets[target.value := Delete(buckets[target.value], e)];
      }
      assert buckets == after;
    }

    /** Render(position): the cell's elements get their slots along the
        flow, in cell order; an empty cell is left alone. Only the location
        and size of the cell's elements change, so every other cell keeps
        its layout. */
    method RenderPosition(p: Position, width: int, height: int)
      requires Valid()
      modifies buckets[p]`location, buckets[p]`size
      ensures Valid() && unchanged(this, base)
      ensures PlacedIn(buckets[p], CellSlots(CurrentRatios(), flow, spacing, p, |buckets[p]|, width, height))
      ensures forall q :: q != p ==> BoundsOf(buckets[q]) == old(BoundsOf(buckets[q]))
    {
      assert forall q: Position, i :: q != p && 0 <= i < |buckets[q]| ==> buckets[q][i] !in buckets[p];
      var eList := buckets[p];
      if |eList| == 0 {
        return;
      }
      var rect := CellBounds(CurrentRatios(), p, width, height);
      var assignedLength := if flow == RIGHT then rect.width else rect.height;
      var elementLength := ElementLength(assignedLength, |eList|, spacing);
      var spacingLength := SpacingLength(assignedLength, |eList|, spacing);
      PlaceAlong(eList, rect, flow, elementLength, spacingLength);
    }

    /** One step of createGridLines: grid line k of `ends`, black and one
        pixel wide, added through the Layout's AddElement. */
    method AddGridLine(k: nat, ends: seq<(Point, Point)>, ghost es0: seq<Element>, ghost done: seq<Element>)
      returns (ok: bool, ghost line: Element)
      requires k < 8 && |ends| == 8
      requires base.Valid() && base.elements == AddAll(es0, done)
      modifies base`listCreated, base`elements
      ensures base.Valid() && base.elements == AddAll(es0, done + [line])
      ensures fresh(line) && IsGridLine(line, k, ends)
      ensures ok <==> !NameTaken(old(base.elements), GridNames[k])
    {
      var l := new Element.Line(GridNames[k], ends[k].0, ends[k].1, Black, 1.0);
      ok := base.AddElement(l);
      line := l;
      AddAllSnoc(es0, done, l);
    }

    /** createGridLines: adds the eight grid lines one by one, in the order
        of GridNames. Each addition of a name already in use is refused, and
        only the last addition's answer is returned. */
    method CreateGridLines(width: int, height: int) returns (result: bool, ghost lines: seq<Element>)
      requires Valid()
      modifies base`listCreated, base`elements
      ensures Valid()
      ensures IsGrid(lines, GridLineEnds(CurrentRatios(), width, height))
      ensures forall k :: 0 <= k < |lines| ==> fresh(lines[k])
      ensures base.elements == AddAll(old(base.elements), lines)
      ensures result <==> !NameTaken(old(base.elements), GridNames[7])
    {
      var ends := GridLineEnds(CurrentRatios(), width, height);
      result, lines := AddGridLines(ends);
      AddAllExtends(old(base.elements), lines);
      CellsGrow(buckets, old(base.elements), base.elements);
    }

    /** The eight additions of createGridLines, for the line ends `ends`. */
    method AddGridLines(ends: seq<(Point, Point)>) returns (result: bool, ghost lines: seq<Element>)
      requires |ends| == 8 && base.Valid()
      modifies base`listCreated, base`elements
      ensures base.Valid() && IsGrid(lines, ends)
      ensures forall k :: 0 <= k < |lines| ==> fresh(lines[k])
      ensures base.elements == AddAll(old(base.elements), lines)
      ensures result <==> !NameTaken(old(base.elements), GridNames[7])
    {
      ghost var es0 := base.elements;
      result := false;
      lines := [];
      for k := 0 to 8
        invariant base.Valid() && base.elements == AddAll(es0, lines) && |lines| == k
        invariant forall j :: 0 <= j < k ==> fresh(lines[j])
        invariant forall j :: 0 <= j < k ==> IsGridLine(lines[j], j, ends)
        invariant k == 8 ==> (result <==> !NameTaken(AddAll(es0, lines[..7]), GridNames[7]))
      {
        ghost var before := lines;
        ghost var line;
        result, line := AddGridLine(k, ends, es0, lines);
        lines := lines + [line];
        assert lines[..k] == before;
      }
      AddAllNames(es0, lines[..7], GridNames[7]);
    }

    /** removeGridLines: RemoveElement for each of the eight names, in order. */
    method RemoveGridLines()
      requires Valid()
      modifies this`buckets, base`elements
      ensures Valid()
      ensures base.elements == WithoutNamed(old(base.elements), GridNames)
      ensures buckets == CellsWithout(old(buckets), GridNames)
      ensures forall k :: 0 <= k < 8 ==> !NameTaken(base.elements, GridNames[k])
    {
      ghost var es0, cells0 := base.elements, buckets;
      forall p: Position ensures UniqueNames(cells0[p]) {
        CellNamesUnique(cells0, es0, p);
      }
      NoNamesRemoved(es0, cells0);
      for k := 0 to 8
        invariant Valid() && base.elements == WithoutNamed(es0, GridNames[..k])
        invariant buckets == CellsWithout(cells0, GridNames[..k])
      {
        ghost var before := buckets;
        var _ := RemoveElement(GridNames[k]);
        RemovalPrefixStep(es0, before, buckets, cells0, GridNames, k);
      }
      assert GridNames[..8] == GridNames;
      NamedGone(es0, GridNames);
    }

    /** Render(width, height): lays out all nine cells, then adds the grid
        lines when ShowGrid is set and removes them otherwise. */
    method Render(width: int, height: int) returns (ghost lines: seq<Element>)
      requires Valid()
      modifies this`buckets, base`listCreated, base`elements, base.elements`location, base.elements`size
      ensures Valid()
      ensures forall p: Position :: PlacedIn(old(buckets[p]), CellSlots(CurrentRatios(), flow, spacing, p, |old(buckets[p])|, width, height))
      ensures showGrid ==> buckets == old(buckets) && IsGrid(lines, GridLineEnds(CurrentRatios(), width, height)) &&
                           base.elements == AddAll(old(base.elements), lines)
      ensures showGrid && (forall k :: 0 <= k < 8 ==> NameTaken(old(base.elements), GridNames[k])) ==>
                base.elements == old(base.elements)
      ensures !showGrid ==> base.elements == WithoutNamed(old(base.elements), GridNames) &&
                            forall k :: 0 <= k < 8 ==> !NameTaken(base.elements, GridNames[k])
    {
      RenderCells(width, height);
      lines := UpdateGrid(width, height);
    }

    /** The second half of Render(width, height): createGridLines when
        ShowGrid is set, removeGridLines otherwise. The elements already
        laid out keep their bounds. */
    method UpdateGrid(width: int, height: int) returns (ghost lines: seq<Element>)
      requires Valid()
      modifies this`buckets, base`listCreated, base`elements
      ensures Valid()
      ensures forall p: Position :: BoundsOf(old(buckets[p])) == old(BoundsOf(buckets[p]))
      ensures showGrid ==> buckets == old(buckets) && IsGrid(lines, GridLineEnds(CurrentRatios(), width, height)) &&
                           base.elements == AddAll(old(base.elements), lines)
      ensures showGrid && (forall k :: 0 <= k < 8 ==> NameTaken(old(base.elements), GridNames[k])) ==>
                base.elements == old(base.elements)
      ensures !showGrid ==> base.elements == WithoutNamed(old(base.elements), GridNames) &&
                            forall k :: 0 <= k < 8 ==> !NameTaken(base.elements, GridNames[k])
    {
      lines := [];
      if showGrid {
        var _, l := CreateGridLines(width, height);
        lines := l;
        GridAddition(old(base.elements), lines);
      } else {
        RemoveGridLines();
      }
    }

    /** The nine Render(position) calls of Render(width, height), row by
        row and left to right within a row. */
    method RenderCells(width: int, height: int)
      requires Valid()
      modifies base.elements`location, base.elements`size
      ensures Valid() && unchanged(this, base)
      ensures forall p: Position :: PlacedIn(buckets[p], CellSlots(CurrentRatios(), flow, spacing, p, |buckets[p]|, width, height))
    {
      for k := 0 to 9
        invariant Valid() && unchanged(this, base)
        invariant forall q: Position :: GridIndex(q) < k ==>
                    PlacedIn(buckets[q], CellSlots(CurrentRatios(), flow, spacing, q, |buckets[q]|, width, height))
      {
        RenderPosition(GridPosition(k), width, height);
        forall q: Position | GridIndex(q) == k
          ensures q == GridPosition(k)
        {
          GridPositionOf(q);
        }
      }
    }

    /** RedrawGridLines: nothing unless ShowGrid is set. The list of drawn
        grid lines is never filled in, so its count is always 0 and the
        grid is always re-added; when the last addition is refused the grid
        is removed and ShowGrid switched off. */
    method RedrawGridLines(width: int, height: int) returns (r: bool, ghost lines: seq<Element>)
      requires Valid()
      modifies this`showGrid, this`buckets, base`listCreated, base`elements
      ensures Valid()
      ensures !old(showGrid) ==> !r && !showGrid && base.elements == old(base.elements) && buckets == old(buckets)
      ensures old(showGrid) ==> (r <==> !NameTaken(old(base.elements), GridNames[7]))
      ensures old(showGrid) ==> IsGrid(lines, GridLineEnds(old(CurrentRatios()), width, height))
      ensures old(showGrid) && r ==> showGrid && buckets == old(buckets) && base.elements == AddAll(old(base.elements), lines)
      ensures old(showGrid) && !r ==>
                !showGrid &&
                base.elements == WithoutNamed(AddAll(old(base.elements), lines), GridNames) &&
                forall k :: 0 <= k < 8 ==> !NameTaken(base.elements, GridNames[k])
    {
      lines := [];
      if !showGrid {
        return false, lines;
      }
      var result;
      result, lines := CreateGridLines(width, height);
      if !result {
        RemoveGridLines();
        showGrid := false;
        return false, lines;
      }
      r := true;
    }

    /** RemoveElement(Element): removal by the element's name. */
    method RemoveElementObject(e: Element) returns (ok: bool)
      requires Valid()
      modifies this`buckets, base`elements
      ensures Valid()
      ensures ok <==> NameTaken(old(base.elements), e.name)
      ensures base.elements == WithoutFirst(old(base.elements), e.name)
      ensures forall p: Position :: buckets[p] == WithoutFirst(old(buckets[p]), e.name)
    {
      ok := RemoveElement(e.name);
    }
  }
}

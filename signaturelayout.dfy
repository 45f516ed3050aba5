// SignatureLayout: three buttons (OK, Clear, Cancel) and, when a signer or a
// reason is given, a dotted signature line with the signer, the reason and
// the time around it. Render picks one of two fixed integer geometries.
module SignatureLayouts {
  import opened Wrappers
  import opened Geometry
  import opened Elements
  import opened Layouts

  // ----- the branch choice -----

  /** (float)width / (float)height < 2.5, taken exactly and cleared of
      the division; BottomBarIsAspectTest states the quotient form. */
  predicate UsesBottomBar(width: int, height: int)
  {
    if height > 0 then 2 * width < 5 * height
    else if height < 0 then 2 * width > 5 * height
    else width < 0
  }

  /** The quotient form of the test: with a zero height the quotient is
      +infinity, -infinity or NaN, of which only -infinity (a negative
      width) compares below 2.5. */
  lemma BottomBarIsAspectTest(width: int, height: int)
    ensures UsesBottomBar(width, height) <==>
              if height != 0 then (width as real) / (height as real) < 2.5 else width < 0
  {
    if height > 0 {
      PositiveHeight(width as real, height as real);
    } else if height < 0 {
      NegativeHeight(width as real, height as real);
    }
  }

  lemma PositiveHeight(w: real, h: real)
    requires h > 0.0
    ensures w / h < 2.5 <==> w < 2.5 * h
  {
    var q := w / h;
    assert q * h == w;
    LessScaled(q, 2.5, h);
  }

  lemma NegativeHeight(w: real, h: real)
    requires h < 0.0
    ensures w / h < 2.5 <==> w > 2.5 * h
  {
    var q := w / h;
    assert q * -h == -w;
    LessScaled(q, 2.5, -h);
  }

  /** Multiplying by a positive number keeps an order. */
  lemma LessScaled(q: real, c: real, h: real)
    requires h > 0.0
    ensures q < c <==> q * h < c * h
  {
    if q < c {
      PositiveProduct(c - q, h);
      assert (c - q) * h == c * h - q * h;
    } else {
      NonNegativeProduct(q - c, h);
      assert (q - c) * h == q * h - c * h;
    }
  }

  lemma PositiveProduct(a: real, b: real)
    requires a > 0.0 && b > 0.0
    ensures a * b > 0.0
  {
  }

  lemma NonNegativeProduct(a: real, b: real)
    requires a >= 0.0 && b > 0.0
    ensures a * b >= 0.0
  {
  }

  /** The STU-300's 396x100 screen gets side buttons; 640x480 and 800x480
      screens get the bottom bar. */
  lemma ScreenExamples()
    ensures !UsesBottomBar(396, 100) && !UsesBottomBar(300, 100)
    ensures UsesBottomBar(640, 480) && UsesBottomBar(800, 480) && UsesBottomBar(160, 100)
  {
  }

  // ----- the two geometries -----

  datatype ButtonBounds = ButtonBounds(ok: Rectangle, clear: Rectangle, cancel: Rectangle)

  /** Where a text goes and how it is aligned in its box. */
  datatype TextBox = TextBox(bounds: Rectangle, hAlign: Alignment, vAlign: Alignment)

  /** The dotted line's end points and the boxes of the reason, the signer
      and the time. */
  datatype Decoration = Decoration(lineStart: Point, lineEnd: Point, why: TextBox, who: TextBox, time: TextBox)

  /** The top of the bottom bar, H*8/9, and its height. */
  function BarTop(height: int): int { Quot(height * 8, 9) }
  function BarHeight(height: int): int { height - BarTop(height) }

  function BottomBarButtons(width: int, height: int): ButtonBounds
  {
    var w2 := Quot(width, 3);
    var w3 := Quot(width, 3);
    var w1 := width - w2 - w3;
    var y := BarTop(height);
    var h := height - y;
    ButtonBounds(Rectangle(0, y, w1, h), Rectangle(w1, y, w2, h), Rectangle(w1 + w2, y, w3, h))
  }

  /** The left edge of the side column, W*4/5. */
  function ColumnLeft(width: int): int { Quot(width * 4, 5) }

  function SideButtons(width: int, height: int): ButtonBounds
  {
    var x := ColumnLeft(width);
    var w := width - x;
    var h2 := Quot(height, 3);
    var h3 := Quot(height, 3);
    var h1 := height - h2 - h3;
    ButtonBounds(Rectangle(x, 0, w - 1, h1), Rectangle(x, h1, w - 1, h2), Rectangle(x, h1 + h2, w - 1, h3 - 1))
  }

  function ButtonsFor(width: int, height: int): ButtonBounds
  {
    if UsesBottomBar(width, height) then BottomBarButtons(width, height) else SideButtons(width, height)
  }

  function BottomBarDecoration(width: int, height: int): Decoration
  {
    var h := BarHeight(height);
    var lw := Quot(width * 5, 7);
    var lx := Quot(width - lw, 2);
    var ly := Quot(height * 6, 9);
    Decoration(Point(lx, ly), Point(lx + lw, ly),
               TextBox(Rectangle(0, 0, width, h), Near, Center),
               TextBox(Rectangle(lx, ly, lw, h), Near, Far),
               TextBox(Rectangle(lx, ly + h, lw, h), Near, Near))
  }

  function SideDecoration(width: int, height: int): Decoration
  {
    var x := ColumnLeft(width);
    var h2 := Quot(height, 3);
    var h3 := Quot(height, 3);
    var h1 := height - h2 - h3;
    var lw := Quot(x * 7, 8);
    var lx := Quot(x, 16);
    var ly := h1 + h2;
    Decoration(Point(lx, ly), Point(lx + lw, ly + 0),
               TextBox(Rectangle(0, 0, width, Quot(h1, 2)), Near, Center),
               TextBox(Rectangle(lx, ly, lw, Quot(h3, 2)), Far, Center),
               TextBox(Rectangle(lx, ly + Quot(h3, 2), lw, Quot(h3, 2)), Far, Near))
  }

  function DecorationFor(width: int, height: int): Decoration
  {
    if UsesBottomBar(width, height) then BottomBarDecoration(width, height) else SideDecoration(width, height)
  }

  /** The three buttons tile the bar [0, W) x [H*8/9, H) with no overlap:
      Clear and Cancel are W/3 wide and OK takes the remainder. */
  lemma BottomBarTiles(width: int, height: int)
    requires width >= 0 && height >= 0
    ensures var b := BottomBarButtons(width, height);
      var bar := Rectangle(0, BarTop(height), width, BarHeight(height));
      b.ok.x == 0 && b.ok.x + b.ok.width == b.clear.x && b.clear.x + b.clear.width == b.cancel.x &&
      b.cancel.x + b.cancel.width == width &&
      b.clear.width == b.cancel.width == width / 3 && 0 <= b.ok.width - b.clear.width <= 2 &&
      0 <= BarTop(height) <= height &&
      (forall p :: Contains(bar, p) <==> Contains(b.ok, p) || Contains(b.clear, p) || Contains(b.cancel, p)) &&
      (forall p :: !(Contains(b.ok, p) && Contains(b.clear, p)) && !(Contains(b.ok, p) && Contains(b.cancel, p)) &&
                   !(Contains(b.clear, p) && Contains(b.cancel, p)))
  {
    QuotNonNegative(width, 3);
    MulNonNegative(height, 8);
    QuotNonNegative(height * 8, 9);
    assert BarTop(height) <= height;
  }

  /** The three buttons stack in the column [W*4/5, W-1) x [0, H-1), one
      pixel short of the right and bottom edges, with no overlap. */
  lemma SideButtonsStack(width: int, height: int)
    requires width >= 0 && height >= 3
    ensures var b := SideButtons(width, height);
      var x := ColumnLeft(width);
      var column := Rectangle(x, 0, width - x - 1, height - 1);
      b.ok.x == b.clear.x == b.cancel.x == x && b.ok.width == b.clear.width == b.cancel.width == width - x - 1 &&
      b.ok.y == 0 && b.ok.y + b.ok.height == b.clear.y && b.clear.y + b.clear.height == b.cancel.y &&
      b.cancel.y + b.cancel.height == height - 1 &&
      b.clear.height == height / 3 && b.cancel.height == height / 3 - 1 && 0 <= x <= width &&
      (forall p :: Contains(column, p) <==> Contains(b.ok, p) || Contains(b.clear, p) || Contains(b.cancel, p)) &&
      (forall p :: !(Contains(b.ok, p) && Contains(b.clear, p)) && !(Contains(b.ok, p) && Contains(b.cancel, p)) &&
                   !(Contains(b.clear, p) && Contains(b.cancel, p)))
  {
    QuotNonNegative(height, 3);
    MulNonNegative(width, 4);
    QuotNonNegative(width * 4, 5);
    assert ColumnLeft(width) <= width;
  }

  /** Bottom bar: the signature line is centred (to within a pixel) above
      the bar, the signer's box hangs from it and the time sits right below
      the signer, both as wide as the line. */
  lemma BottomBarDecorationPlaced(width: int, height: int)
    requires width >= 0 && height >= 0
    ensures var d := BottomBarDecoration(width, height);
      var lx := d.lineStart.x;
      var lw := d.lineEnd.x - d.lineStart.x;
      d.lineStart.y == d.lineEnd.y && lw == width * 5 / 7 && 0 <= lx &&
      width - 1 <= lx + lw + lx <= width &&
      d.lineStart.y <= BarTop(height) &&
      d.who.bounds == Rectangle(lx, d.lineStart.y, lw, BarHeight(height)) &&
      d.time.bounds.x == lx && d.time.bounds.width == lw &&
      d.time.bounds.y == d.who.bounds.y + d.who.bounds.height &&
      d.why.bounds == Rectangle(0, 0, width, BarHeight(height))
  {
    MulNonNegative(width, 5);
    QuotNonNegative(width * 5, 7);
    assert width * 5 / 7 <= width;
    QuotNonNegative(width - width * 5 / 7, 2);
    MulNonNegative(height, 6);
    MulNonNegative(height, 8);
    QuotNonNegative(height * 6, 9);
    QuotNonNegative(height * 8, 9);
    MulMonotone(height, 6, 8);
    DivMonotone(height * 6, height * 8, 9);
  }

  /** Side buttons: the signature line lies left of the button column, at
      the top of the Cancel button, and the time sits right below the signer. */
  lemma SideDecorationPlaced(width: int, height: int)
    requires width >= 0 && height >= 0
    ensures var d := SideDecoration(width, height);
      var b := SideButtons(width, height);
      d.lineStart.y == d.lineEnd.y == b.cancel.y && 0 <= d.lineStart.x <= d.lineEnd.x <= ColumnLeft(width) &&
      d.who.bounds.x == d.time.bounds.x == d.lineStart.x &&
      d.who.bounds.width == d.time.bounds.width == d.lineEnd.x - d.lineStart.x &&
      d.who.bounds.y == d.lineStart.y && d.time.bounds.y == d.who.bounds.y + d.who.bounds.height
  {
    MulNonNegative(width, 4);
    QuotNonNegative(width * 4, 5);
    var x := ColumnLeft(width);
    MulNonNegative(x, 7);
    QuotNonNegative(x * 7, 8);
    QuotNonNegative(x, 16);
    assert x / 16 + x * 7 / 8 <= x;
  }

  lemma DivMonotone(a: int, b: int, d: int)
    requires 0 <= a <= b && d > 0
    ensures a / d <= b / d
  {
    if a / d > b / d {
      MulMonotone(d, b / d + 1, a / d);
    }
  }

  // ----- the fonts of the three texts -----

  /** Lines 197-199 as written: a font of half the box height for the time,
      the signer and the reason, in that order, whether or not the signer
      and the reason are shown. new Font refuses a size that is not
      positive. */
  function TextFonts(timeHeight: int, whoHeight: int, whyHeight: int): (r: Result<(Font, Font, Font)>)
    ensures r.Ok? <==> timeHeight > 0 && whoHeight > 0 && whyHeight > 0
    ensures r.Err? ==> r.error == InvalidArgument
    ensures r.Ok? ==> r.value == (Font(timeHeight as real / 2.0), Font(whoHeight as real / 2.0), Font(whyHeight as real / 2.0))
  {
    var time := MakeFont(timeHeight as real / 2.0);
    if time.Err? then Err(time.error) else
    var who := MakeFont(whoHeight as real / 2.0);
    if who.Err? then Err(who.error) else
    var why := MakeFont(whyHeight as real / 2.0);
    if why.Err? then Err(why.error) else
    Ok((time.value, who.value, why.value))
  }

  /** The evidently intended font step: a font only for the texts that are
      shown (the boxes of the others keep their default size (0,0)). */
  function ShownTextFonts(timeHeight: int, whoHeight: Option<int>, whyHeight: Option<int>): (r: Result<(Font, Option<Font>, Option<Font>)>)
  {
    var time := MakeFont(timeHeight as real / 2.0);
    if time.Err? then Err(time.error) else
    var who := if whoHeight.Some? then MakeFont(whoHeight.value as real / 2.0) else Ok(Font(0.0));
    if who.Err? then Err(who.error) else
    var why := if whyHeight.Some? then MakeFont(whyHeight.value as real / 2.0) else Ok(Font(0.0));
    if why.Err? then Err(why.error) else
    Ok((time.value, if whoHeight.Some? then Some(who.value) else None,
                    if whyHeight.Some? then Some(why.value) else None))
  }

  /** The bar's height is positive on every screen of positive height. */
  lemma BarHeightPositive(height: int)
    requires height > 0
    ensures BarHeight(height) > 0
  {
    QuotNonNegative(height * 8, 9);
    assert 9 * (height * 8 / 9) <= height * 8;
  }

  /** What Render(width, height) ends with, as written: in the bottom-bar
      branch with a signer or a reason, the font step of lines 197-199 runs
      on the time box and on the signer's and reason's boxes, of which an
      unshown one still has height 0. */
  function RenderOutcome(width: int, height: int, who: string, why: string): Outcome
  {
    if UsesBottomBar(width, height) && (who != "" || why != "") then
      var h := BarHeight(height);
      var fonts := TextFonts(h, if who != "" then h else 0, if why != "" then h else 0);
      if fonts.Err? then Failure(fonts.error) else Success
    else Success
  }

  /** Render fails exactly in the bottom-bar branch when the signer or the
      reason is missing but not both, or when the screen has no height. */
  lemma RenderOutcomeIff(width: int, height: int, who: string, why: string)
    ensures RenderOutcome(width, height, who, why).Failure? <==>
              UsesBottomBar(width, height) && (who != "" || why != "") &&
              (who == "" || why == "" || height <= 0)
    ensures RenderOutcome(width, height, who, why).Failure? ==>
              RenderOutcome(width, height, who, why).error == InvalidArgument
  {
    if height > 0 {
      BarHeightPositive(height);
    } else {
      QuotNonPositive(height * 8, 9);
    }
  }

  lemma QuotNonPositive(a: int, b: int)
    requires a <= 0 && b > 0
    ensures a - Quot(a, b) <= 0
  {
    QuotNonNegative(-a, b);
  }

  /** A 640x480 pad with a reason but no signer: the signer's font has size
      0 and Render stops before adding anything. */
  lemma LoneReasonFails()
    ensures RenderOutcome(640, 480, "", "Approval").Failure?
    ensures RenderOutcome(640, 480, "Alice", "").Failure?
    ensures RenderOutcome(640, 480, "Alice", "Approval").Success?
  {
    RenderOutcomeIff(640, 480, "", "Approval");
    RenderOutcomeIff(640, 480, "Alice", "");
    RenderOutcomeIff(640, 480, "Alice", "Approval");
    ScreenExamples();
  }

  /** With only the shown texts given a font, the bottom-bar branch succeeds
      on every screen of positive height, whatever is shown. */
  lemma ShownTextFontsSucceed(height: int, showWho: bool, showWhy: bool)
    requires height > 0
    ensures var h := BarHeight(height);
      var r := ShownTextFonts(h, if showWho then Some(h) else None, if showWhy then Some(h) else None);
      r.Ok? && r.value.0 == Font(h as real / 2.0) &&
      (r.value.1.Some? <==> showWho) && (r.value.2.Some? <==> showWhy)
  {
    BarHeightPositive(height);
  }

  // ----- the elements Render adds -----

  function Names(es: seq<Element>): (r: seq<string>)
    ensures |r| == |es| && forall i :: 0 <= i < |es| ==> r[i] == es[i].name
  {
    seq(|es|, i requires 0 <= i < |es| => es[i].name)
  }

  /** The names Render adds, in order: the buttons, then the line and the
      time, the signer and the reason when any of the latter two is given. */
  function RenderedNames(who: string, why: string): (r: seq<string>)
    ensures |r| == 3 + (if who != "" || why != "" then 2 + (if who != "" then 1 else 0) + (if why != "" then 1 else 0) else 0)
    ensures r[..3] == ["btnOk", "btnClear", "btnCancel"]
    ensures |r| == 3 <==> who == "" && why == ""
    ensures |r| > 3 ==> r[3] == "dottedLine" && r[4] == "txtTime"
    ensures who != "" ==> r[5] == "txtWho"
    ensures why != "" ==> r[|r| - 1] == "txtWhy"
  {
    ["btnOk", "btnClear", "btnCancel"] +
    (if who != "" || why != "" then
       ["dottedLine", "txtTime"] + (if who != "" then ["txtWho"] else []) + (if why != "" then ["txtWhy"] else [])
     else [])
  }

  /** Adding a second series of elements with the same names as the first
      changes nothing, so a second Render leaves the first one's elements. */
  lemma RerenderAddsNothing(es: seq<Element>, first: seq<Element>, second: seq<Element>)
    requires Names(first) == Names(second)
    ensures AddAll(AddAll(es, first), second) == AddAll(es, first)
  {
    var after := AddAll(es, first);
    forall i | 0 <= i < |second|
      ensures NameTaken(after, second[i].name)
    {
      assert first[i].name == second[i].name;
      AddAllNames(es, first, second[i].name);
    }
    AddAllOfTakenNames(after, second);
  }

  /** A button as Render leaves it: built by ElementButton(name, text) and
      placed; `armed` says whether Render got as far as lines 265-271. */
  ghost predicate ButtonState(b: Element, name: string, text: string, bounds: Rectangle, armed: bool, action: DefaultAction)
    reads b
  {
    b.name == name && b.kind == BUTTON && b.text == text && b.Bounds() == bounds &&
    b.click == DoNothing && b.fillBrush == Some(LightGray) &&
    b.action == (if armed then action else NoAction) &&
    b.font == Some(Font(if armed then 20.0 else DEFAULT_BUTTON_FONT_SIZE))
  }

  /** The font a shown text ends with: half its box height in the
      bottom-bar branch, the default otherwise. */
  function FontIn(box: TextBox, bottomBar: bool): Font
  {
    if bottomBar then Font(box.bounds.height as real / 2.0) else Font(DEFAULT_FONT_SIZE)
  }

  /** A text element named `name` showing `text` in `box`. */
  ghost predicate TextState(e: Element, name: string, text: string, box: TextBox, bottomBar: bool)
    reads e
  {
    e.name == name && e.kind == TEXT && e.text == text && e.Bounds() == box.bounds &&
    e.hAlign == box.hAlign && e.vAlign == box.vAlign && e.font == Some(FontIn(box, bottomBar))
  }

  /** The dotted line and the texts as Render leaves them. */
  ghost predicate DecorationState(line: Element, time: Element, whoText: Element, whyText: Element,
                                  d: Decoration, bottomBar: bool, timeText: string, who: string, why: string)
    reads line, time, whoText, whyText
  {
    line.name == "dottedLine" && line.kind == LINE && line.location == Point(0, 0) &&
    line.lineStart == d.lineStart && line.lineEnd == d.lineEnd &&
    line.linePen == Some(Pen(Black, 1.0, Dot)) &&
    TextState(time, "txtTime", timeText, d.time, bottomBar) &&
    (who != "" ==> TextState(whoText, "txtWho", who, d.who, bottomBar)) &&
    (why != "" ==> TextState(whyText, "txtWhy", why, d.why, bottomBar))
  }

  /** The font step's outcome for given boxes: the boxes of an unshown
      signer or reason keep height 0. */
  function DecorationOutcome(d: Decoration, bottomBar: bool, who: string, why: string): Outcome
  {
    if bottomBar && (who != "" || why != "") then
      var fonts := TextFonts(d.time.bounds.height, if who != "" then d.who.bounds.height else 0,
                             if why != "" then d.why.bounds.height else 0);
      if fonts.Err? then Failure(fonts.error) else Success
    else Success
  }

  /** The elements Render offers to AddElement, in order. */
  function Rendered(buttons: seq<Element>, line: Element, time: Element, whoText: Element, whyText: Element,
                    who: string, why: string): seq<Element>
  {
    if who == "" && why == "" then buttons
    else
      var s := buttons + [line] + [time];
      var s' := if who != "" then s + [whoText] else s;
      if why != "" then s' + [whyText] else s'
  }

  /** The offered list has the rendered names, starts with the buttons and
      holds nothing else but the line and the texts. */
  lemma RenderedShape(buttons: seq<Element>, line: Element, time: Element, whoText: Element, whyText: Element,
                      who: string, why: string)
    requires |buttons| == 3
    ensures var r := Rendered(buttons, line, time, whoText, whyText, who, why);
      (Names(buttons) == ["btnOk", "btnClear", "btnCancel"] && line.name == "dottedLine" &&
       time.name == "txtTime" && whoText.name == "txtWho" && whyText.name == "txtWhy" ==>
         Names(r) == RenderedNames(who, why)) &&
      |r| == |RenderedNames(who, why)| && r[..3] == buttons &&
      (forall e :: e in r ==> e in buttons || e == line || e == time || e == whoText || e == whyText) &&
      (who != "" || why != "" ==>
         r[3] == line && r[4] == time && (who != "" ==> r[5] == whoText) && (why != "" ==> r[|r| - 1] == whyText))
  {
    var r := Rendered(buttons, line, time, whoText, whyText, who, why);
    var n := RenderedNames(who, why);
    if Names(buttons) == ["btnOk", "btnClear", "btnCancel"] && line.name == "dottedLine" &&
       time.name == "txtTime" && whoText.name == "txtWho" && whyText.name == "txtWhy" {
      forall i | 0 <= i < |r|
        ensures r[i].name == n[i]
      {
        if i < 3 {
          assert r[i] == buttons[i];
          assert Names(buttons)[i] == n[i];
        }
      }
    }
  }

  /** ElementButton(name, text) placed in `bounds`. */
  method NewButton(name: string, text: string, bounds: Rectangle) returns (b: Element)
    ensures fresh(b) && ButtonState(b, name, text, bounds, false, NoAction)
  {
    b := new Element.Button(name, text, Point(bounds.x, bounds.y), Size(bounds.width, bounds.height), Plain);
  }

  /** Lines 265-271 for one button. */
  method Arm(b: Element, ghost name: string, ghost text: string, ghost bounds: Rectangle, action: DefaultAction)
    requires ButtonState(b, name, text, bounds, false, NoAction)
    modifies b`action, b`font
    ensures ButtonState(b, name, text, bounds, true, action)
  {
    b.action := action;
    var _ := b.SetFontSize(20.0);
  }

  /** Moves a text into its box and aligns it. */
  method Place(e: Element, box: TextBox)
    modifies e`location, e`size, e`hAlign, e`vAlign
    ensures e.Bounds() == box.bounds && e.hAlign == box.hAlign && e.vAlign == box.vAlign
  {
    e.location := Point(box.bounds.x, box.bounds.y);
    e.size := Size(box.bounds.width, box.bounds.height);
    e.hAlign, e.vAlign := box.hAlign, box.vAlign;
  }

  /** Lines 132-137: the dotted line and the three texts, unplaced. */
  method NewTexts(timeText: string, who: string, why: string)
    returns (line: Element, time: Element, whoText: Element, whyText: Element)
    ensures fresh(line) && fresh(time) && fresh(whoText) && fresh(whyText)
    ensures line.name == "dottedLine" && line.kind == LINE && line.location == Point(0, 0)
    ensures line.linePen == Some(Pen(Black, 1.0, Dot))
    ensures time.name == "txtTime" && time.kind == TEXT && time.text == timeText
    ensures whoText.name == "txtWho" && whoText.kind == TEXT && whoText.text == who && whoText.size == Size(0, 0)
    ensures whyText.name == "txtWhy" && whyText.kind == TEXT && whyText.text == why && whyText.size == Size(0, 0)
    ensures time.font == whoText.font == whyText.font == Some(Font(DEFAULT_FONT_SIZE))
  {
    line := new Element.Line("dottedLine", Point(0, 0), Point(0, 0), Black, 1.0);
    line.linePen := Some(Pen(Black, 1.0, Dot));
    whoText := new Element.Text("txtWho", who, Point(0, 0), Size(0, 0));
    whyText := new Element.Text("txtWhy", why, Point(0, 0), Size(0, 0));
    time := new Element.Text("txtTime", timeText, Point(0, 0), Size(0, 0));
  }

  /** The half of either branch that places the line and the texts: the
      reason and the signer only when given, the time always. */
  method PlaceDecoration(line: Element, time: Element, whoText: Element, whyText: Element,
                         d: Decoration, who: string, why: string)
    requires line != time && line != whoText && line != whyText && time != whoText && time != whyText && whoText != whyText
    modifies line`lineStart, line`lineEnd
    modifies time`location, time`size, time`hAlign, time`vAlign
    modifies whoText`location, whoText`size, whoText`hAlign, whoText`vAlign
    modifies whyText`location, whyText`size, whyText`hAlign, whyText`vAlign
    ensures line.lineStart == d.lineStart && line.lineEnd == d.lineEnd
    ensures time.Bounds() == d.time.bounds && time.hAlign == d.time.hAlign && time.vAlign == d.time.vAlign
    ensures who != "" ==> whoText.Bounds() == d.who.bounds && whoText.hAlign == d.who.hAlign && whoText.vAlign == d.who.vAlign
    ensures who == "" ==> whoText.size == old(whoText.size)
    ensures why != "" ==> whyText.Bounds() == d.why.bounds && whyText.hAlign == d.why.hAlign && whyText.vAlign == d.why.vAlign
    ensures why == "" ==> whyText.size == old(whyText.size)
  {
    line.lineStart, line.lineEnd := d.lineStart, d.lineEnd;
    if why != "" {
      Place(whyText, d.why);
    }
    if who != "" {
      Place(whoText, d.who);
    }
    Place(time, d.time);
  }

  /** Lines 197-199: the fonts of the three texts from their heights. On
      failure nothing Render goes on to read has changed. */
  method SetTextFonts(time: Element, whoText: Element, whyText: Element) returns (r: Outcome)
    modifies time`font, whoText`font, whyText`font
    ensures var fonts := TextFonts(old(time.size.height), old(whoText.size.height), old(whyText.size.height));
      r == (if fonts.Err? then Failure(fonts.error) else Success) &&
      (fonts.Ok? ==> time.font == Some(fonts.value.0) && whoText.font == Some(fonts.value.1) &&
                     whyText.font == Some(fonts.value.2))
  {
    var fonts := TextFonts(time.size.height, whoText.size.height, whyText.size.height);
    if fonts.Err? {
      return Failure(fonts.error);
    }
    time.font := Some(fonts.value.0);
    whoText.font := Some(fonts.value.1);
    whyText.font := Some(fonts.value.2);
    r := Success;
  }

  /** Lines 132-137 and the text half of each branch: the dotted line and
      the three texts, placed when a signer or a reason is given, and the
      font step of the bottom-bar branch, which may fail. */
  method NewDecoration(d: Decoration, bottomBar: bool, timeText: string, who: string, why: string)
    returns (r: Outcome, line: Element, time: Element, whoText: Element, whyText: Element)
    ensures fresh(line) && fresh(time) && fresh(whoText) && fresh(whyText)
    ensures r == DecorationOutcome(d, bottomBar, who, why)
    ensures r.Success? && (who != "" || why != "") ==>
              DecorationState(line, time, whoText, whyText, d, bottomBar, timeText, who, why)
    ensures line.name == "dottedLine" && time.name == "txtTime" && whoText.name == "txtWho" && whyText.name == "txtWhy"
    ensures line.kind == LINE && time.kind == TEXT && whoText.kind == TEXT && whyText.kind == TEXT
  {
    line, time, whoText, whyText := NewTexts(timeText, who, why);
    r := Success;
    if who != "" || why != "" {
      PlaceDecoration(line, time, whoText, whyText, d, who, why);
      if bottomBar {
        r := SetTextFonts(time, whoText, whyText);
      }
    }
  }

  class SignatureLayout {
    /** The Layout part: name, type SIGNATURE_LAYOUT and the element list. */
    const base: Layout
    var btnOk: Element?
    var btnCancel: Element?
    var btnClear: Element?
    var okText: string
    var clearText: string
    var cancelText: string
    var who: string
    var why: string

    ghost predicate Valid()
      reads this, base
    {
      base.Valid() && base.layoutType == SIGNATURE_LAYOUT
    }

    /** The four constructors: (name), (name, who, why), (name, okText,
        clearText, cancelText) and all six. An omitted button text is the
        localised resource string for that button and an omitted signer or
        reason is "". */
    constructor (name: string, okText: string, clearText: string, cancelText: string, who: string, why: string)
      ensures Valid() && fresh(base) && base.name == name
      ensures !base.listCreated && base.elements == []
      ensures btnOk == null && btnClear == null && btnCancel == null
      ensures this.okText == okText && this.clearText == clearText && this.cancelText == cancelText
      ensures this.who == who && this.why == why
    {
      base := new Layout.OfType(name, SIGNATURE_LAYOUT);
      btnOk, btnCancel, btnClear := null, null, null;
      this.okText, this.clearText, this.cancelText := okText, clearText, cancelText;
      this.who, this.why := who, why;
    }

    /** Render(width, height); `timeText` is the short time and long date
        shown by the time text. Three new buttons are always built and
        placed; on success they get their actions and font size 20 and the
        buttons, then the dotted line and the texts that are shown, are
        offered to AddElement in the order Rendered gives. */
    method Render(width: int, height: int, timeText: string)
      returns (r: Outcome, ghost line: Element, ghost time: Element, ghost whoText: Element, ghost whyText: Element)
      requires Valid()
      modifies this`btnOk, this`btnClear, this`btnCancel, base`listCreated, base`elements
      ensures Valid()
      ensures r == RenderOutcome(width, height, who, why)
      ensures btnOk != null && btnClear != null && btnCancel != null
      ensures fresh(btnOk) && fresh(btnClear) && fresh(btnCancel)
      ensures fresh(line) && fresh(time) && fresh(whoText) && fresh(whyText)
      ensures ButtonState(btnOk, "btnOk", okText, ButtonsFor(width, height).ok, r.Success?, Done)
      ensures ButtonState(btnClear, "btnClear", clearText, ButtonsFor(width, height).clear, r.Success?, Refresh)
      ensures ButtonState(btnCancel, "btnCancel", cancelText, ButtonsFor(width, height).cancel, r.Success?, Cancel)
      ensures line.name == "dottedLine" && time.name == "txtTime" && whoText.name == "txtWho" && whyText.name == "txtWhy"
      ensures r.Failure? ==> base.elements == old(base.elements) && base.listCreated == old(base.listCreated)
      ensures r.Success? ==>
                base.elements == AddAll(old(base.elements), Rendered([btnOk, btnClear, btnCancel], line, time, whoText, whyText, who, why))
      ensures r.Success? && (who != "" || why != "") ==>
                DecorationState(line, time, whoText, whyText, DecorationFor(width, height), UsesBottomBar(width, height), timeText, who, why)
    {
      r, line, time, whoText, whyText :=
        RenderWith(ButtonsFor(width, height), DecorationFor(width, height), UsesBottomBar(width, height), timeText);
    }

    /** Render with the geometry of the chosen branch worked out. */
    method RenderWith(b: ButtonBounds, d: Decoration, bottomBar: bool, timeText: string)
      returns (r: Outcome, ghost line: Element, ghost time: Element, ghost whoText: Element, ghost whyText: Element)
      requires Valid()
      modifies this`btnOk, this`btnClear, this`btnCancel, base`listCreated, base`elements
      ensures Valid()
      ensures r == DecorationOutcome(d, bottomBar, who, why)
      ensures btnOk != null && btnClear != null && btnCancel != null
      ensures fresh(btnOk) && fresh(btnClear) && fresh(btnCancel)
      ensures fresh(line) && fresh(time) && fresh(whoText) && fresh(whyText)
      ensures ButtonState(btnOk, "btnOk", okText, b.ok, r.Success?, Done)
      ensures ButtonState(btnClear, "btnClear", clearText, b.clear, r.Success?, Refresh)
      ensures ButtonState(btnCancel, "btnCancel", cancelText, b.cancel, r.Success?, Cancel)
      ensures line.name == "dottedLine" && time.name == "txtTime" && whoText.name == "txtWho" && whyText.name == "txtWhy"
      ensures r.Failure? ==> base.elements == old(base.elements) && base.listCreated == old(base.listCreated)
      ensures r.Success? ==>
                base.elements == AddAll(old(base.elements), Rendered([btnOk, btnClear, btnCancel], line, time, whoText, whyText, who, why))
      ensures r.Success? && (who != "" || why != "") ==>
                DecorationState(line, time, whoText, whyText, d, bottomBar, timeText, who, why)
    {
      var ok, clear, cancel, l, t, wt, yt;
      r, ok, clear, cancel, l, t, wt, yt := Build(b, d, bottomBar, timeText);
      line, time, whoText, whyText := l, t, wt, yt;
      // The source assigns the fields first; nothing reads them in between.
      btnOk, btnCancel, btnClear := ok, cancel, clear;
    }

    /** The elements of RenderWith, built, placed and, on success, armed
        and offered to AddElement. */
    method Build(b: ButtonBounds, d: Decoration, bottomBar: bool, timeText: string)
      returns (r: Outcome, ok: Element, clear: Element, cancel: Element,
               line: Element, time: Element, whoText: Element, whyText: Element)
      requires Valid()
      modifies base`listCreated, base`elements
      ensures Valid()
      ensures r == DecorationOutcome(d, bottomBar, who, why)
      ensures fresh(ok) && fresh(clear) && fresh(cancel)
      ensures fresh(line) && fresh(time) && fresh(whoText) && fresh(whyText)
      ensures ButtonState(ok, "btnOk", okText, b.ok, r.Success?, Done)
      ensures ButtonState(clear, "btnClear", clearText, b.clear, r.Success?, Refresh)
      ensures ButtonState(cancel, "btnCancel", cancelText, b.cancel, r.Success?, Cancel)
      ensures line.name == "dottedLine" && time.name == "txtTime" && whoText.name == "txtWho" && whyText.name == "txtWhy"
      ensures r.Failure? ==> base.elements == old(base.elements) && base.listCreated == old(base.listCreated)
      ensures r.Success? ==>
                base.elements == AddAll(old(base.elements), Rendered([ok, clear, cancel], line, time, whoText, whyText, who, why))
      ensures r.Success? && (who != "" || why != "") ==>
                DecorationState(line, time, whoText, whyText, d, bottomBar, timeText, who, why)
    {
      ok, clear, cancel := NewButtons(b);
      r, line, time, whoText, whyText := NewDecoration(d, bottomBar, timeText, who, why);
      if r.Success? {
        Finish(ok, clear, cancel, line, time, whoText, whyText, b, d, bottomBar, timeText);
      }
    }

    /** What follows a successful font step: lines 265-283. */
    method Finish(ok: Element, clear: Element, cancel: Element, line: Element, time: Element,
                  whoText: Element, whyText: Element, b: ButtonBounds,
                  ghost d: Decoration, ghost bottomBar: bool, ghost timeText: string)
      requires Valid()
      requires ButtonState(ok, "btnOk", okText, b.ok, false, NoAction)
      requires ButtonState(clear, "btnClear", clearText, b.clear, false, NoAction)
      requires ButtonState(cancel, "btnCancel", cancelText, b.cancel, false, NoAction)
      requires who != "" || why != "" ==> DecorationState(line, time, whoText, whyText, d, bottomBar, timeText, who, why)
      modifies ok`action, ok`font, clear`action, clear`font, cancel`action, cancel`font
      modifies base`listCreated, base`elements
      ensures Valid()
      ensures who != "" || why != "" ==> DecorationState(line, time, whoText, whyText, d, bottomBar, timeText, who, why)
      ensures ButtonState(ok, "btnOk", okText, b.ok, true, Done)
      ensures ButtonState(clear, "btnClear", clearText, b.clear, true, Refresh)
      ensures ButtonState(cancel, "btnCancel", cancelText, b.cancel, true, Cancel)
      ensures base.elements == AddAll(old(base.elements), Rendered([ok, clear, cancel], line, time, whoText, whyText, who, why))
    {
      ArmAll(ok, clear, cancel, b);
      AddRendered(ok, clear, cancel, line, time, whoText, whyText);
    }

    /** Lines 128-130 with the button half of either branch. */
    method NewButtons(b: ButtonBounds) returns (ok: Element, clear: Element, cancel: Element)
      ensures fresh(ok) && fresh(clear) && fresh(cancel)
      ensures ButtonState(ok, "btnOk", okText, b.ok, false, NoAction)
      ensures ButtonState(clear, "btnClear", clearText, b.clear, false, NoAction)
      ensures ButtonState(cancel, "btnCancel", cancelText, b.cancel, false, NoAction)
    {
      ok := NewButton("btnOk", okText, b.ok);
      cancel := NewButton("btnCancel", cancelText, b.cancel);
      clear := NewButton("btnClear", clearText, b.clear);
    }

    /** Lines 265-271: the actions Done, Refresh and Cancel and font size 20. */
    method ArmAll(ok: Element, clear: Element, cancel: Element, b: ButtonBounds)
      requires ButtonState(ok, "btnOk", okText, b.ok, false, NoAction)
      requires ButtonState(clear, "btnClear", clearText, b.clear, false, NoAction)
      requires ButtonState(cancel, "btnCancel", cancelText, b.cancel, false, NoAction)
      modifies ok`action, ok`font, clear`action, clear`font, cancel`action, cancel`font
      ensures ButtonState(ok, "btnOk", okText, b.ok, true, Done)
      ensures ButtonState(clear, "btnClear", clearText, b.clear, true, Refresh)
      ensures ButtonState(cancel, "btnCancel", cancelText, b.cancel, true, Cancel)
    {
      Arm(ok, "btnOk", okText, b.ok, Done);
      Arm(clear, "btnClear", clearText, b.clear, Refresh);
      Arm(cancel, "btnCancel", cancelText, b.cancel, Cancel);
    }

    /** Lines 273-283: AddElement for the buttons and, when a signer or a
        reason is given, for the line, the time, the signer and the reason. */
    method AddRendered(ok: Element, clear: Element, cancel: Element, line: Element, time: Element,
                       whoText: Element, whyText: Element)
      requires Valid()
      modifies base`listCreated, base`elements
      ensures Valid()
      ensures base.elements == AddAll(old(base.elements), Rendered([ok, clear, cancel], line, time, whoText, whyText, who, why))
    {
      ghost var es0 := base.elements;
      ghost var added := Offer(ok, es0, []);
      added := Offer(clear, es0, added);
      added := Offer(cancel, es0, added);
      assert added == [ok, clear, cancel];
      if who != "" || why != "" {
        added := Offer(line, es0, added);
        added := Offer(time, es0, added);
        if who != "" {
          added := Offer(whoText, es0, added);
        }
        if why != "" {
          added := Offer(whyText, es0, added);
        }
      }
      assert added == Rendered([ok, clear, cancel], line, time, whoText, whyText, who, why);
    }

    /** AddElement(e), its result aside, as one more step of a series of
        additions. */
    method Offer(e: Element, ghost es0: seq<Element>, ghost sofar: seq<Element>) returns (ghost next: seq<Element>)
      requires Valid() && base.elements == AddAll(es0, sofar)
      modifies base`listCreated, base`elements
      ensures Valid() && next == sofar + [e]
      ensures base.elements == AddAll(es0, next)
    {
      var _ := base.AddElement(e);
      next := sofar + [e];
      AddAllSnoc(es0, sofar, e);
    }
  }
}

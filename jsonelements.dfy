// The element records of JSONSerializer (InterfaceElement and its four
// subclasses) and the mappings between them and elements. The JSON text
// the records are written to is left abstract: a record read back from the
// text is the record that was written, with each member that its class
// does not have, or that the text leaves out, read as null, 0 or false.
module JsonElements {
  import opened Wrappers
  import opened Geometry
  import opened Elements
  import opened JsonVocabulary

  /** The class of a record: InterfaceElement or one of its subclasses. A
      record read from a list keeps the class it was written as. */
  datatype RecordClass = BaseRecord | TextRecord | ButtonRecord | LineRecord | ImageRecord

  /** The colour arrays a freshly built record holds: its colour members are
      initialised with the shared DefaultBlackColor and LightGrayColor
      arrays themselves, not with copies. */
  datatype ColorRef = SharedBlack | SharedGray

  /** The members of all element record classes; `C` is what a colour
      member holds: a shared array for a built record, the three numbers
      for a record read from text. */
  datatype ElementRecord<C> = ElementRecord(
    cls: RecordClass,
    elementType: Option<string>, name: Option<string>,
    x: int, y: int, width: int, height: int,
    text: Option<string>,
    textColor: Option<C>, fillColor: Option<C>, borderColor: Option<C>,
    align: Option<string>, vAlign: Option<string>,
    fontSize: int, autoResize: bool,
    nextScreen: Option<string>, action: Option<string>, pictureFilename: Option<string>,
    lineColor: Option<C>, x1: int, y1: int, x2: int, y2: int)

  /** A record of class `cls` with every member null, 0 or false. */
  function Blank<C>(cls: RecordClass): ElementRecord<C>
  {
    ElementRecord(cls, None, None, 0, 0, 0, 0, None, None, None, None, None, None, 0, false,
                  None, None, None, None, 0, 0, 0, 0)
  }

  /** InterfaceElement.DefaultFontSize. */
  const DEFAULT_FONT_SIZE_MEMBER: int := 40

  // ----- the shared colour arrays -----

  predicate IsRgb(c: seq<int>)
  {
    |c| == 3 && 0 <= c[0] < 256 && 0 <= c[1] < 256 && 0 <= c[2] < 256
  }

  function Channels(c: Color): (r: seq<int>)
    ensures IsRgb(r)
  {
    [c.r, c.g, c.b]
  }

  /** Color.FromArgb(c[0], c[1], c[2]): the indexing fails first on a short
      array, then FromArgb refuses a number outside 0..255. */
  function Rgb(c: seq<int>): (r: Result<Color>)
    ensures IsRgb(c) ==> r == Ok(Color(c[0], c[1], c[2]))
  {
    if |c| < 3 then Err(IndexOutOfRange)
    else if 0 <= c[0] < 256 && 0 <= c[1] < 256 && 0 <= c[2] < 256 then Ok(Color(c[0], c[1], c[2]))
    else Err(InvalidArgument)
  }

  /** A colour's numbers read back as the colour; a short array or a number
      out of range is refused. */
  lemma RgbChannels(c: Color, a: seq<int>)
    ensures Rgb(Channels(c)) == Ok(c)
    ensures |a| < 3 ==> Rgb(a) == Err(IndexOutOfRange)
    ensures |a| >= 3 && !(0 <= a[0] < 256 && 0 <= a[1] < 256 && 0 <= a[2] < 256) ==> Rgb(a) == Err(InvalidArgument)
  {
  }

  /** The static DefaultBlackColor and LightGrayColor arrays, which the
      serialisers write colours into. */
  class Palette {
    const black: array<int>
    const lightGray: array<int>

    ghost predicate Valid()
      reads black, lightGray
    {
      black.Length == 3 && lightGray.Length == 3 && black != lightGray &&
      IsRgb(black[..]) && IsRgb(lightGray[..])
    }

    /** The initial contents {0,0,0} and {211,211,211}. */
    constructor ()
      ensures Valid() && fresh(black) && fresh(lightGray)
      ensures black[..] == Channels(Black) && lightGray[..] == Channels(LightGray)
    {
      black := new int[3] [0, 0, 0];
      lightGray := new int[3] [211, 211, 211];
    }
  }

  /** Writes the three channels of `c` into `a`. */
  method WriteColor(a: array<int>, c: Color)
    requires a.Length == 3
    modifies a
    ensures a[..] == Channels(c)
  {
    a[0] := c.r;
    a[1] := c.g;
    a[2] := c.b;
  }

  /** What a colour member holds when the record is written: the current
      contents of the shared array it refers to. */
  function Resolved(c: Option<ColorRef>, black: seq<int>, gray: seq<int>): Option<seq<int>>
  {
    match c
    case None => None
    case Some(SharedBlack) => Some(black)
    case Some(SharedGray) => Some(gray)
  }

  /** The record as the text holds it once written, with the shared arrays'
      contents `black` and `gray` at the time of writing. */
  function Written(r: ElementRecord<ColorRef>, black: seq<int>, gray: seq<int>): (w: ElementRecord<seq<int>>)
    ensures w.name == r.name && w.elementType == r.elementType && w.cls == r.cls
  {
    ElementRecord(r.cls, r.elementType, r.name, r.x, r.y, r.width, r.height, r.text,
                  Resolved(r.textColor, black, gray), Resolved(r.fillColor, black, gray),
                  Resolved(r.borderColor, black, gray), r.align, r.vAlign, r.fontSize, r.autoResize,
                  r.nextScreen, r.action, r.pictureFilename, Resolved(r.lineColor, black, gray),
                  r.x1, r.y1, r.x2, r.y2)
  }

  // ----- elements as values -----

  /** The state of an element object. */
  datatype ElementView = ElementView(
    kind: ElementType, name: string, location: Point, size: Size,
    text: string, textBrush: Option<Color>, font: Option<Font>, autoResizeText: bool,
    hAlign: Alignment, vAlign: Alignment, fillBrush: Option<Color>, borderPen: Option<Pen>,
    click: Handler, action: DefaultAction, nextScreenName: string, isButton: bool,
    picture: Picture?, linePen: Option<Pen>, lineStart: Point, lineEnd: Point)

  function ViewOf(e: Element): ElementView
    reads e
  {
    ElementView(e.kind, e.name, e.location, e.size, e.text, e.textBrush, e.font, e.autoResizeText,
                e.hAlign, e.vAlign, e.fillBrush, e.borderPen, e.click, e.action, e.nextScreenName,
                e.isButton, e.picture, e.linePen, e.lineStart, e.lineEnd)
  }

  /** `e` is in the state `v`, field by field. */
  predicate Shows(e: Element, v: ElementView)
    reads e
  {
    e.kind == v.kind && e.name == v.name && e.location == v.location && e.size == v.size &&
    e.text == v.text && e.textBrush == v.textBrush && e.font == v.font && e.autoResizeText == v.autoResizeText &&
    e.hAlign == v.hAlign && e.vAlign == v.vAlign && e.fillBrush == v.fillBrush && e.borderPen == v.borderPen &&
    e.click == v.click && e.action == v.action && e.nextScreenName == v.nextScreenName && e.isButton == v.isButton &&
    e.picture == v.picture && e.linePen == v.linePen && e.lineStart == v.lineStart && e.lineEnd == v.lineEnd
  }

  /** new ElementText(name, text). */
  function NewText(name: string, text: string): ElementView
  {
    ElementView(TEXT, name, Point(0, 0), Size(0, 0), text, Some(Black), Some(Font(DEFAULT_FONT_SIZE)), true,
                Center, Center, None, None, NoHandler, NoAction, "", false, null, None, Point(0, 0), Point(0, 0))
  }

  /** new ElementButton(name, text). */
  function NewButton(name: string, text: string): ElementView
  {
    ElementView(BUTTON, name, Point(0, 0), Size(0, 0), text, Some(Black), Some(Font(DEFAULT_BUTTON_FONT_SIZE)), true,
                Center, Center, Some(LightGray), Some(PenOf(Black)), DoNothing, NoAction, "", false, null, None,
                Point(0, 0), Point(0, 0))
  }

  /** new ElementLine(name). */
  function NewLine(name: string): ElementView
  {
    ElementView(LINE, name, Point(0, 0), Size(0, 0), "", None, None, false, Center, Center, None, None,
                NoHandler, NoAction, "", false, null, Some(PenOf(Black)), Point(0, 0), Point(0, 0))
  }

  /** new ElementImage(name, filename), the file loaded as `picture`. */
  function NewImage(name: string, picture: Picture): ElementView
  {
    ElementView(IMAGE, name, Point(0, 0), Size(picture.width, picture.height), "", None, None, false,
                Center, Center, None, None, NoHandler, NoAction, "", false, picture, None, Point(0, 0), Point(0, 0))
  }

  /** The result of a Deserialize method matches its specification: the
      same fault, null, or an element in the specified state. */
  predicate Delivers(r: Result<Element?>, spec: Result<Option<ElementView>>)
    reads if r.Ok? && r.value != null then {r.value} else {}
  {
    match spec
    case Err(f) => r == Err(f)
    case Ok(None) => r == Ok(null)
    case Ok(Some(v)) => r.Ok? && r.value != null && Shows(r.value, v)
  }

  // ----- members as read -----

  /** A null or empty Name: every element Deserialize returns null. */
  predicate Unnamed<C>(rec: ElementRecord<C>)
  {
    rec.name.None? || rec.name.value == ""
  }

  /** `if (Text == null) Text = "";`. */
  function TextOrEmpty(t: Option<string>): string
  {
    if t.None? then "" else t.value
  }

  /** A next-screen name is taken only when it is neither null nor empty. */
  function NextScreenAfter(s: Option<string>, current: string): string
  {
    if s.Some? && s.value != "" then s.value else current
  }

  /** C#'s (int) cast of a float, which truncates toward zero. */
  function Truncate(r: real): int
  {
    if r >= 0.0 then r.Floor else -((-r).Floor)
  }

  lemma TruncateWhole(n: int)
    ensures Truncate(n as real) == n
  {
  }

  // ----- text -----

  /** ElementText's Brush after the TextColor member is read: a colour other
      than the current DefaultBlackColor contents is read, otherwise the
      contents themselves. */
  function TextBrushFrom(textColor: Option<seq<int>>, black: seq<int>): Result<Color>
  {
    if textColor.Some? && textColor.value != black then Rgb(textColor.value) else Rgb(black)
  }

  /** The font set from the FontSize member: 0 stands for 40. */
  function TextFontFrom(fontSize: int): Result<Font>
  {
    if fontSize != 0 then MakeFont(fontSize as real) else MakeFont(DEFAULT_FONT_SIZE)
  }

  /** The text a named record is read as, given its brush and font. */
  function TextView(rec: ElementRecord<seq<int>>, brush: Color, h: Alignment, v: Alignment, font: Font): ElementView
    requires !Unnamed(rec)
  {
    NewText(rec.name.value, TextOrEmpty(rec.text)).(
      location := Point(rec.x, rec.y), size := Size(rec.width, rec.height),
      textBrush := Some(brush), hAlign := h, vAlign := v, font := Some(font),
      autoResizeText := rec.autoResize)
  }

  /** InterfaceElementText.Deserialize with DefaultBlackColor holding
      `black`. */
  function TextFromRecord(rec: ElementRecord<seq<int>>, black: seq<int>): Result<Option<ElementView>>
  {
    if Unnamed(rec) then Ok(None)
    else
      var brush := TextBrushFrom(rec.textColor, black);
      if brush.Err? then Err(brush.error)
      else
        var font := TextFontFrom(rec.fontSize);
        if font.Err? then Err(font.error)
        else Ok(Some(TextView(rec, brush.value, ConvertAlignment(rec.align), ConvertAlignment(rec.vAlign), font.value)))
  }

  /** The Align member as InterfaceElementText.Serialize leaves it: the
      horizontal name when HAlign is not Center, then overwritten by the
      vertical name when VAlign is not Center. */
  function AlignAsWritten(h: Alignment, v: Alignment): string
  {
    if v != Center then VerticalName(v) else if h != Center then HorizontalName(h) else "CENTRE"
  }

  /** The FontSize member: the truncated font size, or 40 without a font. */
  function FontMember(font: Option<Font>): int
  {
    if font.Some? then Truncate(font.value.size) else DEFAULT_FONT_SIZE_MEMBER
  }

  /** InterfaceElementText.Serialize, the colour member still the shared
      black array. */
  function TextRecordOf(v: ElementView): ElementRecord<ColorRef>
  {
    Blank(TextRecord).(
      elementType := Some(TypeName(TEXT)), name := Some(v.name),
      x := v.location.x, y := v.location.y, width := v.size.width, height := v.size.height,
      text := Some(v.text), textColor := Some(SharedBlack),
      align := Some(AlignAsWritten(v.hAlign, v.vAlign)), vAlign := Some(VerticalName(Center)),
      fontSize := FontMember(v.font), autoResize := v.autoResizeText)
  }

  /** DefaultBlackColor after a text is serialised: its brush's colour. */
  function TextBlack(v: ElementView, black: seq<int>): seq<int>
  {
    if v.textBrush.Some? then Channels(v.textBrush.value) else black
  }

  /** The Align and VAlign members as evidently intended: each alignment
      under its own member. */
  function TextRecordIntended(v: ElementView): ElementRecord<ColorRef>
  {
    TextRecordOf(v).(align := Some(HorizontalName(v.hAlign)), vAlign := Some(VerticalName(v.vAlign)))
  }

  /** InterfaceElementText.Serialize. The colour member holds the shared
      array whatever is written into it, so the write is made after the
      other members are filled in. */
  method SerializeText(e: Element, palette: Palette) returns (rec: ElementRecord<ColorRef>)
    requires e.kind == TEXT && palette.Valid()
    modifies palette.black
    ensures palette.Valid()
    ensures rec == TextRecordOf(old(ViewOf(e)))
    ensures palette.black[..] == TextBlack(old(ViewOf(e)), old(palette.black[..]))
  {
    var x, y, width, height := 0, 0, 0, 0;
    if !(e.location.x == 0 && e.location.y == 0 && e.size.width == 0 && e.size.height == 0) {
      x, y, width, height := e.location.x, e.location.y, e.size.width, e.size.height;
    }
    var align := HorizontalName(Center);
    if e.hAlign != Center {
      align := HorizontalName(e.hAlign);
    }
    if e.vAlign != Center {
      align := VerticalName(e.vAlign);
    }
    var fontSize := DEFAULT_FONT_SIZE_MEMBER;
    if e.font.Some? {
      fontSize := Truncate(e.font.value.size);
    }
    var autoResize := true;
    if e.autoResizeText != true {
      autoResize := e.autoResizeText;
    }
    rec := ElementRecord(TextRecord, Some(TypeName(TEXT)), Some(e.name), x, y, width, height, Some(e.text),
                         Some(SharedBlack), None, None, Some(align), Some(VerticalName(Center)), fontSize, autoResize,
                         None, None, None, None, 0, 0, 0, 0);
    assert rec == TextRecordOf(ViewOf(e));
    if e.textBrush.Some? {
      WriteColor(palette.black, e.textBrush.value);
    }
  }

  /** The element InterfaceElementText.Deserialize builds and fills in
      before its font is set. */
  method NewTextFrom(name: string, text: string, location: Point, size: Size, brush: Color,
                     h: Alignment, v: Alignment, autoResize: bool) returns (e: Element)
    ensures fresh(e)
    ensures Shows(e, NewText(name, text).(location := location, size := size, textBrush := Some(brush),
                                          hAlign := h, vAlign := v, autoResizeText := autoResize))
  {
    e := new Element.Text(name, text, location, size);
    e.textBrush := Some(brush);
    e.hAlign := h;
    e.vAlign := v;
    e.autoResizeText := autoResize;
  }

  /** InterfaceElementText.Deserialize. The brush, which only reads the
      record and the shared black array, is worked out before the element
      is built; a record whose brush cannot be read builds nothing. */
  method DeserializeText(rec: ElementRecord<seq<int>>, palette: Palette) returns (r: Result<Element?>)
    requires palette.Valid()
    ensures r.Ok? && r.value != null ==> fresh(r.value)
    ensures Delivers(r, TextFromRecord(rec, palette.black[..]))
  {
    if rec.name.None? || rec.name.value == "" {
      return Ok(null);
    }
    var brush := TextBrushFrom(rec.textColor, palette.black[..]);
    if brush.Err? {
      return Err(brush.error);
    }
    var text := if rec.text.None? then "" else rec.text.value;
    var e := NewTextFrom(rec.name.value, text, Point(rec.x, rec.y), Size(rec.width, rec.height), brush.value,
                         ConvertAlignment(rec.align), ConvertAlignment(rec.vAlign), rec.autoResize);
    var outcome := e.SetFontSize(if rec.fontSize != 0 then rec.fontSize as real else DEFAULT_FONT_SIZE);
    if outcome.Failure? {
      return Err(outcome.error);
    }
    r := Ok(e);
  }

  // ----- button -----

  /** The three colours of a button. */
  datatype ButtonColours = ButtonColours(textBrush: Option<Color>, fillBrush: Option<Color>, borderPen: Option<Pen>)

  /** The colours of new ElementButton(name, text). */
  const BUTTON_COLOURS := ButtonColours(Some(Black), Some(LightGray), Some(PenOf(Black)))

  /** A colour member that differs from the contents of its default array. */
  predicate Differs(c: Option<seq<int>>, default: seq<int>)
  {
    c.Some? && c.value != default
  }

  /** The colours InterfaceElementButton.Deserialize sets, as written: a
      TextColor other than black sets the text brush; a FillColor other
      than light gray sets the TEXT brush again, from TextColor; a
      BorderColor other than black sets the border pen from TextColor. The
      last two throw when TextColor is null. */
  function ColoursAsWritten(rec: ElementRecord<seq<int>>, black: seq<int>, gray: seq<int>): (r: Result<ButtonColours>)
    ensures r.Ok? ==> r.value.fillBrush == Some(LightGray)
    ensures Differs(rec.fillColor, gray) && rec.textColor.None? ==> r == Err(NullReference)
  {
    var tc := rec.textColor;
    var first := if Differs(tc, black) then Rgb(tc.value) else Ok(Black);
    if first.Err? then Err(first.error)
    else
      var c1 := if Differs(tc, black) then BUTTON_COLOURS.(textBrush := Some(first.value)) else BUTTON_COLOURS;
      var second := if !Differs(rec.fillColor, gray) then Ok(Black) else if tc.None? then Err(NullReference) else Rgb(tc.value);
      if second.Err? then Err(second.error)
      else
        var c2 := if Differs(rec.fillColor, gray) then c1.(textBrush := Some(second.value)) else c1;
        var third := if !Differs(rec.borderColor, black) then Ok(Black) else if tc.None? then Err(NullReference) else Rgb(tc.value);
        if third.Err? then Err(third.error)
        else if Differs(rec.borderColor, black) then Ok(c2.(borderPen := Some(PenOf(third.value))))
        else Ok(c2)
  }

  /** The colours as evidently intended: each member sets its own colour. */
  function ColoursIntended(rec: ElementRecord<seq<int>>, black: seq<int>, gray: seq<int>): Result<ButtonColours>
  {
    var text := if Differs(rec.textColor, black) then Rgb(rec.textColor.value) else Ok(Black);
    var fill := if Differs(rec.fillColor, gray) then Rgb(rec.fillColor.value) else Ok(LightGray);
    var border := if Differs(rec.borderColor, black) then Rgb(rec.borderColor.value) else Ok(Black);
    if text.Err? then Err(text.error)
    else if fill.Err? then Err(fill.error)
    else if border.Err? then Err(border.error)
    else Ok(ButtonColours(Some(text.value), Some(fill.value), Some(PenOf(border.value))))
  }

  /** The button font: set only for a FontSize other than 0 and 40. */
  function ButtonFontFrom(fontSize: int): Result<Font>
  {
    if fontSize != 0 && fontSize != DEFAULT_FONT_SIZE_MEMBER then MakeFont(fontSize as real)
    else Ok(Font(DEFAULT_BUTTON_FONT_SIZE))
  }

  /** InterfaceElementButton.Deserialize with the shared arrays holding
      `black` and `gray`. */
  function ButtonFromRecord(rec: ElementRecord<seq<int>>, black: seq<int>, gray: seq<int>): Result<Option<ElementView>>
  {
    if Unnamed(rec) then Ok(None)
    else
      var colours := ColoursAsWritten(rec, black, gray);
      if colours.Err? then Err(colours.error)
      else
        var font := ButtonFontFrom(rec.fontSize);
        if font.Err? then Err(font.error)
        else
          Ok(Some(NewButton(rec.name.value, TextOrEmpty(rec.text)).(
            location := Point(rec.x, rec.y), size := Size(rec.width, rec.height),
            nextScreenName := NextScreenAfter(rec.nextScreen, ""),
            action := ActionAfter(rec.action, NoAction),
            textBrush := colours.value.textBrush, borderPen := colours.value.borderPen,
            font := Some(font.value), autoResizeText := rec.autoResize)))
  }

  /** InterfaceElementButton.Serialize: Action is not written. */
  function ButtonRecordOf(v: ElementView): ElementRecord<ColorRef>
  {
    Blank(ButtonRecord).(
      elementType := Some(TypeName(BUTTON)), name := Some(v.name),
      x := v.location.x, y := v.location.y, width := v.size.width, height := v.size.height,
      text := Some(v.text), nextScreen := Some(v.nextScreenName),
      textColor := Some(SharedBlack), fillColor := Some(SharedGray), borderColor := Some(SharedBlack),
      fontSize := FontMember(v.font), autoResize := v.autoResizeText)
  }

  /** DefaultBlackColor after a button is serialised: TextColor and
      BorderColor are the same array, so the border colour, when there is
      one, overwrites the text colour. */
  function ButtonBlack(v: ElementView, black: seq<int>): seq<int>
  {
    if v.borderPen.Some? then Channels(v.borderPen.value.color)
    else if v.textBrush.Some? then Channels(v.textBrush.value)
    else black
  }

  /** LightGrayColor after a button is serialised. */
  function ButtonGray(v: ElementView, gray: seq<int>): seq<int>
  {
    if v.fillBrush.Some? then Channels(v.fillBrush.value) else gray
  }

  /** The colour writes of InterfaceElementButton.Serialize: the text
      colour and then the border colour into DefaultBlackColor, the fill
      colour into LightGrayColor. */
  method WriteButtonColours(e: Element, palette: Palette)
    requires palette.Valid()
    modifies palette.black, palette.lightGray
    ensures palette.Valid()
    ensures palette.black[..] == ButtonBlack(old(ViewOf(e)), old(palette.black[..]))
    ensures palette.lightGray[..] == ButtonGray(old(ViewOf(e)), old(palette.lightGray[..]))
  {
    if e.textBrush.Some? {
      WriteColor(palette.black, e.textBrush.value);
    }
    if e.fillBrush.Some? {
      WriteColor(palette.lightGray, e.fillBrush.value);
    }
    if e.borderPen.Some? {
      WriteColor(palette.black, e.borderPen.value.color);
    }
  }

  /** InterfaceElementButton.Serialize. The colour members hold the shared
      arrays whatever is written into them, so the writes are made after
      the other members are filled in. */
  method SerializeButton(e: Element, palette: Palette) returns (rec: ElementRecord<ColorRef>)
    requires e.kind == BUTTON && palette.Valid()
    modifies palette.black, palette.lightGray
    ensures palette.Valid()
    ensures rec == ButtonRecordOf(old(ViewOf(e)))
    ensures palette.black[..] == ButtonBlack(old(ViewOf(e)), old(palette.black[..]))
    ensures palette.lightGray[..] == ButtonGray(old(ViewOf(e)), old(palette.lightGray[..]))
  {
    var x, y, width, height := 0, 0, 0, 0;
    if !(e.location.x == 0 && e.location.y == 0 && e.size.width == 0 && e.size.height == 0) {
      x, y, width, height := e.location.x, e.location.y, e.size.width, e.size.height;
    }
    var fontSize := DEFAULT_FONT_SIZE_MEMBER;
    if e.font.Some? {
      fontSize := Truncate(e.font.value.size);
    }
    var autoResize := true;
    if e.autoResizeText != true {
      autoResize := e.autoResizeText;
    }
    rec := ElementRecord(ButtonRecord, Some(TypeName(BUTTON)), Some(e.name), x, y, width, height, Some(e.text),
                         Some(SharedBlack), Some(SharedGray), Some(SharedBlack), None, None, fontSize, autoResize,
                         Some(e.nextScreenName), None, None, None, 0, 0, 0, 0);
    assert rec == ButtonRecordOf(ViewOf(e));
    WriteButtonColours(e, palette);
  }

  /** The element InterfaceElementButton.Deserialize builds and fills in
      before its font is set. */
  method NewButtonFrom(name: string, text: string, location: Point, size: Size, nextScreen: string,
                       action: DefaultAction, textBrush: Option<Color>, borderPen: Option<Pen>, autoResize: bool)
    returns (e: Element)
    ensures fresh(e)
    ensures Shows(e, NewButton(name, text).(location := location, size := size, nextScreenName := nextScreen,
                                            action := action, textBrush := textBrush, borderPen := borderPen,
                                            autoResizeText := autoResize))
  {
    e := new Element.Button(name, text, location, size, Plain);
    e.nextScreenName := nextScreen;
    e.action := action;
    e.textBrush := textBrush;
    e.borderPen := borderPen;
    e.autoResizeText := autoResize;
  }

  /** InterfaceElementButton.Deserialize. The colours, which only read the
      record and the shared arrays, are worked out before the element is
      built; a record whose colours cannot be read builds nothing. */
  method DeserializeButton(rec: ElementRecord<seq<int>>, palette: Palette) returns (r: Result<Element?>)
    requires palette.Valid()
    ensures r.Ok? && r.value != null ==> fresh(r.value)
    ensures Delivers(r, ButtonFromRecord(rec, palette.black[..], palette.lightGray[..]))
  {
    if rec.name.None? || rec.name.value == "" {
      return Ok(null);
    }
    var colours := ColoursAsWritten(rec, palette.black[..], palette.lightGray[..]);
    if colours.Err? {
      return Err(colours.error);
    }
    var text := if rec.text.None? then "" else rec.text.value;
    var nextScreen := if rec.nextScreen.Some? && rec.nextScreen.value != "" then rec.nextScreen.value else "";
    var e := NewButtonFrom(rec.name.value, text, Point(rec.x, rec.y), Size(rec.width, rec.height), nextScreen,
                           ActionAfter(rec.action, NoAction), colours.value.textBrush, colours.value.borderPen,
                           rec.autoResize);
    if rec.fontSize != 0 && rec.fontSize != DEFAULT_FONT_SIZE_MEMBER {
      var outcome := e.SetFontSize(rec.fontSize as real);
      if outcome.Failure? {
        return Err(outcome.error);
      }
    }
    r := Ok(e);
  }

  // ----- line -----

  function Abs(n: int): nat
  {
    if n < 0 then -n else n
  }

  /** InterfaceElementLine.Serialize as written: X2 and Y2 are |Width - X|
      and |Height - Y|; LineColor is never written and stays the shared
      black array. */
  function LineRecordOf(v: ElementView): ElementRecord<ColorRef>
  {
    Blank(LineRecord).(
      elementType := Some(TypeName(LINE)), name := Some(v.name),
      x := v.location.x, y := v.location.y, width := v.size.width, height := v.size.height,
      lineColor := Some(SharedBlack),
      x1 := v.location.x, y1 := v.location.y,
      x2 := Abs(v.size.width - v.location.x), y2 := Abs(v.size.height - v.location.y))
  }

  /** The far corner as evidently intended: X + Width and Y + Height, which
      Deserialize's |X2 - X1| and |Y2 - Y1| turn back into the size. */
  function LineRecordIntended(v: ElementView): ElementRecord<ColorRef>
  {
    LineRecordOf(v).(x2 := v.location.x + v.size.width, y2 := v.location.y + v.size.height)
  }

  /** InterfaceElementLine.Deserialize: placed at (X1, Y1), sized
      |X2 - X1| by |Y2 - Y1|; the start and end points stay (0, 0). */
  function LineFromRecord(rec: ElementRecord<seq<int>>, black: seq<int>): Result<Option<ElementView>>
  {
    if Unnamed(rec) then Ok(None)
    else
      var v := NewLine(rec.name.value).(location := Point(rec.x1, rec.y1),
                                         size := Size(Abs(rec.x2 - rec.x1), Abs(rec.y2 - rec.y1)));
      if Differs(rec.lineColor, black) then
        var c := Rgb(rec.lineColor.value);
        if c.Err? then Err(c.error) else Ok(Some(v.(linePen := Some(PenOf(c.value)))))
      else Ok(Some(v))
  }

  /** The element InterfaceElementLine.Deserialize builds. */
  method NewLineFrom(name: string, location: Point, size: Size, pen: Pen) returns (e: Element)
    ensures fresh(e)
    ensures Shows(e, NewLine(name).(location := location, size := size, linePen := Some(pen)))
  {
    e := new Element.Line(name, Point(0, 0), Point(0, 0), Black, 1.0);
    e.location, e.size := location, size;
    e.linePen := Some(pen);
  }

  /** InterfaceElementLine.Deserialize. The pen, which only reads the
      record and the shared black array, is worked out before the element
      is built. */
  method DeserializeLine(rec: ElementRecord<seq<int>>, palette: Palette) returns (r: Result<Element?>)
    requires palette.Valid()
    ensures r.Ok? && r.value != null ==> fresh(r.value)
    ensures Delivers(r, LineFromRecord(rec, palette.black[..]))
  {
    if rec.name.None? || rec.name.value == "" {
      return Ok(null);
    }
    var pen := PenOf(Black);
    if rec.lineColor.Some? && rec.lineColor.value != palette.black[..] {
      var c := Rgb(rec.lineColor.value);
      if c.Err? {
        return Err(c.error);
      }
      pen := PenOf(c.value);
    }
    var e := NewLineFrom(rec.name.value, Point(rec.x1, rec.y1), Size(Abs(rec.x2 - rec.x1), Abs(rec.y2 - rec.y1)), pen);
    r := Ok(e);
  }

  // ----- image -----

  /** The outcome of saving an image's picture to a temporary file. */
  datatype SaveResult = Saved(file: string) | SaveFailed

  /** InterfaceElementImage.Serialize: PictureFilename is "" without a
      picture, the temporary file when the picture was saved, and null when
      saving threw; NextScreen and Action are not written. */
  function ImageRecordOf(v: ElementView, save: SaveResult): ElementRecord<ColorRef>
  {
    Blank(ImageRecord).(
      elementType := Some(TypeName(IMAGE)), name := Some(v.name),
      x := v.location.x, y := v.location.y, width := v.size.width, height := v.size.height,
      pictureFilename := if v.picture == null then Some("") else if save.Saved? then Some(save.file) else None)
  }

  /** InterfaceElementImage.Deserialize, `files` standing for the pictures
      Image.FromFile can load: null without a PictureFilename. */
  function ImageFromRecord(rec: ElementRecord<seq<int>>, files: map<string, Picture>): Result<Option<ElementView>>
  {
    if Unnamed(rec) then Ok(None)
    else if rec.pictureFilename.None? || rec.pictureFilename.value == "" then Ok(None)
    else if rec.pictureFilename.value !in files then Err(FileNotFound)
    else
      Ok(Some(NewImage(rec.name.value, files[rec.pictureFilename.value]).(
        location := Point(rec.x, rec.y), size := Size(rec.width, rec.height),
        nextScreenName := NextScreenAfter(rec.nextScreen, ""),
        action := ActionAfter(rec.action, NoAction))))
  }

  /** The element InterfaceElementImage.Deserialize builds. */
  method NewImageFrom(name: string, picture: Picture, location: Point, size: Size, nextScreen: string,
                      action: DefaultAction) returns (e: Element)
    ensures fresh(e)
    ensures Shows(e, NewImage(name, picture).(location := location, size := size, nextScreenName := nextScreen,
                                              action := action))
  {
    e := new Element.Image(name, picture, location, Plain);
    e.size := size;
    e.nextScreenName, e.action := nextScreen, action;
  }

  /** InterfaceElementImage.Deserialize. */
  method DeserializeImage(rec: ElementRecord<seq<int>>, files: map<string, Picture>) returns (r: Result<Element?>)
    ensures r.Ok? && r.value != null ==> fresh(r.value)
    ensures Delivers(r, ImageFromRecord(rec, files))
  {
    if rec.name.None? || rec.name.value == "" {
      return Ok(null);
    }
    if rec.pictureFilename.Some? && rec.pictureFilename.value != "" {
      if rec.pictureFilename.value !in files {
        return Err(FileNotFound);
      }
      var nextScreen := if rec.nextScreen.Some? && rec.nextScreen.value != "" then rec.nextScreen.value else "";
      var e := NewImageFrom(rec.name.value, files[rec.pictureFilename.value], Point(rec.x, rec.y),
                            Size(rec.width, rec.height), nextScreen, ActionAfter(rec.action, NoAction));
      return Ok(e);
    }
    r := Ok(null);
  }

  // ----- dispatch -----

  /** The shared arrays after an element is serialised. */
  function PaletteAfter(v: ElementView, black: seq<int>, gray: seq<int>): (seq<int>, seq<int>)
  {
    match v.kind
    case TEXT => (TextBlack(v, black), gray)
    case BUTTON => (ButtonBlack(v, black), ButtonGray(v, gray))
    case _ => (black, gray)
  }

  /** The record an element is serialised to, by its kind. */
  function RecordOf(v: ElementView, save: SaveResult): ElementRecord<ColorRef>
  {
    match v.kind
    case TEXT => TextRecordOf(v)
    case BUTTON => ButtonRecordOf(v)
    case LINE => LineRecordOf(v)
    case IMAGE => ImageRecordOf(v, save)
  }

  /** SerializeElement and GetInterfaceElement: the record of the element's
      class; `save` is the outcome of saving an image's picture. */
  method SerializeElement(e: Element, palette: Palette, save: SaveResult) returns (rec: ElementRecord<ColorRef>)
    requires palette.Valid()
    modifies palette.black, palette.lightGray
    ensures palette.Valid()
    ensures rec == RecordOf(ViewOf(e), save)
    ensures (palette.black[..], palette.lightGray[..]) == PaletteAfter(ViewOf(e), old(palette.black[..]), old(palette.lightGray[..]))
  {
    if e.kind == TEXT {
      rec := SerializeText(e, palette);
    } else if e.kind == BUTTON {
      rec := SerializeButton(e, palette);
    } else if e.kind == LINE {
      rec := LineRecordOf(ViewOf(e));
    } else {
      rec := ImageRecordOf(ViewOf(e), save);
    }
  }

  /** DeserializeElement: the record is read as the class its ElementType
      names; any other ElementType gives null. */
  function ElementFromRecord(rec: ElementRecord<seq<int>>, black: seq<int>, gray: seq<int>, files: map<string, Picture>)
    : Result<Option<ElementView>>
  {
    match TypeNamed(rec.elementType)
    case None => Ok(None)
    case Some(TEXT) => TextFromRecord(rec, black)
    case Some(BUTTON) => ButtonFromRecord(rec, black, gray)
    case Some(LINE) => LineFromRecord(rec, black)
    case Some(IMAGE) => ImageFromRecord(rec, files)
  }

  method DeserializeElement(rec: ElementRecord<seq<int>>, palette: Palette, files: map<string, Picture>)
    returns (r: Result<Element?>)
    requires palette.Valid()
    ensures r.Ok? && r.value != null ==> fresh(r.value)
    ensures Delivers(r, ElementFromRecord(rec, palette.black[..], palette.lightGray[..], files))
  {
    if rec.elementType == Some(TypeName(TEXT)) {
      r := DeserializeText(rec, palette);
    } else if rec.elementType == Some(TypeName(BUTTON)) {
      r := DeserializeButton(rec, palette);
    } else if rec.elementType == Some(TypeName(LINE)) {
      r := DeserializeLine(rec, palette);
    } else if rec.elementType == Some(TypeName(IMAGE)) {
      r := DeserializeImage(rec, files);
    } else {
      r := Ok(null);
    }
  }

  /** The record class an ElementType needs a list entry to be cast to. */
  function ClassFor(k: ElementType): RecordClass
  {
    match k
    case TEXT => TextRecord
    case BUTTON => ButtonRecord
    case LINE => LineRecord
    case IMAGE => ImageRecord
  }

  /** InterfaceElement.Deserialize on a list entry: the entry is cast to the
      class its ElementType names, which throws when it was written as
      another class; any other ElementType gives null. */
  function ListedFromRecord(rec: ElementRecord<seq<int>>, black: seq<int>, gray: seq<int>, files: map<string, Picture>)
    : Result<Option<ElementView>>
  {
    match TypeNamed(rec.elementType)
    case None => Ok(None)
    case Some(k) => if rec.cls != ClassFor(k) then Err(InvalidCast) else ElementFromRecord(rec, black, gray, files)
  }

  method DeserializeListed(rec: ElementRecord<seq<int>>, palette: Palette, files: map<string, Picture>)
    returns (r: Result<Element?>)
    requires palette.Valid()
    ensures r.Ok? && r.value != null ==> fresh(r.value)
    ensures Delivers(r, ListedFromRecord(rec, palette.black[..], palette.lightGray[..], files))
  {
    var k := TypeNamed(rec.elementType);
    if k.Some? && rec.cls != ClassFor(k.value) {
      return Err(InvalidCast);
    }
    r := DeserializeElement(rec, palette, files);
  }

  // ----- properties -----

  /** The FontSize member: a text reads 0 as the default 40 and refuses a
      size that is not positive; a button keeps its default font for 0 and
      for 40. */
  lemma FontDefaults(n: int)
    ensures TextFontFrom(0) == Ok(Font(DEFAULT_FONT_SIZE))
    ensures n != 0 ==> (TextFontFrom(n).Ok? <==> n > 0)
    ensures n > 0 ==> TextFontFrom(n) == Ok(Font(n as real)) && ButtonFontFrom(n) == Ok(Font(n as real))
    ensures ButtonFontFrom(0) == Ok(Font(DEFAULT_BUTTON_FONT_SIZE))
    ensures n < 0 ==> ButtonFontFrom(n) == Err(InvalidArgument)
  {
  }

  /** The text with the given members, vertically centred. */
  function TextWith(name: string, text: string, location: Point, size: Size, brush: Color, n: int,
                    autoResize: bool, h: Alignment, v: Alignment): ElementView
  {
    NewText(name, text).(location := location, size := size, textBrush := Some(brush), font := Some(Font(n as real)),
                         autoResizeText := autoResize, hAlign := h, vAlign := v)
  }

  /** A named, vertically centred text with a whole positive font size is
      read back as it was written: its brush colour is what the shared
      black array then holds. */
  lemma TextRoundTrip(name: string, text: string, location: Point, size: Size, brush: Color, n: int,
                      autoResize: bool, h: Alignment, gray: seq<int>)
    requires name != "" && n > 0
    ensures var v := TextWith(name, text, location, size, brush, n, autoResize, h, Center);
            TextFromRecord(Written(TextRecordOf(v), Channels(brush), gray), Channels(brush)) == Ok(Some(v))
  {
    var v := TextWith(name, text, location, size, brush, n, autoResize, h, Center);
    var rec := Written(TextRecordOf(v), Channels(brush), gray);
    TruncateWhole(n);
    AlignmentRoundTrip(h);
    AlignmentRoundTrip(Center);
    RgbChannels(brush, []);
    assert TextBrushFrom(rec.textColor, Channels(brush)) == Ok(brush);
    assert TextFontFrom(rec.fontSize) == Ok(Font(n as real));
    assert ConvertAlignment(rec.align) == h;
    assert ConvertAlignment(rec.vAlign) == Center;
  }

  /** The Align member written for a text: a vertical alignment other than
      Center takes the place of the horizontal one, and VAlign always says
      MIDDLE; so the text is read back with its vertical alignment as the
      horizontal one and centred vertically. */
  lemma TextAlignmentAsWritten(v: ElementView)
    ensures ConvertAlignment(TextRecordOf(v).align) == (if v.vAlign != Center then v.vAlign else v.hAlign)
    ensures ConvertAlignment(TextRecordOf(v).vAlign) == Center
  {
    AlignmentRoundTrip(v.hAlign);
    AlignmentRoundTrip(v.vAlign);
    AlignmentRoundTrip(Center);
  }

  /** A text aligned left and at the bottom is read back aligned right and
      vertically centred. */
  lemma TextAlignmentLost(name: string, brush: Color, gray: seq<int>)
    requires name != ""
    ensures var v := TextWith(name, "", Point(0, 0), Size(0, 0), brush, 40, true, Near, Far);
            TextFromRecord(Written(TextRecordOf(v), Channels(brush), gray), Channels(brush))
              == Ok(Some(v.(hAlign := Far, vAlign := Center)))
  {
    var v := TextWith(name, "", Point(0, 0), Size(0, 0), brush, 40, true, Near, Far);
    var rec := Written(TextRecordOf(v), Channels(brush), gray);
    TruncateWhole(40);
    TextAlignmentAsWritten(v);
    RgbChannels(brush, []);
    assert TextBrushFrom(rec.textColor, Channels(brush)) == Ok(brush);
    assert TextFontFrom(rec.fontSize) == Ok(Font(40 as real));
  }

  /** With each alignment under its own member, every named text with a
      whole positive font size is read back as it was written. */
  lemma TextIntendedRoundTrip(name: string, text: string, location: Point, size: Size, brush: Color, n: int,
                              autoResize: bool, h: Alignment, va: Alignment, gray: seq<int>)
    requires name != "" && n > 0
    ensures var v := TextWith(name, text, location, size, brush, n, autoResize, h, va);
            TextFromRecord(Written(TextRecordIntended(v), Channels(brush), gray), Channels(brush)) == Ok(Some(v))
  {
    var v := TextWith(name, text, location, size, brush, n, autoResize, h, va);
    var rec := Written(TextRecordIntended(v), Channels(brush), gray);
    TruncateWhole(n);
    AlignmentRoundTrip(h);
    AlignmentRoundTrip(va);
    RgbChannels(brush, []);
    assert TextBrushFrom(rec.textColor, Channels(brush)) == Ok(brush);
    assert TextFontFrom(rec.fontSize) == Ok(Font(n as real));
  }

  /** The button with the given members. */
  function ButtonWith(name: string, text: string, location: Point, size: Size, colours: ButtonColours, n: int,
                      autoResize: bool, nextScreen: string, action: DefaultAction): ElementView
  {
    NewButton(name, text).(location := location, size := size, textBrush := colours.textBrush,
                           fillBrush := colours.fillBrush, borderPen := colours.borderPen, font := Some(Font(n as real)),
                           autoResizeText := autoResize, nextScreenName := nextScreen, action := action)
  }

  /** A named button with a whole positive font size is read back with its
      name, text, bounds, next screen, font and resizing, but with the
      colours of a new button and without its action: its colour members are
      the shared arrays it wrote its colours into, which the reader compares
      with themselves. */
  lemma ButtonRoundTrip(name: string, text: string, location: Point, size: Size, colours: ButtonColours, n: int,
                        autoResize: bool, nextScreen: string, action: DefaultAction, black: seq<int>, gray: seq<int>)
    requires name != "" && n > 0
    ensures var v := ButtonWith(name, text, location, size, colours, n, autoResize, nextScreen, action);
            var b := ButtonBlack(v, black);
            var g := ButtonGray(v, gray);
            ButtonFromRecord(Written(ButtonRecordOf(v), b, g), b, g)
              == Ok(Some(ButtonWith(name, text, location, size, BUTTON_COLOURS, n, autoResize, nextScreen, NoAction)))
  {
    var v := ButtonWith(name, text, location, size, colours, n, autoResize, nextScreen, action);
    var b := ButtonBlack(v, black);
    var g := ButtonGray(v, gray);
    var rec := Written(ButtonRecordOf(v), b, g);
    TruncateWhole(n);
    assert ColoursAsWritten(rec, b, g) == Ok(BUTTON_COLOURS);
    assert ButtonFontFrom(rec.fontSize) == Ok(Font(n as real));
    assert ActionAfter(rec.action, NoAction) == NoAction;
  }

  /** A record with its own fill and border colours: as written, the fill
      colour is ignored and the border takes the text colour; as intended,
      each colour is its own member's. */
  lemma ButtonColoursMixed()
    ensures var rec := Blank(ButtonRecord).(name := Some("b"), textColor := Some([10, 20, 30]),
                                             fillColor := Some([1, 2, 3]), borderColor := Some([4, 5, 6]));
            ColoursAsWritten(rec, Channels(Black), Channels(LightGray))
              == Ok(ButtonColours(Some(Color(10, 20, 30)), Some(LightGray), Some(PenOf(Color(10, 20, 30))))) &&
            ColoursIntended(rec, Channels(Black), Channels(LightGray))
              == Ok(ButtonColours(Some(Color(10, 20, 30)), Some(Color(1, 2, 3)), Some(PenOf(Color(4, 5, 6)))))
  {
    var rec := Blank(ButtonRecord).(name := Some("b"), textColor := Some([10, 20, 30]),
                                     fillColor := Some([1, 2, 3]), borderColor := Some([4, 5, 6]));
    assert Differs(rec.textColor, Channels(Black)) by { assert rec.textColor.value[0] != Channels(Black)[0]; }
    assert Differs(rec.fillColor, Channels(LightGray)) by { assert rec.fillColor.value[0] != Channels(LightGray)[0]; }
    assert Differs(rec.borderColor, Channels(Black)) by { assert rec.borderColor.value[0] != Channels(Black)[0]; }
  }

  /** The colour a member gives when read on its own: the member's colour
      when it is not the default array's contents, the default otherwise. */
  function OwnColour(c: Option<seq<int>>, default: seq<int>, otherwise: Color): Color
    requires c.Some? ==> IsRgb(c.value)
  {
    if Differs(c, default) then Color(c.value[0], c.value[1], c.value[2]) else otherwise
  }

  /** As intended, a button's colours are read each from its own member and
      never fail on well-formed members; a member missing or equal to the
      default array's contents leaves the colour of a new button. */
  lemma ColoursIntendedMeaning(rec: ElementRecord<seq<int>>, black: seq<int>, gray: seq<int>)
    requires rec.textColor.Some? ==> IsRgb(rec.textColor.value)
    requires rec.fillColor.Some? ==> IsRgb(rec.fillColor.value)
    requires rec.borderColor.Some? ==> IsRgb(rec.borderColor.value)
    ensures ColoursIntended(rec, black, gray)
              == Ok(ButtonColours(Some(OwnColour(rec.textColor, black, Black)),
                                  Some(OwnColour(rec.fillColor, gray, LightGray)),
                                  Some(PenOf(OwnColour(rec.borderColor, black, Black)))))
    ensures !Differs(rec.textColor, black) && !Differs(rec.fillColor, gray) && !Differs(rec.borderColor, black) ==>
              ColoursIntended(rec, black, gray) == Ok(BUTTON_COLOURS)
  {
  }

  /** The line with the given members. */
  function LineWith(name: string, location: Point, size: Size, pen: Pen): ElementView
  {
    NewLine(name).(location := location, size := size, linePen := Some(pen))
  }

  /** A named line is read back at its location, with the black pen of a
      new line, and with each side turned into |(|side - coordinate|) -
      coordinate|. */
  lemma LineRoundTrip(name: string, location: Point, size: Size, pen: Pen, black: seq<int>, gray: seq<int>)
    requires name != ""
    ensures LineFromRecord(Written(LineRecordOf(LineWith(name, location, size, pen)), black, gray), black)
              == Ok(Some(LineWith(name, location,
                                  Size(Abs(Abs(size.width - location.x) - location.x),
                                       Abs(Abs(size.height - location.y) - location.y)), PenOf(Black))))
  {
  }

  /** A line 10 wide at x = 2 is read back 6 wide. */
  lemma LineSizeLost(name: string, black: seq<int>, gray: seq<int>)
    requires name != ""
    ensures LineFromRecord(Written(LineRecordOf(LineWith(name, Point(2, 0), Size(10, 0), PenOf(Black))), black, gray), black)
              == Ok(Some(LineWith(name, Point(2, 0), Size(6, 0), PenOf(Black))))
  {
    LineRoundTrip(name, Point(2, 0), Size(10, 0), PenOf(Black), black, gray);
  }

  /** With the far corner written as X + Width and Y + Height, a named line
      of non-negative size is read back at its location with its size. */
  lemma LineIntendedRoundTrip(name: string, location: Point, size: Size, pen: Pen, black: seq<int>, gray: seq<int>)
    requires name != "" && size.width >= 0 && size.height >= 0
    ensures LineFromRecord(Written(LineRecordIntended(LineWith(name, location, size, pen)), black, gray), black)
              == Ok(Some(LineWith(name, location, size, PenOf(Black))))
  {
  }

  /** The image with the given members. */
  function ImageWith(name: string, picture: Picture, location: Point, size: Size, nextScreen: string,
                     action: DefaultAction): ElementView
  {
    NewImage(name, picture).(location := location, size := size, nextScreenName := nextScreen, action := action)
  }

  /** A named image whose picture was saved to a file that loads it again
      is read back with its bounds, but without its next screen and action,
      which are not written; an image without a picture, or whose save
      failed, is read back as nothing. */
  lemma ImageRoundTrip(name: string, picture: Picture, location: Point, size: Size, nextScreen: string,
                       action: DefaultAction, file: string, files: map<string, Picture>, black: seq<int>, gray: seq<int>)
    requires name != "" && file != "" && file in files && files[file] == picture
    ensures var v := ImageWith(name, picture, location, size, nextScreen, action);
            ImageFromRecord(Written(ImageRecordOf(v, Saved(file)), black, gray), files)
              == Ok(Some(ImageWith(name, picture, location, size, "", NoAction)))
    ensures var v := ImageWith(name, picture, location, size, nextScreen, action);
            ImageFromRecord(Written(ImageRecordOf(v, SaveFailed), black, gray), files) == Ok(None) &&
            ImageFromRecord(Written(ImageRecordOf(v.(picture := null), Saved(file)), black, gray), files) == Ok(None)
  {
  }

  /** Every Deserialize gives null for a record without a name. */
  lemma UnnamedRead(rec: ElementRecord<seq<int>>, black: seq<int>, gray: seq<int>, files: map<string, Picture>)
    requires Unnamed(rec)
    ensures ElementFromRecord(rec, black, gray, files) == Ok(None)
    ensures ListedFromRecord(rec, black, gray, files) == Ok(None) || ListedFromRecord(rec, black, gray, files) == Err(InvalidCast)
  {
  }

  /** ElementType decides how a record is read: the type it names, or
      nothing for any other text; a list entry is refused exactly when it
      was written as another class than its ElementType names. */
  lemma Dispatch(rec: ElementRecord<seq<int>>, black: seq<int>, gray: seq<int>, files: map<string, Picture>)
    ensures TypeNamed(rec.elementType).None? ==>
              ElementFromRecord(rec, black, gray, files) == Ok(None) && ListedFromRecord(rec, black, gray, files) == Ok(None)
    ensures rec.elementType == Some(TypeName(TEXT)) ==> ElementFromRecord(rec, black, gray, files) == TextFromRecord(rec, black)
    ensures rec.elementType == Some(TypeName(BUTTON)) ==> ElementFromRecord(rec, black, gray, files) == ButtonFromRecord(rec, black, gray)
    ensures rec.elementType == Some(TypeName(LINE)) ==> ElementFromRecord(rec, black, gray, files) == LineFromRecord(rec, black)
    ensures rec.elementType == Some(TypeName(IMAGE)) ==> ElementFromRecord(rec, black, gray, files) == ImageFromRecord(rec, files)
    ensures ListedFromRecord(rec, black, gray, files) == Err(InvalidCast) <==>
              TypeNamed(rec.elementType).Some? && rec.cls != ClassFor(TypeNamed(rec.elementType).value)
  {
    forall k: ElementType {
      TypeNames(k, rec.elementType);
    }
    if TypeNamed(rec.elementType).Some? && rec.cls == ClassFor(TypeNamed(rec.elementType).value) {
      var k := TypeNamed(rec.elementType).value;
      TypeNames(k, rec.elementType);
      assert ElementFromRecord(rec, black, gray, files) != Err(InvalidCast);
    }
  }

  /** A serialised element names its own type and is written as the class
      of that type, so reading it from a list never fails the cast. */
  lemma RecordOfListed(v: ElementView, save: SaveResult, black: seq<int>, gray: seq<int>, files: map<string, Picture>)
    ensures TypeNamed(RecordOf(v, save).elementType) == Some(v.kind)
    ensures RecordOf(v, save).cls == ClassFor(v.kind)
    ensures var rec := Written(RecordOf(v, save), black, gray);
            ListedFromRecord(rec, black, gray, files) == ElementFromRecord(rec, black, gray, files)
  {
    TypeNames(v.kind, None);
  }

  /** The shared arrays hold the colours of the last button serialised
      with a fill and a border, whatever was written before it. */
  lemma LastButtonWins(v1: ElementView, v2: ElementView, black: seq<int>, gray: seq<int>)
    requires v2.kind == BUTTON && v2.fillBrush.Some? && v2.borderPen.Some?
    ensures var p := PaletteAfter(v1, black, gray);
            PaletteAfter(v2, p.0, p.1) == PaletteAfter(v2, black, gray)
    ensures PaletteAfter(v2, black, gray) == (Channels(v2.borderPen.value.color), Channels(v2.fillBrush.value))
  {
  }
}

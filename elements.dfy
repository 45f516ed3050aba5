// The element records a layout is made of: text, button, line and image.
// The C# base class Element and its four subclasses become one class whose
// immutable `kind` says which subclass an object is; the fields of the other
// subclasses keep their defaults and are never read for that kind.
module Elements {
  import opened Wrappers
  import opened Geometry

  datatype ElementType = TEXT | BUTTON | LINE | IMAGE

  /** DEFAULT_ACTIONS; `NoAction` is the C# value `None`. */
  datatype DefaultAction = NoAction | Done | Refresh | Cancel

  /** System.Drawing.StringAlignment. */
  datatype Alignment = Near | Center | Far

  type Channel = c: int | 0 <= c < 256

  /** An opaque RGB colour, as a solid brush or a pen carries it. */
  datatype Color = Color(r: Channel, g: Channel, b: Channel)

  const Black: Color := Color(0, 0, 0)
  const LightGray: Color := Color(211, 211, 211)

  /** A font, reduced to its em size. */
  datatype Font = Font(size: real)

  datatype DashStyle = Solid | Dot

  /** A pen: colour, width and dash style. */
  datatype Pen = Pen(color: Color, width: real, dash: DashStyle)

  /** new Pen(color): width 1, solid. */
  function PenOf(color: Color): Pen { Pen(color, 1.0, Solid) }

  /** ElementText.DEFAULT_FONT_SIZE and ElementButton.DEFAULT_BUTTON_FONT_SIZE. */
  const DEFAULT_FONT_SIZE: real := 40.0
  const DEFAULT_BUTTON_FONT_SIZE: real := 40.0

  /** new Font(family, size): the size must be positive. */
  function MakeFont(size: real): (r: Result<Font>)
    ensures r.Ok? <==> size > 0.0
    ensures r.Ok? ==> r.value.size == size
  {
    if size > 0.0 then Ok(Font(size)) else Err(InvalidArgument)
  }

  /** The event handlers a Click delegate can hold: none (null), the button's
      private no-op, or one of the signature pad's three default handlers. */
  datatype Handler = NoHandler | DoNothing | DoneHandler | ClearHandler | CancelHandler

  /** One invocation of a click handler, with the element's name as sender. */
  datatype Invocation = Invocation(handler: Handler, sender: string)

  /** Which family of button or image constructor built the element:
      the plain one, the one taking a DEFAULT_ACTIONS value, or the one
      taking a next-screen name. */
  datatype Activation = Plain | WithAction(action: DefaultAction) | WithNextScreen(screen: string)

  /** A loaded picture; only its dimensions matter here. */
  class Picture {
    const width: int
    const height: int

    constructor (width: int, height: int)
      ensures this.width == width && this.height == height
    {
      this.width := width;
      this.height := height;
    }
  }

  class Element {
    // Element
    const name: string
    const kind: ElementType
    var location: Point
    var size: Size
    // ElementText and ElementButton
    var text: string
    var textBrush: Option<Color>     // ElementText.Brush, ElementButton.TextBrush
    var font: Option<Font>           // TextFont
    var autoResizeText: bool
    // ElementText
    var hAlign: Alignment
    var vAlign: Alignment
    // ElementButton
    var fillBrush: Option<Color>
    var borderPen: Option<Pen>
    // ElementButton and ElementImage
    var click: Handler
    var action: DefaultAction
    var nextScreenName: string
    // ElementImage
    var isButton: bool
    var picture: Picture?
    // ElementLine
    var linePen: Option<Pen>
    var lineStart: Point
    var lineEnd: Point

    /** ElementText(name, text[, location[, size]]); an absent location or
        size is (0,0). */
    constructor Text(name: string, text: string, location: Point, size: Size)
      ensures this.name == name && kind == TEXT && this.text == text
      ensures this.location == location && this.size == size
      ensures textBrush == Some(Black) && hAlign == Center && vAlign == Center
      ensures font == Some(Font(DEFAULT_FONT_SIZE)) && autoResizeText
      ensures fillBrush == None && borderPen == None && click == NoHandler && action == NoAction
      ensures nextScreenName == "" && !isButton && picture == null
      ensures linePen == None && lineStart == Point(0, 0) && lineEnd == Point(0, 0)
    {
      this.name := name;
      kind := TEXT;
      this.location := location;
      this.size := size;
      this.text := text;
      textBrush := Some(Black);
      font := Some(Font(DEFAULT_FONT_SIZE));
      autoResizeText := true;
      hAlign := Center;
      vAlign := Center;
      fillBrush := None;
      borderPen := None;
      click := NoHandler;
      action := NoAction;
      nextScreenName := "";
      isButton := false;
      picture := null;
      linePen := None;
      lineStart := Point(0, 0);
      lineEnd := Point(0, 0);
    }

    /** The nine ElementButton constructors: (name, text[, location[, size]])
        followed by nothing, an action, or a next-screen name. */
    constructor Button(name: string, text: string, location: Point, size: Size, activation: Activation)
      ensures this.name == name && kind == BUTTON && this.text == text
      ensures this.location == location && this.size == size
      ensures textBrush == Some(Black) && fillBrush == Some(LightGray)
      ensures borderPen == Some(PenOf(Black))
      ensures font == Some(Font(DEFAULT_BUTTON_FONT_SIZE)) && autoResizeText
      ensures click == (if activation.Plain? then DoNothing else NoHandler)
      ensures action == (match activation
                         case Plain => NoAction
                         case WithAction(a) => a
                         case WithNextScreen(_) => Done)
      ensures nextScreenName == (if activation.WithNextScreen? then activation.screen else "")
      ensures hAlign == Center && vAlign == Center && !isButton && picture == null
      ensures linePen == None && lineStart == Point(0, 0) && lineEnd == Point(0, 0)
    {
      this.name := name;
      kind := BUTTON;
      this.location := location;
      this.size := size;
      this.text := text;
      textBrush := Some(Black);
      font := Some(Font(DEFAULT_BUTTON_FONT_SIZE));
      autoResizeText := true;
      hAlign := Center;
      vAlign := Center;
      fillBrush := Some(LightGray);
      borderPen := Some(PenOf(Black));
      click := if activation.Plain? then DoNothing else NoHandler;
      action := match activation
                case Plain => NoAction
                case WithAction(a) => a
                case WithNextScreen(_) => Done;
      nextScreenName := if activation.WithNextScreen? then activation.screen else "";
      isButton := false;
      picture := null;
      linePen := None;
      lineStart := Point(0, 0);
      lineEnd := Point(0, 0);
    }

    /** The eight ElementImage constructors: (name, picture[, x, y]) followed by
        nothing, an action, or a next-screen name. The file-name overloads
        load the picture first; the loaded picture is the argument here. */
    constructor Image(name: string, picture: Picture, location: Point, activation: Activation)
      ensures this.name == name && kind == IMAGE && this.picture == picture
      ensures this.location == location && size == Size(picture.width, picture.height)
      ensures click == NoHandler && !isButton
      ensures action == (match activation
                         case Plain => NoAction
                         case WithAction(a) => a
                         case WithNextScreen(_) => Done)
      ensures nextScreenName == (if activation.WithNextScreen? then activation.screen else "")
      ensures text == "" && textBrush == None && font == None && !autoResizeText
      ensures hAlign == Center && vAlign == Center && fillBrush == None && borderPen == None
      ensures linePen == None && lineStart == Point(0, 0) && lineEnd == Point(0, 0)
    {
      this.name := name;
      kind := IMAGE;
      this.location := location;
      size := Size(picture.width, picture.height);
      text := "";
      textBrush := None;
      font := None;
      autoResizeText := false;
      hAlign := Center;
      vAlign := Center;
      fillBrush := None;
      borderPen := None;
      click := NoHandler;
      action := match activation
                case Plain => NoAction
                case WithAction(a) => a
                case WithNextScreen(_) => Done;
      nextScreenName := if activation.WithNextScreen? then activation.screen else "";
      isButton := false;
      this.picture := picture;
      linePen := None;
      lineStart := Point(0, 0);
      lineEnd := Point(0, 0);
    }

    /** The five ElementLine constructors. ElementLine(name) is
        Line(name, (0,0), (0,0), Black, 1); the others put the element at
        `start`. No constructor sets the size. */
    constructor Line(name: string, start: Point, end: Point, color: Color, width: real)
      ensures this.name == name && kind == LINE
      ensures location == start && lineStart == start && lineEnd == end
      ensures size == Size(0, 0)
      ensures linePen == Some(Pen(color, width, Solid))
      ensures text == "" && textBrush == None && font == None && !autoResizeText
      ensures hAlign == Center && vAlign == Center && fillBrush == None && borderPen == None
      ensures click == NoHandler && action == NoAction && nextScreenName == "" && !isButton && picture == null
    {
      this.name := name;
      kind := LINE;
      location := start;
      size := Size(0, 0);
      text := "";
      textBrush := None;
      font := None;
      autoResizeText := false;
      hAlign := Center;
      vAlign := Center;
      fillBrush := None;
      borderPen := None;
      click := NoHandler;
      action := NoAction;
      nextScreenName := "";
      isButton := false;
      picture := null;
      linePen := Some(Pen(color, width, Solid));
      lineStart := start;
      lineEnd := end;
    }

    /** The Bounds getter. */
    function Bounds(): (r: Rectangle)
      reads this
      ensures Point(r.x, r.y) == location && Size(r.width, r.height) == size
    {
      RectangleOf(location, size)
    }

    /** The Bounds setter. */
    method SetBounds(r: Rectangle)
      modifies this
      ensures Bounds() == r
      ensures location == Point(r.x, r.y) && size == Size(r.width, r.height)
      ensures unchanged(this`text, this`textBrush, this`font, this`click, this`action,
                        this`nextScreenName, this`isButton, this`picture, this`linePen)
    {
      location := Point(r.x, r.y);
      size := Size(r.width, r.height);
    }

    /** Scales X and Width by newDim.width / origDim.width and Y and Height by
        newDim.height / origDim.height, truncating each result. A zero original
        width (height) leaves IndefiniteInt in X and Width (Y and Height). */
    method ResizeToNewDimension(origDim: Size, newDim: Size)
      modifies this`location, this`size
      ensures location == Point(Resized(old(location.x), newDim.width, origDim.width),
                                Resized(old(location.y), newDim.height, origDim.height))
      ensures size == Size(Resized(old(size.width), newDim.width, origDim.width),
                           Resized(old(size.height), newDim.height, origDim.height))
      ensures origDim.width == 0 ==> location.x == IndefiniteInt && size.width == IndefiniteInt
      ensures origDim.height == 0 ==> location.y == IndefiniteInt && size.height == IndefiniteInt
      ensures origDim == newDim && origDim.width != 0 && origDim.height != 0 ==>
                location == old(location) && size == old(size)
    {
      location := Point(Resized(location.x, newDim.width, origDim.width),
                        Resized(location.y, newDim.height, origDim.height));
      size := Size(Resized(size.width, newDim.width, origDim.width),
                   Resized(size.height, newDim.height, origDim.height));
      if origDim == newDim && origDim.width != 0 && origDim.height != 0 {
        ScaledIdentity(old(location.x), origDim.width);
        ScaledIdentity(old(location.y), origDim.height);
        ScaledIdentity(old(size.width), origDim.width);
        ScaledIdentity(old(size.height), origDim.height);
      }
    }

    /** The FontSize getter: ElementText reports 40 when it has no font;
        ElementButton dereferences its font unconditionally. */
    function FontSize(): (r: Result<real>)
      requires kind == TEXT || kind == BUTTON
      reads this
      ensures font.Some? ==> r == Ok(font.value.size)
      ensures font.None? ==> (if kind == TEXT then r == Ok(DEFAULT_FONT_SIZE) else r == Err(NullReference))
    {
      match font
      case Some(f) => Ok(f.size)
      case None => if kind == TEXT then Ok(DEFAULT_FONT_SIZE) else Err(NullReference)
    }

    /** The FontSize setter: a new font of the old family and the given size. */
    method SetFontSize(value: real) returns (r: Outcome)
      requires kind == TEXT || kind == BUTTON
      modifies this`font
      ensures r == (if old(font).None? then Failure(NullReference)
                    else if value <= 0.0 then Failure(InvalidArgument) else Success)
      ensures r.Success? ==> font == Some(Font(value)) && FontSize() == Ok(value)
      ensures r.Failure? ==> font == old(font)
    {
      if font.None? {
        return Failure(NullReference);
      }
      var f := MakeFont(value);
      if f.Err? {
        return Failure(f.error);
      }
      font := Some(f.value);
      r := Success;
    }

    /** Assigning Click. For an image the setter also marks it as a button,
        whatever the handler; a button's Click is a plain field. */
    method SetClick(h: Handler)
      requires kind == BUTTON || kind == IMAGE
      modifies this`click, this`isButton
      ensures click == h
      ensures isButton == (kind == IMAGE || old(isButton))
    {
      click := h;
      if kind == IMAGE {
        isButton := true;
      }
    }

    /** PerformClick: a button invokes its handler unconditionally (a null
        handler throws); an image invokes it only when it is set. */
    function PerformClick(): (r: Result<Option<Invocation>>)
      requires kind == BUTTON || kind == IMAGE
      reads this
      ensures r.Err? <==> kind == BUTTON && click == NoHandler
      ensures r.Ok? ==> (r.value.Some? <==> click != NoHandler)
      ensures r.Ok? && r.value.Some? ==> r.value.value == Invocation(click, name)
    {
      if click == NoHandler then
        (if kind == BUTTON then Err(NullReference) else Ok(None))
      else
        Ok(Some(Invocation(click, name)))
    }
  }
}

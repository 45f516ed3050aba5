// The string vocabularies of JSONSerializer: element and layout type names,
// the alignment names and their reader ConvertAlignment, the default actions
// and the box-layout flows.
module JsonVocabulary {
  import opened Wrappers
  import opened Text
  import opened Elements
  import opened Layouts
  import opened BoxLayouts

  /** ElementTypeList. */
  function TypeName(k: ElementType): string
  {
    match k
    case TEXT => "TEXT"
    case BUTTON => "BUTTON"
    case LINE => "LINE"
    case IMAGE => "IMAGE"
  }

  /** The element type an ElementType member names, compared exactly (the
      code compares with ==, so case matters); null or anything else names
      none. */
  function TypeNamed(name: Option<string>): (r: Option<ElementType>)
  {
    if name == Some("TEXT") then Some(TEXT)
    else if name == Some("BUTTON") then Some(BUTTON)
    else if name == Some("LINE") then Some(LINE)
    else if name == Some("IMAGE") then Some(IMAGE)
    else None
  }

  /** A type name is read back as its type, and only the four exact names
      are read as a type. */
  lemma TypeNames(k: ElementType, name: Option<string>)
    ensures TypeNamed(Some(TypeName(k))) == Some(k)
    ensures TypeNamed(name) == Some(k) <==> name == Some(TypeName(k))
    ensures TypeNamed(Some("text")).None?
  {
  }

  /** LayoutTypes. */
  function LayoutTypeName(t: LayoutType): string
  {
    match t
    case DEFAULT => "DEFAULT"
    case BOX_LAYOUT => "BOX_LAYOUT"
    case SIGNATURE_LAYOUT => "SIGNATURE_LAYOUT"
  }

  /** The layout class DeserializeLayout picks for a Layout member: the box
      and signature names exactly, and the plain Layout for anything else,
      null included. */
  function LayoutTypeNamed(name: Option<string>): (r: LayoutType)
  {
    if name == Some("BOX_LAYOUT") then BOX_LAYOUT
    else if name == Some("SIGNATURE_LAYOUT") then SIGNATURE_LAYOUT
    else DEFAULT
  }

  /** Each layout type name is read back as its type; every other text is
      read as DEFAULT. */
  lemma LayoutTypeNames(t: LayoutType, name: Option<string>)
    ensures LayoutTypeNamed(Some(LayoutTypeName(t))) == t
    ensures LayoutTypeNamed(name) != DEFAULT <==> name == Some("BOX_LAYOUT") || name == Some("SIGNATURE_LAYOUT")
  {
  }

  // ----- upper case -----

  /** A text without lower-case ASCII letters is its own upper case. */
  lemma UpperFixed(s: string)
    requires forall i :: 0 <= i < |s| ==> !('a' <= s[i] <= 'z')
    ensures ToUpper(s) == s
  {
    var u := ToUpper(s);
    assert forall i :: 0 <= i < |s| ==> u[i] == s[i];
  }

  /** Upper case is idempotent. */
  lemma UpperIdempotent(s: string)
    ensures ToUpper(ToUpper(s)) == ToUpper(s)
  {
    var u := ToUpper(s);
    assert forall i :: 0 <= i < |u| ==> !('a' <= u[i] <= 'z');
    UpperFixed(u);
  }

  // ----- alignment -----

  /** convertAlignmentHorizontal: Near is LEFT, Far is RIGHT, anything else
      CENTRE. */
  function HorizontalName(a: Alignment): string
  {
    if a == Near then "LEFT" else if a == Far then "RIGHT" else "CENTRE"
  }

  /** convertAlignmentVertical: Near is TOP, Far is BOTTOM, anything else
      MIDDLE. */
  function VerticalName(a: Alignment): string
  {
    if a == Near then "TOP" else if a == Far then "BOTTOM" else "MIDDLE"
  }

  /** ConvertAlignment: null is Center; otherwise the upper-cased text is
      compared with LEFT, RIGHT, TOP and BOTTOM in that order. */
  function ConvertAlignment(text: Option<string>): (r: Alignment)
    ensures text.None? ==> r == Center
    ensures r == Near ==> text.Some? && ToUpper(text.value) in {"LEFT", "TOP"}
    ensures r == Far ==> text.Some? && ToUpper(text.value) in {"RIGHT", "BOTTOM"}
  {
    if text.None? then Center
    else
      var u := ToUpper(text.value);
      if u == "LEFT" then Near
      else if u == "RIGHT" then Far
      else if u == "TOP" then Near
      else if u == "BOTTOM" then Far
      else Center
  }

  /** ConvertAlignment inverts both name functions. */
  lemma AlignmentRoundTrip(a: Alignment)
    ensures ConvertAlignment(Some(HorizontalName(a))) == a
    ensures ConvertAlignment(Some(VerticalName(a))) == a
  {
    UpperFixed(HorizontalName(a));
    UpperFixed(VerticalName(a));
  }

  /** ConvertAlignment ignores case, and gives Near exactly for LEFT and TOP,
      Far exactly for RIGHT and BOTTOM (in any case), Center otherwise,
      null included. */
  lemma AlignmentMeaning(text: Option<string>)
    ensures text.Some? ==> ConvertAlignment(text) == ConvertAlignment(Some(ToUpper(text.value)))
    ensures ConvertAlignment(text) == Near <==> text.Some? && ToUpper(text.value) in {"LEFT", "TOP"}
    ensures ConvertAlignment(text) == Far <==> text.Some? && ToUpper(text.value) in {"RIGHT", "BOTTOM"}
    ensures text.None? ==> ConvertAlignment(text) == Center
  {
    if text.Some? {
      UpperIdempotent(text.value);
    }
  }

  /** Lower- and mixed-case names are read like the upper-case ones. */
  lemma AlignmentAnyCase()
    ensures ConvertAlignment(Some("left")) == Near
    ensures ConvertAlignment(Some("Bottom")) == Far
    ensures ConvertAlignment(Some("centre")) == Center
  {
    var l := ToUpper("left");
    assert l[0] == 'L' && l[1] == 'E' && l[2] == 'F' && l[3] == 'T';
    assert l == "LEFT";
    var b := ToUpper("Bottom");
    assert b[0] == 'B' && b[1] == 'O' && b[2] == 'T' && b[3] == 'T' && b[4] == 'O' && b[5] == 'M';
    assert b == "BOTTOM";
  }

  // ----- actions -----

  /** The Actions names of the three default actions. */
  function ActionName(a: DefaultAction): string
    requires a != NoAction
  {
    match a
    case Done => "DONE"
    case Refresh => "REFRESH"
    case Cancel => "CANCEL"
  }

  /** An element's action after its Action member is read: DONE, REFRESH
      and CANCEL in any case set it; null or any other text leaves
      `current`. */
  function ActionAfter(action: Option<string>, current: DefaultAction): DefaultAction
  {
    if action.None? then current
    else
      var u := ToUpper(action.value);
      if u == "DONE" then Done
      else if u == "REFRESH" then Refresh
      else if u == "CANCEL" then Cancel
      else current
  }

  /** Each action name sets its action, in any case; an unknown name keeps
      the action the element had. */
  lemma ActionRoundTrip(a: DefaultAction, action: string, current: DefaultAction)
    requires a != NoAction
    ensures ActionAfter(Some(ActionName(a)), current) == a
    ensures ActionAfter(Some(action), current) == ActionAfter(Some(ToUpper(action)), current)
    ensures ActionAfter(Some(action), current) != current ==> ToUpper(action) in {"DONE", "REFRESH", "CANCEL"}
  {
    UpperFixed(ActionName(a));
    UpperIdempotent(action);
  }

  /** "done" is read as Done. */
  lemma ActionLowerCase(current: DefaultAction)
    ensures ActionAfter(Some("done"), current) == Done
  {
    var u := ToUpper("done");
    assert u[0] == 'D' && u[1] == 'O' && u[2] == 'N' && u[3] == 'E';
    assert u == "DONE";
  }

  // ----- flows -----

  /** BoxLayoutFlows. */
  function FlowName(f: Flow): string
  {
    if f == RIGHT then "RIGHT" else "DOWN"
  }

  /** The flow after the Flow member is read: null keeps `current`, DOWN in
      any case is DOWN, and any other text is RIGHT. */
  function FlowAfter(flow: Option<string>, current: Flow): Flow
  {
    if flow.None? then current
    else if ToUpper(flow.value) == "DOWN" then DOWN
    else RIGHT
  }

  /** Each flow name is read back as its flow; an unknown non-null text
      gives RIGHT. */
  lemma FlowRoundTrip(f: Flow, flow: string, current: Flow)
    ensures FlowAfter(Some(FlowName(f)), current) == f
    ensures FlowAfter(Some(flow), current) == DOWN <==> ToUpper(flow) == "DOWN"
  {
    UpperFixed(FlowName(f));
  }

  /** "down" is read as DOWN. */
  lemma FlowLowerCase(current: Flow)
    ensures FlowAfter(Some("down"), current) == DOWN
  {
    var u := ToUpper("down");
    assert u[0] == 'D' && u[1] == 'O' && u[2] == 'W' && u[3] == 'N';
    assert u == "DOWN";
  }
}

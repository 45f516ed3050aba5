// Reading layout records back: InterfaceLayout.Deserialize,
// InterfaceBoxLayout.Deserialize, InterfaceSignatureLayout.Deserialize and
// the DeserializeLayout dispatch. A record is the text read as the class
// the dispatch picks; the members that text leaves out are null, 0 or
// false.
module JsonLayoutReads {
  import opened Wrappers
  import opened Text
  import opened Elements
  import opened Layouts
  import opened BoxLayouts
  import opened SignatureLayouts
  import opened JsonVocabulary
  import opened JsonElements
  import opened JsonLayouts

  /** A result that fails exactly when its specification does, with the
      same fault. */
  predicate Resulting<T, U>(r: Result<T>, spec: Result<U>)
  {
    (r.Err? <==> spec.Err?) && (r.Err? ==> r.error == spec.error)
  }

  // ----- plain layouts -----

  /** What the element list of a plain layout holds while it is read: the
      elements added so far, in their states, or a single null element.
      Layout.AddElement(null) on a layout without a list creates the list
      and appends the null without looking at it; the model's Layout keeps
      no null elements, so a flag beside the layout stands for it. */
  datatype PlainContents = Listed(views: seq<ElementView>) | NullFirst

  /** What InterfaceLayout.Deserialize does with one list entry: an entry
      whose ElementType names no type is skipped; otherwise the entry is
      cast and read, and a fault stops the reading. A null element is
      appended to a list not yet created and makes AddElement throw on any
      other list (it reads element.Name); a list holding a null element
      makes every later AddElement throw (it reads e.Name of the null
      entry); otherwise an element is added unless its name is taken. */
  function PlainStep(c: PlainContents, rec: ElementRecord<seq<int>>, black: seq<int>, gray: seq<int>,
                     files: map<string, Picture>): Result<PlainContents>
  {
    if TypeNamed(rec.elementType).None? then Ok(c)
    else
      match ListedFromRecord(rec, black, gray, files)
      case Err(f) => Err(f)
      case Ok(None) => if c == Listed([]) then Ok(NullFirst) else Err(NullReference)
      case Ok(Some(v)) =>
        if c.NullFirst? then Err(NullReference)
        else Ok(Listed(if ViewNameTaken(c.views, v.name) then c.views else c.views + [v]))
  }

  /** What a run of list entries leaves in the list, or the fault that
      stops the reading. */
  function PlainRead(entries: seq<ElementRecord<seq<int>>>, black: seq<int>, gray: seq<int>,
                     files: map<string, Picture>): Result<PlainContents>
  {
    if entries == [] then Ok(Listed([]))
    else
      match PlainRead(entries[..|entries| - 1], black, gray, files)
      case Err(f) => Err(f)
      case Ok(c) => PlainStep(c, entries[|entries| - 1], black, gray, files)
  }

  /** InterfaceLayout.Deserialize: a null or empty ElementList adds nothing. */
  function PlainFromRecord(rec: LayoutRecord<seq<int>>, black: seq<int>, gray: seq<int>,
                           files: map<string, Picture>): Result<PlainContents>
  {
    if rec.elementList.Some? && |rec.elementList.value| > 0 then PlainRead(rec.elementList.value, black, gray, files)
    else Ok(Listed([]))
  }

  /** Once an entry has failed, the reading of any longer run fails the
      same way. */
  lemma {:induction false} PlainReadFails(entries: seq<ElementRecord<seq<int>>>, i: nat, black: seq<int>, gray: seq<int>,
                                         files: map<string, Picture>)
    requires i <= |entries| && PlainRead(entries[..i], black, gray, files).Err?
    ensures PlainRead(entries, black, gray, files) == PlainRead(entries[..i], black, gray, files)
    decreases |entries| - i
  {
    if i < |entries| {
      var n := |entries|;
      assert entries[..n - 1][..i] == entries[..i];
      PlainReadFails(entries[..n - 1], i, black, gray, files);
    } else {
      assert entries[..i] == entries;
    }
  }

  /** A first typed entry that reads as null (a nameless element, or an
      image without a picture) is kept in the list without a fault, and
      any later typed entry that reads without a fault of its own then
      throws a null reference. */
  lemma NullEntryKept(first: ElementRecord<seq<int>>, later: ElementRecord<seq<int>>, black: seq<int>, gray: seq<int>,
                      files: map<string, Picture>)
    requires TypeNamed(first.elementType).Some? && ListedFromRecord(first, black, gray, files) == Ok(None)
    requires TypeNamed(later.elementType).Some? && ListedFromRecord(later, black, gray, files).Ok?
    ensures PlainRead([first], black, gray, files) == Ok(NullFirst)
    ensures PlainRead([first, later], black, gray, files) == Err(NullReference)
  {
    assert [first][..0] == [];
    assert [first, later][..1] == [first];
  }

  /** The layout `l`, with `holdsNull` standing for a null element in its
      list, is what the element list holds when it is read as `c`. */
  ghost predicate PlainHolds(l: Layout, holdsNull: bool, c: PlainContents)
    reads l, l.elements
  {
    l.Valid() && (holdsNull <==> c.NullFirst?) &&
    (c.Listed? ==> ShowsAll(l.elements, c.views) && (l.listCreated <==> c.views != [])) &&
    (c.NullFirst? ==> l.listCreated && l.elements == [])
  }

  /** The layout `l` is what InterfaceLayout.Deserialize(name) builds with
      the list read as `c`. */
  ghost predicate PlainDelivered(l: Layout, holdsNull: bool, name: string, c: PlainContents)
    reads l, l.elements
  {
    l.name == name && l.layoutType == DEFAULT && PlainHolds(l, holdsNull, c)
  }

  /** One more object in its listed state. */
  lemma ShowsSnoc(es: seq<Element>, vs: seq<ElementView>, e: Element, v: ElementView)
    requires ShowsAll(es, vs) && Shows(e, v)
    ensures ShowsAll(es + [e], vs + [v])
  {
    assert forall i :: 0 <= i < |es| ==> (es + [e])[i] == es[i];
  }

  /** Adds an element read from a list entry, unless its name is taken. */
  method AddView(l: Layout, e: Element, ghost v: ElementView, ghost vs: seq<ElementView>)
    returns (ghost after: seq<ElementView>)
    requires l.Valid() && ShowsAll(l.elements, vs) && Shows(e, v)
    modifies l`listCreated, l`elements
    ensures l.Valid() && ShowsAll(l.elements, after) && l.listCreated && after != []
    ensures after == if ViewNameTaken(vs, v.name) then vs else vs + [v]
  {
    after := vs;
    ghost var es := l.elements;
    ShowsNames(es, vs, v.name);
    var ok := l.AddElement(e);
    assert ShowsAll(es, vs);
    if ok {
      ShowsSnoc(es, vs, e, v);
      after := vs + [v];
    }
  }

  /** The body of InterfaceLayout.Deserialize's loop for one list entry,
      `holdsNull` saying whether the list holds a null element. */
  method AddListed(l: Layout, rec: ElementRecord<seq<int>>, palette: Palette, files: map<string, Picture>,
                   holdsNull: bool, ghost c: PlainContents)
    returns (r: Outcome, holdsNullAfter: bool, ghost after: PlainContents)
    requires palette.Valid() && PlainHolds(l, holdsNull, c)
    modifies l`listCreated, l`elements
    ensures PlainHolds(l, holdsNullAfter, after)
    ensures r.Failure? ==> PlainStep(c, rec, palette.black[..], palette.lightGray[..], files) == Err(r.error)
    ensures r.Success? ==> PlainStep(c, rec, palette.black[..], palette.lightGray[..], files) == Ok(after)
  {
    after, holdsNullAfter := c, holdsNull;
    if TypeNamed(rec.elementType).None? {
      return Success, holdsNullAfter, after;
    }
    ghost var spec := ListedFromRecord(rec, palette.black[..], palette.lightGray[..], files);
    var e := DeserializeListed(rec, palette, files);
    if e.Err? {
      return Failure(e.error), holdsNullAfter, after;
    }
    if e.value == null {
      if l.listCreated || holdsNull {
        return Failure(NullReference), holdsNullAfter, after;
      }
      l.listCreated := true;
      return Success, true, NullFirst;
    }
    if holdsNull {
      return Failure(NullReference), holdsNullAfter, after;
    }
    var vs := AddView(l, e.value, spec.value.value, c.views);
    after := Listed(vs);
    r := Success;
  }

  /** InterfaceLayout.Deserialize(name); `holdsNull` says that the list
      of the layout holds a null element. */
  method DeserializePlain(rec: LayoutRecord<seq<int>>, name: string, palette: Palette, files: map<string, Picture>)
    returns (r: Result<Layout>, holdsNull: bool)
    requires palette.Valid()
    ensures r.Ok? ==> fresh(r.value)
    ensures Resulting(r, PlainFromRecord(rec, palette.black[..], palette.lightGray[..], files))
    ensures r.Ok? ==> PlainDelivered(r.value, holdsNull, name,
                                     PlainFromRecord(rec, palette.black[..], palette.lightGray[..], files).value)
  {
    ghost var black, gray := palette.black[..], palette.lightGray[..];
    var l := new Layout(name);
    holdsNull := false;
    ghost var c: PlainContents := Listed([]);
    if rec.elementList.Some? && |rec.elementList.value| > 0 {
      var entries := rec.elementList.value;
      for i := 0 to |entries|
        invariant l.name == name && l.layoutType == DEFAULT
        invariant PlainHolds(l, holdsNull, c)
        invariant PlainRead(entries[..i], black, gray, files) == Ok(c)
      {
        assert entries[..i + 1][..i] == entries[..i];
        var outcome, nullAfter, after := AddListed(l, entries[i], palette, files, holdsNull, c);
        if outcome.Failure? {
          PlainReadFails(entries, i + 1, black, gray, files);
          return Err(outcome.error), holdsNull;
        }
        holdsNull, c := nullAfter, after;
      }
      assert entries[..|entries|] == entries;
    }
    return Ok(l), holdsNull;
  }

  // ----- box layouts -----

  /** The elements a box reading has added, in the order they were added,
      and the cell each went to. */
  datatype BoxContents = BoxContents(list: seq<ElementView>, placed: seq<Position>)

  /** The entries of `xs` that sit at `q`, where `ps` gives the cell of
      each entry. */
  function Filter<T>(xs: seq<T>, ps: seq<Position>, q: Position): seq<T>
    requires |ps| == |xs|
  {
    if xs == [] then []
    else Filter(xs[..|xs| - 1], ps[..|xs| - 1], q) + (if ps[|xs| - 1] == q then [xs[|xs| - 1]] else [])
  }

  /** The elements of the cell `q`, in order. */
  function ContentsAt(c: BoxContents, q: Position): seq<ElementView>
    requires |c.placed| == |c.list|
  {
    Filter(c.list, c.placed, q)
  }

  /** The entries of a cell list, each with its cell; a null list has none. */
  function CellEntries<R>(cells: map<Position, seq<R>>, p: Position): (r: seq<(Position, R)>)
    ensures p in cells ==> |r| == |cells[p]|
    ensures p !in cells ==> r == []
  {
    if p in cells then seq(|cells[p]|, i requires 0 <= i < |cells[p]| => (p, cells[p][i])) else []
  }

  /** The entries of the first k cells in grid order, one cell after the other. */
  function BoxEntries<R>(cells: map<Position, seq<R>>, k: nat): seq<(Position, R)>
    requires k <= 9
  {
    if k == 0 then [] else BoxEntries(cells, k - 1) + CellEntries(cells, GridPosition(k - 1))
  }

  /** What InterfaceBoxLayout.Deserialize does with one entry of the cell
      `p`: the entry is read through InterfaceElement.Deserialize, a fault
      stops the reading, a null element (an unknown type included) makes
      AddElement throw, and an element whose name is taken is refused. */
  function BoxStep(c: BoxContents, p: Position, rec: ElementRecord<seq<int>>, black: seq<int>, gray: seq<int>,
                   files: map<string, Picture>): Result<BoxContents>
  {
    match ListedFromRecord(rec, black, gray, files)
    case Err(f) => Err(f)
    case Ok(None) => Err(NullReference)
    case Ok(Some(v)) => Ok(if ViewNameTaken(c.list, v.name) then c else BoxContents(c.list + [v], c.placed + [p]))
  }

  /** The elements a run of cell entries adds, or the fault that stops the
      reading. */
  function BoxRead(entries: seq<(Position, ElementRecord<seq<int>>)>, black: seq<int>, gray: seq<int>,
                   files: map<string, Picture>): (r: Result<BoxContents>)
    ensures r.Ok? ==> |r.value.placed| == |r.value.list|
  {
    if entries == [] then Ok(BoxContents([], []))
    else
      var n := |entries|;
      match BoxRead(entries[..n - 1], black, gray, files)
      case Err(f) => Err(f)
      case Ok(c) => BoxStep(c, entries[n - 1].0, entries[n - 1].1, black, gray, files)
  }

  lemma {:induction false} BoxReadFails(entries: seq<(Position, ElementRecord<seq<int>>)>, i: nat, black: seq<int>,
                                       gray: seq<int>, files: map<string, Picture>)
    requires i <= |entries| && BoxRead(entries[..i], black, gray, files).Err?
    ensures BoxRead(entries, black, gray, files) == BoxRead(entries[..i], black, gray, files)
    decreases |entries| - i
  {
    if i < |entries| {
      var n := |entries|;
      assert entries[..n - 1][..i] == entries[..i];
      BoxReadFails(entries[..n - 1], i, black, gray, files);
    } else {
      assert entries[..i] == entries;
    }
  }

  /** A ratio read as 0 is taken as 1. */
  function Repaired(ratio: int): (r: int)
    ensures r != 0
    ensures ratio != 0 ==> r == ratio
  {
    if ratio == 0 then 1 else ratio
  }

  /** The ratios InterfaceBoxLayout.Deserialize passes to setHorizontalRatio
      and setVerticalRatio. */
  function RatiosRead<C>(rec: LayoutRecord<C>): Ratios
  {
    Ratios(Repaired(rec.leftRatio), Repaired(rec.centreRatio), Repaired(rec.rightRatio),
           Repaired(rec.topRatio), Repaired(rec.middleRatio), Repaired(rec.bottomRatio))
  }

  /** The Spacing setter: values outside 0..10 are clamped. */
  function SpacingRead(spacing: int): (r: int)
    ensures 0 <= r <= 10
    ensures 0 <= spacing <= 10 ==> r == spacing
  {
    if spacing < 0 then 0 else if spacing > 10 then 10 else spacing
  }

  /** The box `b` is what InterfaceBoxLayout.Deserialize(name) builds from
      `rec` with the elements `c`: each cell holds the elements placed
      there, in the order they were added. */
  ghost predicate BoxDelivered(b: BoxLayout, name: string, rec: LayoutRecord<seq<int>>, c: BoxContents)
    reads b, b.base, b.base.elements
  {
    Holds(b, c) && b.base.name == name && b.CurrentRatios() == RatiosRead(rec) && b.flow == FlowAfter(rec.flow, RIGHT) &&
    b.spacing == SpacingRead(rec.spacing) && b.showGrid == rec.showGrid
  }

  /** The elements of the box are the elements `c` lists, in the cells it
      places them in. */
  ghost predicate Holds(b: BoxLayout, c: BoxContents)
    reads b`spacing, b`buckets, b.base, b.base.elements
  {
    b.Valid() && ShowsAll(b.base.elements, c.list) && |c.placed| == |b.base.elements| &&
    forall q: Position :: b.buckets[q] == Filter(b.base.elements, c.placed, q)
  }

  /** Puts an element read from a cell entry into cell `p`, unless its
      name is taken. */
  method PlaceView(b: BoxLayout, p: Position, e: Element, ghost v: ElementView, ghost c: BoxContents)
    returns (ghost after: BoxContents)
    requires Holds(b, c) && Shows(e, v)
    modifies b`buckets, b.base`listCreated, b.base`elements
    ensures Holds(b, after)
    ensures after == if ViewNameTaken(c.list, v.name) then c else BoxContents(c.list + [v], c.placed + [p])
  {
    after := c;
    ghost var es := b.base.elements;
    ShowsNames(es, c.list, v.name);
    var ok := b.AddToPosition(e, p);
    assert ShowsAll(es, c.list);
    if ok {
      ShowsSnoc(es, c.list, e, v);
      after := BoxContents(c.list + [v], c.placed + [p]);
      forall q: Position
        ensures b.buckets[q] == Filter(b.base.elements, after.placed, q)
      {
        assert b.base.elements[..|es|] == es;
        assert after.placed[..|es|] == c.placed;
      }
    }
  }

  /** The body of one of InterfaceBoxLayout.Deserialize's loops for one entry
      of the cell `p`: the static InterfaceElement.Deserialize, then
      AddToPosition. */
  method AddPlaced(b: BoxLayout, p: Position, rec: ElementRecord<seq<int>>, palette: Palette, files: map<string, Picture>,
                   ghost c: BoxContents) returns (r: Outcome, ghost after: BoxContents)
    requires palette.Valid() && Holds(b, c)
    modifies b`buckets, b.base`listCreated, b.base`elements
    ensures Holds(b, after)
    ensures r.Failure? ==> BoxStep(c, p, rec, palette.black[..], palette.lightGray[..], files) == Err(r.error)
    ensures r.Success? ==> BoxStep(c, p, rec, palette.black[..], palette.lightGray[..], files) == Ok(after)
  {
    after := c;
    ghost var spec := ListedFromRecord(rec, palette.black[..], palette.lightGray[..], files);
    var e := DeserializeListed(rec, palette, files);
    if e.Err? {
      return Failure(e.error), after;
    }
    if e.value == null {
      return Failure(NullReference), after;
    }
    after := PlaceView(b, p, e.value, spec.value.value, c);
    r := Success;
  }

  /** Adds the entries of a run to the box, as the nine loops of
      InterfaceBoxLayout.Deserialize do, one cell after the other. */
  method AddEntries(b: BoxLayout, entries: seq<(Position, ElementRecord<seq<int>>)>, palette: Palette,
                    files: map<string, Picture>) returns (r: Outcome, ghost c: BoxContents)
    requires palette.Valid() && Holds(b, BoxContents([], []))
    modifies b`buckets, b.base`listCreated, b.base`elements
    ensures Holds(b, c)
    ensures r.Failure? ==> BoxRead(entries, palette.black[..], palette.lightGray[..], files) == Err(r.error)
    ensures r.Success? ==> BoxRead(entries, palette.black[..], palette.lightGray[..], files) == Ok(c)
  {
    ghost var black, gray := palette.black[..], palette.lightGray[..];
    c := BoxContents([], []);
    for i := 0 to |entries|
      invariant Holds(b, c)
      invariant BoxRead(entries[..i], black, gray, files) == Ok(c)
    {
      assert entries[..i + 1][..i] == entries[..i];
      var outcome, after := AddPlaced(b, entries[i].0, entries[i].1, palette, files, c);
      if outcome.Failure? {
        BoxReadFails(entries, i + 1, black, gray, files);
        return outcome, after;
      }
      c := after;
    }
    assert entries[..|entries|] == entries;
    r := Success;
  }

  /** The end of InterfaceBoxLayout.Deserialize: the ratios, a 0 taken as
      1, the spacing and the grid flag. */
  method ApplySettings(b: BoxLayout, rec: LayoutRecord<seq<int>>, ghost c: BoxContents)
    requires Holds(b, c)
    modifies b`leftRatio, b`centreRatio, b`rightRatio, b`topRatio, b`middleRatio, b`bottomRatio, b`spacing, b`showGrid
    ensures Holds(b, c)
    ensures b.CurrentRatios() == RatiosRead(rec) && b.spacing == SpacingRead(rec.spacing) && b.showGrid == rec.showGrid
  {
    b.SetHorizontalRatio(Repaired(rec.leftRatio), Repaired(rec.centreRatio), Repaired(rec.rightRatio));
    b.SetVerticalRatio(Repaired(rec.topRatio), Repaired(rec.middleRatio), Repaired(rec.bottomRatio));
    b.SetSpacing(rec.spacing);
    b.showGrid := rec.showGrid;
  }

  /** InterfaceBoxLayout.Deserialize(name). */
  method DeserializeBox(rec: LayoutRecord<seq<int>>, name: string, palette: Palette, files: map<string, Picture>)
    returns (r: Result<BoxLayout>, ghost c: BoxContents)
    requires palette.Valid()
    ensures r.Ok? ==> fresh(r.value)
    ensures Resulting(r, BoxRead(BoxEntries(rec.cells, 9), palette.black[..], palette.lightGray[..], files))
    ensures r.Ok? ==> BoxRead(BoxEntries(rec.cells, 9), palette.black[..], palette.lightGray[..], files) == Ok(c)
    ensures r.Ok? ==> BoxDelivered(r.value, name, rec, c)
  {
    var b := new BoxLayout(name);
    b.flow := FlowAfter(rec.flow, b.flow);
    assert Holds(b, BoxContents([], []));
    var outcome;
    outcome, c := AddEntries(b, BoxEntries(rec.cells, 9), palette, files);
    if outcome.Failure? {
      return Err(outcome.error), c;
    }
    ApplySettings(b, rec, c);
    r := Ok(b);
  }

  // ----- signature layouts -----

  /** InterfaceSignatureLayout.Deserialize as written: the signer is set
      from the Why member. A null text is taken as "". */
  function SignatureTextsRead<C>(rec: LayoutRecord<C>): SignatureTexts
  {
    SignatureTexts(TextOrEmpty(rec.okText), TextOrEmpty(rec.clearText), TextOrEmpty(rec.cancelText),
                   TextOrEmpty(rec.why), TextOrEmpty(rec.why))
  }

  /** The reading evidently intended: the signer from the Who member. */
  function SignatureTextsIntended<C>(rec: LayoutRecord<C>): SignatureTexts
  {
    SignatureTexts(TextOrEmpty(rec.okText), TextOrEmpty(rec.clearText), TextOrEmpty(rec.cancelText),
                   TextOrEmpty(rec.who), TextOrEmpty(rec.why))
  }

  /** InterfaceSignatureLayout.Deserialize(name). */
  method DeserializeSignature(rec: LayoutRecord<seq<int>>, name: string) returns (s: SignatureLayout)
    ensures fresh(s) && fresh(s.base)
    ensures s.Valid() && s.base.name == name && s.base.elements == []
    ensures TextsOf(s) == SignatureTextsRead(rec)
  {
    s := new SignatureLayout(name, "", "", "", "", "");
    s.okText := TextOrEmpty(rec.okText);
    s.clearText := TextOrEmpty(rec.clearText);
    s.cancelText := TextOrEmpty(rec.cancelText);
    s.who := TextOrEmpty(rec.why);
    s.why := TextOrEmpty(rec.why);
  }

  // ----- dispatch -----

  /** JSONSerializer.DeserializeLayout: the text is first read as a plain
      layout, whose Layout member picks the class it is read as again; the
      layout gets the Name member. `holdsNull` says that a plain layout's
      list holds a null element. */
  method DeserializeLayout(text: LayoutRecord<seq<int>>, palette: Palette, files: map<string, Picture>)
    returns (r: Result<AnyLayout>, holdsNull: bool)
    requires palette.Valid()
    ensures r.Ok? ==> KindOf(r.value) == LayoutTypeNamed(text.layout)
    ensures holdsNull ==> LayoutTypeNamed(text.layout) == DEFAULT
    ensures LayoutTypeNamed(text.layout) == DEFAULT ==>
              Resulting(r, PlainFromRecord(text, palette.black[..], palette.lightGray[..], files)) &&
              (r.Ok? ==> fresh(r.value.layout) &&
                         PlainDelivered(r.value.layout, holdsNull, TextOrEmpty(text.name),
                                        PlainFromRecord(text, palette.black[..], palette.lightGray[..], files).value))
    ensures LayoutTypeNamed(text.layout) == BOX_LAYOUT ==>
              Resulting(r, BoxRead(BoxEntries(text.cells, 9), palette.black[..], palette.lightGray[..], files)) &&
              (r.Ok? ==> fresh(r.value.box) &&
                         BoxDelivered(r.value.box, TextOrEmpty(text.name), text,
                                      BoxRead(BoxEntries(text.cells, 9), palette.black[..], palette.lightGray[..], files).value))
    ensures LayoutTypeNamed(text.layout) == SIGNATURE_LAYOUT ==>
              r.Ok? && fresh(r.value.signature) && r.value.signature.Valid() &&
              r.value.signature.base.name == TextOrEmpty(text.name) && r.value.signature.base.elements == [] &&
              TextsOf(r.value.signature) == SignatureTextsRead(text)
  {
    var name := TextOrEmpty(text.name);
    if text.layout == Some(LayoutTypeName(BOX_LAYOUT)) {
      var b, c := DeserializeBox(text, name, palette, files);
      if b.Err? {
        return Err(b.error), false;
      }
      r, holdsNull := Ok(AnyLayout.Box(b.value)), false;
    } else if text.layout == Some(LayoutTypeName(SIGNATURE_LAYOUT)) {
      var s := DeserializeSignature(text, name);
      r, holdsNull := Ok(AnyLayout.Signature(s)), false;
    } else {
      var l, withNull := DeserializePlain(text, name, palette, files);
      if l.Err? {
        return Err(l.error), false;
      }
      r, holdsNull := Ok(AnyLayout.Plain(l.value)), withNull;
    }
  }
}

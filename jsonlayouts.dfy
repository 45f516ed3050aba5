// The layout records of JSONSerializer (InterfaceLayout, InterfaceBoxLayout
// and InterfaceSignatureLayout), SerializeLayout and DeserializeLayout. As
// for the element records, the JSON text is left abstract: a record read
// back is the record written, with the members its class lacks, or the
// text leaves out, read as null, 0 or false.
module JsonLayouts {
  import opened Wrappers
  import opened Text
  import opened Elements
  import opened Layouts
  import opened BoxLayouts
  import opened SignatureLayouts
  import opened JsonVocabulary
  import opened JsonElements

  /** The members of all three layout record classes. A cell list of the
      box record that is null (absent from the text) has no entry in
      `cells`. */
  datatype LayoutRecord<C> = LayoutRecord(
    layout: Option<string>, name: Option<string>,
    elementList: Option<seq<ElementRecord<C>>>,
    topRatio: int, middleRatio: int, bottomRatio: int,
    leftRatio: int, centreRatio: int, rightRatio: int,
    flow: Option<string>, spacing: int, showGrid: bool,
    cells: map<Position, seq<ElementRecord<C>>>,
    okText: Option<string>, clearText: Option<string>, cancelText: Option<string>,
    who: Option<string>, why: Option<string>)

  /** A record with every member null, 0 or false. */
  function BlankLayout<C>(): LayoutRecord<C>
  {
    LayoutRecord(None, None, None, 0, 0, 0, 0, 0, 0, None, 0, false, map[], None, None, None, None, None)
  }

  /** The layouts SerializeLayout tells apart by their runtime class. */
  datatype AnyLayout = Plain(layout: Layout) | Box(box: BoxLayout) | Signature(signature: SignatureLayout)

  function KindOf(l: AnyLayout): LayoutType
  {
    match l
    case Plain(_) => DEFAULT
    case Box(_) => BOX_LAYOUT
    case Signature(_) => SIGNATURE_LAYOUT
  }

  // ----- the grid order of the box cells -----

  /** The elements of the first k cells in grid order, one cell after the other. */
  function GridOrder(cells: map<Position, seq<Element>>, k: nat): seq<Element>
    requires k <= 9 && forall p: Position :: p in cells
  {
    if k == 0 then [] else GridOrder(cells, k - 1) + cells[GridPosition(k - 1)]
  }

  lemma {:induction false} GridOrderGrows(cells: map<Position, seq<Element>>, k: nat, m: nat)
    requires k <= m <= 9 && forall p: Position :: p in cells
    ensures |GridOrder(cells, k)| <= |GridOrder(cells, m)|
    decreases m - k
  {
    if k < m {
      GridOrderGrows(cells, k, m - 1);
    }
  }

  // ----- elements as values -----

  /** The states of a list of element objects. */
  function Views(es: seq<Element>): (vs: seq<ElementView>)
    reads es
    ensures |vs| == |es|
  {
    if es == [] then [] else Views(es[..|es| - 1]) + [ViewOf(es[|es| - 1])]
  }

  lemma {:induction false} ViewsIndex(es: seq<Element>, i: int)
    requires 0 <= i < |es|
    ensures Views(es)[i] == ViewOf(es[i])
  {
    if i < |es| - 1 {
      ViewsIndex(es[..|es| - 1], i);
    }
  }

  /** Each element object is in the state listed for it. */
  predicate ShowsAll(es: seq<Element>, vs: seq<ElementView>)
    reads es
  {
    |es| == |vs| && forall i :: 0 <= i < |es| ==> Shows(es[i], vs[i])
  }

  predicate ViewNameTaken(vs: seq<ElementView>, name: string)
  {
    exists i :: 0 <= i < |vs| && vs[i].name == name
  }

  /** Objects in the listed states carry the listed names. */
  lemma ShowsNames(es: seq<Element>, vs: seq<ElementView>, name: string)
    requires ShowsAll(es, vs)
    ensures NameTaken(es, name) <==> ViewNameTaken(vs, name)
  {
    if NameTaken(es, name) {
      var i :| 0 <= i < |es| && es[i].name == name;
      assert vs[i].name == name;
    }
    if ViewNameTaken(vs, name) {
      var i :| 0 <= i < |vs| && vs[i].name == name;
      assert es[i].name == name;
    }
  }

  // ----- writing -----

  /** The records of a run of elements; `saves` are the outcomes of saving
      the images' pictures, one per element. */
  function RecordsOf(vs: seq<ElementView>, saves: seq<SaveResult>): (r: seq<ElementRecord<ColorRef>>)
    requires |saves| == |vs|
    ensures |r| == |vs|
  {
    if vs == [] then []
    else RecordsOf(vs[..|vs| - 1], saves[..|vs| - 1]) + [RecordOf(vs[|vs| - 1], saves[|vs| - 1])]
  }

  /** The contents of the shared colour arrays after serialising a run of
      elements, one after the other. */
  function PaletteAfterAll(vs: seq<ElementView>, black: seq<int>, gray: seq<int>): (seq<int>, seq<int>)
  {
    if vs == [] then (black, gray)
    else
      var p := PaletteAfterAll(vs[..|vs| - 1], black, gray);
      PaletteAfter(vs[|vs| - 1], p.0, p.1)
  }

  /** Serialising two runs one after the other leaves the arrays as the
      second run does, starting from what the first left. */
  lemma {:induction false} PaletteAfterAllAppend(u: seq<ElementView>, v: seq<ElementView>, black: seq<int>, gray: seq<int>)
    ensures var p := PaletteAfterAll(u, black, gray);
            PaletteAfterAll(u + v, black, gray) == PaletteAfterAll(v, p.0, p.1)
    decreases |v|
  {
    if v == [] {
      assert u + v == u;
    } else {
      var n := |v|;
      assert (u + v)[..|u + v| - 1] == u + v[..n - 1];
      assert (u + v)[|u + v| - 1] == v[n - 1];
      PaletteAfterAllAppend(u, v[..n - 1], black, gray);
    }
  }

  /** The record of a run of elements as the text holds it, the shared
      arrays having the contents `black` and `gray` when it is written. */
  function WrittenList(l: seq<ElementRecord<ColorRef>>, black: seq<int>, gray: seq<int>): seq<ElementRecord<seq<int>>>
  {
    seq(|l|, i requires 0 <= i < |l| => Written(l[i], black, gray))
  }

  /** The layout record as the text holds it: every colour member of every
      element record resolved against the arrays' contents at that time. */
  function WrittenLayout(r: LayoutRecord<ColorRef>, black: seq<int>, gray: seq<int>): (w: LayoutRecord<seq<int>>)
  {
    LayoutRecord(r.layout, r.name,
                 if r.elementList.None? then None else Some(WrittenList(r.elementList.value, black, gray)),
                 r.topRatio, r.middleRatio, r.bottomRatio, r.leftRatio, r.centreRatio, r.rightRatio,
                 r.flow, r.spacing, r.showGrid,
                 map p | p in r.cells :: WrittenList(r.cells[p], black, gray),
                 r.okText, r.clearText, r.cancelText, r.who, r.why)
  }

  /** InterfaceLayout.Serialize: the name, the type DEFAULT and a record
      per element, in list order. */
  function PlainRecordOf(name: string, vs: seq<ElementView>, saves: seq<SaveResult>): LayoutRecord<ColorRef>
    requires |saves| == |vs|
  {
    BlankLayout().(layout := Some(LayoutTypeName(DEFAULT)), name := Some(name), elementList := Some(RecordsOf(vs, saves)))
  }

  /** An InterfaceBoxLayout as built: the ratios, flow, spacing and grid
      flag keep their initial values whatever the layout's are. */
  function BoxShell(name: string, cells: map<Position, seq<ElementRecord<ColorRef>>>): LayoutRecord<ColorRef>
  {
    BlankLayout().(layout := Some(LayoutTypeName(BOX_LAYOUT)), name := Some(name), elementList := Some([]),
                   topRatio := 1, middleRatio := 1, bottomRatio := 1, leftRatio := 1, centreRatio := 1, rightRatio := 1,
                   flow := Some(FlowName(RIGHT)), spacing := 0, showGrid := false, cells := cells)
  }

  /** The record evidently intended for a box: the cells together with the
      ratios, flow, spacing and grid flag the box has. */
  function BoxRecordIntended(name: string, cells: map<Position, seq<ElementRecord<ColorRef>>>, ratios: Ratios, flow: Flow,
                             spacing: int, showGrid: bool): LayoutRecord<ColorRef>
  {
    BoxShell(name, cells).(topRatio := ratios.top, middleRatio := ratios.middle, bottomRatio := ratios.bottom,
                           leftRatio := ratios.left, centreRatio := ratios.centre, rightRatio := ratios.right,
                           flow := Some(FlowName(flow)), spacing := spacing, showGrid := showGrid)
  }

  /** Where a cell's elements start in the grid order. */
  function CellStart(cells: map<Position, seq<Element>>, p: Position): (n: nat)
    requires forall q: Position :: q in cells
    ensures n + |cells[p]| <= |GridOrder(cells, 9)|
  {
    GridOrderGrows(cells, GridIndex(p) + 1, 9);
    GridPositionOf(p);
    |GridOrder(cells, GridIndex(p))|
  }

  /** A cell's own stretch of something kept per element in grid order (the
      elements' states, their records, the outcomes of saving their
      pictures). */
  function CellSlice<T>(xs: seq<T>, cells: map<Position, seq<Element>>, p: Position): (r: seq<T>)
    requires (forall q: Position :: q in cells) && |xs| == |GridOrder(cells, 9)|
    ensures |r| == |cells[p]|
  {
    xs[CellStart(cells, p)..CellStart(cells, p) + |cells[p]|]
  }

  /** The grid order holds each cell's elements at the cell's start. */
  lemma GridSlice(cells: map<Position, seq<Element>>, p: Position)
    requires forall q: Position :: q in cells
    ensures GridOrder(cells, 9)[CellStart(cells, p)..CellStart(cells, p) + |cells[p]|] == cells[p]
  {
    var k := GridIndex(p);
    GridPositionOf(p);
    GridOrderPrefix(cells, k + 1, 9);
    assert GridOrder(cells, k + 1) == GridOrder(cells, k) + cells[p];
  }

  lemma {:induction false} GridOrderPrefix(cells: map<Position, seq<Element>>, k: nat, m: nat)
    requires k <= m <= 9 && forall p: Position :: p in cells
    ensures |GridOrder(cells, k)| <= |GridOrder(cells, m)|
    ensures GridOrder(cells, m)[..|GridOrder(cells, k)|] == GridOrder(cells, k)
    decreases m - k
  {
    if k < m {
      GridOrderPrefix(cells, k, m - 1);
      var a := GridOrder(cells, m - 1);
      assert GridOrder(cells, m) == a + cells[GridPosition(m - 1)];
      assert (a + cells[GridPosition(m - 1)])[..|GridOrder(cells, k)|] == a[..|GridOrder(cells, k)|];
    }
  }

  /** The states of a stretch of objects are that stretch of their states. */
  lemma ViewsSlice(es: seq<Element>, i: nat, j: nat)
    requires i <= j <= |es|
    ensures Views(es[i..j]) == Views(es)[i..j]
  {
    var u, w := Views(es[i..j]), Views(es)[i..j];
    assert |u| == |w|;
    forall n | 0 <= n < j - i
      ensures u[n] == w[n]
    {
      ViewsIndex(es[i..j], n);
      ViewsIndex(es, i + n);
    }
  }

  lemma {:induction false} RecordsIndex(vs: seq<ElementView>, saves: seq<SaveResult>, i: int)
    requires |saves| == |vs| && 0 <= i < |vs|
    ensures RecordsOf(vs, saves)[i] == RecordOf(vs[i], saves[i])
  {
    if i < |vs| - 1 {
      RecordsIndex(vs[..|vs| - 1], saves[..|vs| - 1], i);
    }
  }

  /** The records of a stretch of elements are that stretch of the records. */
  lemma RecordsSlice(vs: seq<ElementView>, saves: seq<SaveResult>, i: nat, j: nat)
    requires |saves| == |vs| && i <= j <= |vs|
    ensures RecordsOf(vs[i..j], saves[i..j]) == RecordsOf(vs, saves)[i..j]
  {
    var u, s := vs[i..j], saves[i..j];
    var x, all := RecordsOf(u, s), RecordsOf(vs, saves);
    forall n | 0 <= n < j - i
      ensures x[n] == all[i + n]
    {
      RecordsIndex(u, s, n);
      assert u[n] == vs[i + n] && s[n] == saves[i + n];
      RecordsIndex(vs, saves, i + n);
    }
    assert x == all[i..j];
  }

  /** The texts of a SignatureLayout. */
  datatype SignatureTexts = SignatureTexts(ok: string, clear: string, cancel: string, who: string, why: string)

  function TextsOf(s: SignatureLayout): SignatureTexts
    reads s
  {
    SignatureTexts(s.okText, s.clearText, s.cancelText, s.who, s.why)
  }

  /** InterfaceSignatureLayout.Serialize: the name, the type
      SIGNATURE_LAYOUT and the five texts; the element list stays empty. */
  function SignatureRecordOf(name: string, t: SignatureTexts): LayoutRecord<ColorRef>
  {
    BlankLayout().(layout := Some(LayoutTypeName(SIGNATURE_LAYOUT)), name := Some(name), elementList := Some([]),
                   okText := Some(t.ok), clearText := Some(t.clear), cancelText := Some(t.cancel),
                   who := Some(t.who), why := Some(t.why))
  }

  /** The records of a run of elements, serialised one after the other. */
  method SerializeAll(es: seq<Element>, palette: Palette, saves: seq<SaveResult>) returns (recs: seq<ElementRecord<ColorRef>>)
    requires palette.Valid() && |saves| == |es|
    modifies palette.black, palette.lightGray
    ensures palette.Valid()
    ensures recs == RecordsOf(old(Views(es)), saves)
    ensures (palette.black[..], palette.lightGray[..]) == PaletteAfterAll(old(Views(es)), old(palette.black[..]), old(palette.lightGray[..]))
  {
    recs := [];
    ghost var vs := Views(es);
    for i := 0 to |es|
      invariant palette.Valid()
      invariant recs == RecordsOf(vs[..i], saves[..i])
      invariant (palette.black[..], palette.lightGray[..]) == PaletteAfterAll(vs[..i], old(palette.black[..]), old(palette.lightGray[..]))
    {
      ViewsIndex(es, i);
      var rec := SerializeElement(es[i], palette, saves[i]);
      recs := recs + [rec];
      assert vs[..i + 1][..i] == vs[..i];
      assert saves[..i + 1][..i] == saves[..i];
    }
    assert vs[..|es|] == vs;
    assert saves[..|es|] == saves;
  }

  /** InterfaceLayout.Serialize. */
  method SerializePlain(l: Layout, palette: Palette, saves: seq<SaveResult>) returns (rec: LayoutRecord<ColorRef>)
    requires l.Valid() && palette.Valid() && |saves| == |l.elements|
    modifies palette.black, palette.lightGray
    ensures palette.Valid()
    ensures rec == PlainRecordOf(l.name, Views(l.elements), saves)
    ensures (palette.black[..], palette.lightGray[..]) == PaletteAfterAll(Views(l.elements), old(palette.black[..]), old(palette.lightGray[..]))
  {
    var list: seq<ElementRecord<ColorRef>> := [];
    if l.listCreated && |l.elements| > 0 {
      list := SerializeAll(l.elements, palette, saves);
    }
    rec := BlankLayout().(layout := Some(LayoutTypeName(DEFAULT)), name := Some(l.name), elementList := Some(list));
  }

  /** The records of a grid-order run cut back into the nine cells. */
  function Cut(recs: seq<ElementRecord<ColorRef>>, cells: map<Position, seq<Element>>): (r: map<Position, seq<ElementRecord<ColorRef>>>)
    requires forall p: Position :: p in cells
    requires |recs| == |GridOrder(cells, 9)|
    ensures forall p: Position :: p in r && |r[p]| == |cells[p]|
  {
    map p: Position :: CellSlice(recs, cells, p)
  }

  /** Cutting the records of a whole run gives each cell the records of its
      own elements with its own save results. */
  lemma CutRecords(vs: seq<ElementView>, saves: seq<SaveResult>, cells: map<Position, seq<Element>>, p: Position)
    requires forall q: Position :: q in cells
    requires |vs| == |saves| == |GridOrder(cells, 9)|
    ensures Cut(RecordsOf(vs, saves), cells)[p] == RecordsOf(CellSlice(vs, cells, p), CellSlice(saves, cells, p))
  {
    var all := RecordsOf(vs, saves);
    var i, j := CellStart(cells, p), CellStart(cells, p) + |cells[p]|;
    var u, w := CellSlice(vs, cells, p), CellSlice(saves, cells, p);
    assert u == vs[i..j] by {
      CellSliceIs(vs, cells, p);
    }
    assert w == saves[i..j] by {
      CellSliceIs(saves, cells, p);
    }
    assert CellSlice(all, cells, p) == all[i..j] by {
      CellSliceIs(all, cells, p);
    }
    RecordsSlice(vs, saves, i, j);
  }

  /** CellSlice is the slice from the cell's start. */
  lemma CellSliceIs<T>(xs: seq<T>, cells: map<Position, seq<Element>>, p: Position)
    requires (forall q: Position :: q in cells) && |xs| == |GridOrder(cells, 9)|
    ensures CellSlice(xs, cells, p) == xs[CellStart(cells, p)..CellStart(cells, p) + |cells[p]|]
  {
  }

  /** The states of one cell's elements are the matching slice of the states
      of the grid-order run. */
  lemma CellViews(cells: map<Position, seq<Element>>, p: Position)
    requires forall q: Position :: q in cells
    ensures Views(cells[p]) == CellSlice(Views(GridOrder(cells, 9)), cells, p)
  {
    GridSlice(cells, p);
    ViewsSlice(GridOrder(cells, 9), CellStart(cells, p), CellStart(cells, p) + |cells[p]|);
  }

  /** InterfaceBoxLayout.Serialize: each cell's elements through
      GetInterfaceElement, cell by cell in grid order. */
  method SerializeBox(b: BoxLayout, palette: Palette, saves: seq<SaveResult>) returns (rec: LayoutRecord<ColorRef>)
    requires b.Valid() && palette.Valid() && |saves| == |GridOrder(b.buckets, 9)|
    modifies palette.black, palette.lightGray
    ensures palette.Valid()
    ensures rec == BoxShell(b.base.name, Cut(RecordsOf(old(Views(GridOrder(b.buckets, 9))), saves), b.buckets))
    ensures (palette.black[..], palette.lightGray[..])
              == PaletteAfterAll(old(Views(GridOrder(b.buckets, 9))), old(palette.black[..]), old(palette.lightGray[..]))
  {
    var buckets := b.buckets;
    var recs := SerializeAll(GridOrder(buckets, 9), palette, saves);
    rec := BoxShell(b.base.name, Cut(recs, buckets));
  }

  /** What SerializeBox writes for one cell: the records of that cell's
      elements, in the cell's order. */
  lemma BoxCellRecords(b: BoxLayout, saves: seq<SaveResult>, p: Position)
    requires b.Valid() && |saves| == |GridOrder(b.buckets, 9)|
    ensures Cut(RecordsOf(Views(GridOrder(b.buckets, 9)), saves), b.buckets)[p]
            == RecordsOf(Views(b.buckets[p]), CellSlice(saves, b.buckets, p))
  {
    CellViews(b.buckets, p);
    CutRecords(Views(GridOrder(b.buckets, 9)), saves, b.buckets, p);
  }

  /** The states of two runs of objects, one after the other. */
  lemma {:induction false} ViewsAppend(a: seq<Element>, b: seq<Element>)
    ensures Views(a + b) == Views(a) + Views(b)
  {
    assert |Views(a + b)| == |Views(a) + Views(b)|;
    forall i | 0 <= i < |a + b|
      ensures Views(a + b)[i] == (Views(a) + Views(b))[i]
    {
      ViewsIndex(a + b, i);
      if i < |a| {
        assert (a + b)[i] == a[i];
        ViewsIndex(a, i);
      } else {
        assert (a + b)[i] == b[i - |a|];
        ViewsIndex(b, i - |a|);
      }
    }
  }

  /** InterfaceSignatureLayout.Serialize. */
  method SerializeSignature(s: SignatureLayout) returns (rec: LayoutRecord<ColorRef>)
    ensures rec == SignatureRecordOf(s.base.name, TextsOf(s))
  {
    rec := BlankLayout().(layout := Some(LayoutTypeName(SIGNATURE_LAYOUT)), name := Some(s.base.name), elementList := Some([]));
    rec := rec.(okText := Some(s.okText), cancelText := Some(s.cancelText), clearText := Some(s.clearText));
    rec := rec.(who := Some(s.who), why := Some(s.why));
  }

  /** JSONSerializer.SerializeLayout: the record of the layout's runtime
      class, written out once it is complete, with the colours the shared
      arrays then hold. */
  method SerializeLayout(l: AnyLayout, palette: Palette, saves: seq<SaveResult>) returns (text: LayoutRecord<seq<int>>)
    requires palette.Valid()
    requires l.Plain? ==> l.layout.Valid() && |saves| == |l.layout.elements|
    requires l.Box? ==> l.box.Valid() && |saves| == |GridOrder(l.box.buckets, 9)|
    modifies palette.black, palette.lightGray
    ensures palette.Valid()
    ensures text.layout == Some(LayoutTypeName(KindOf(l)))
    ensures l.Plain? ==>
              text == WrittenLayout(PlainRecordOf(l.layout.name, Views(l.layout.elements), saves), palette.black[..], palette.lightGray[..]) &&
              (palette.black[..], palette.lightGray[..]) == PaletteAfterAll(Views(l.layout.elements), old(palette.black[..]), old(palette.lightGray[..]))
    ensures l.Box? ==>
              text == WrittenLayout(BoxShell(l.box.base.name, Cut(RecordsOf(old(Views(GridOrder(l.box.buckets, 9))), saves), l.box.buckets)),
                                    palette.black[..], palette.lightGray[..]) &&
              (palette.black[..], palette.lightGray[..])
                == PaletteAfterAll(old(Views(GridOrder(l.box.buckets, 9))), old(palette.black[..]), old(palette.lightGray[..]))
    ensures l.Signature? ==>
              text == WrittenLayout(SignatureRecordOf(l.signature.base.name, TextsOf(l.signature)), palette.black[..], palette.lightGray[..]) &&
              palette.black[..] == old(palette.black[..]) && palette.lightGray[..] == old(palette.lightGray[..])
  {
    var rec;
    match l {
      case Plain(layout) =>
        rec := SerializePlain(layout, palette, saves);
      case Box(box) =>
        rec := SerializeBox(box, palette, saves);
      case Signature(signature) =>
        rec := SerializeSignature(signature);
    }
    text := WrittenLayout(rec, palette.black[..], palette.lightGray[..]);
  }
}

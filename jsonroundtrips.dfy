// What a layout written by SerializeLayout reads back as through
// DeserializeLayout, the shared colour arrays holding the same contents at
// both times: the elements of a plain layout and of each box cell come back
// in order, the box settings and the signer do not.
module JsonRoundTrips {
  import opened Wrappers
  import opened Text
  import opened Elements
  import opened Layouts
  import opened BoxLayouts
  import opened SignatureLayouts
  import opened JsonVocabulary
  import opened JsonElements
  import opened JsonLayouts
  import opened JsonLayoutReads

  /** The element in the state `v`, written with the outcome `save` of
      saving its picture while the shared arrays hold `black` and `gray`, is
      read back in that state by the static InterfaceElement.Deserialize
      (TextRoundTrip, ButtonRoundTrip, LineRoundTrip and ImageRoundTrip say
      when). */
  predicate ReadsBack(v: ElementView, save: SaveResult, black: seq<int>, gray: seq<int>, files: map<string, Picture>)
  {
    ElementFromRecord(Written(RecordOf(v, save), black, gray), black, gray, files) == Ok(Some(v))
  }

  predicate AllReadBack(vs: seq<ElementView>, saves: seq<SaveResult>, black: seq<int>, gray: seq<int>,
                        files: map<string, Picture>)
  {
    |saves| == |vs| && forall i :: 0 <= i < |vs| ==> ReadsBack(vs[i], saves[i], black, gray, files)
  }

  predicate DistinctNames(vs: seq<ElementView>)
  {
    forall i, j :: 0 <= i < j < |vs| ==> vs[i].name != vs[j].name
  }

  lemma Snoc<T>(xs: seq<T>)
    requires xs != []
    ensures xs[..|xs| - 1] + [xs[|xs| - 1]] == xs
  {
  }

  lemma NamesFresh(vs: seq<ElementView>)
    requires vs != [] && DistinctNames(vs)
    ensures DistinctNames(vs[..|vs| - 1])
    ensures !ViewNameTaken(vs[..|vs| - 1], vs[|vs| - 1].name)
  {
  }

  /** A record that reads back is read from a list, too. */
  lemma ListedReadsBack(v: ElementView, save: SaveResult, black: seq<int>, gray: seq<int>, files: map<string, Picture>)
    requires ReadsBack(v, save, black, gray, files)
    ensures ListedFromRecord(Written(RecordOf(v, save), black, gray), black, gray, files) == Ok(Some(v))
  {
    RecordOfListed(v, save, black, gray, files);
  }

  /** An entry read as an element with a name not yet taken adds that
      element, in a plain layout and in a box. */
  lemma StepAdds(vs: seq<ElementView>, c: BoxContents, p: Position, rec: ElementRecord<seq<int>>, v: ElementView,
                 black: seq<int>, gray: seq<int>, files: map<string, Picture>)
    requires ListedFromRecord(rec, black, gray, files) == Ok(Some(v))
    ensures !ViewNameTaken(vs, v.name) ==> PlainStep(Listed(vs), rec, black, gray, files) == Ok(Listed(vs + [v]))
    ensures !ViewNameTaken(c.list, v.name) ==>
              BoxStep(c, p, rec, black, gray, files) == Ok(BoxContents(c.list + [v], c.placed + [p]))
  {
  }

  // ----- plain layouts -----

  lemma ReadBackPrefix(vs: seq<ElementView>, saves: seq<SaveResult>, black: seq<int>, gray: seq<int>,
                       files: map<string, Picture>)
    requires vs != [] && AllReadBack(vs, saves, black, gray, files)
    ensures AllReadBack(vs[..|vs| - 1], saves[..|vs| - 1], black, gray, files)
    ensures ReadsBack(vs[|vs| - 1], saves[|vs| - 1], black, gray, files)
  {
    var n := |vs|;
    var u, s := vs[..n - 1], saves[..n - 1];
    forall i | 0 <= i < n - 1
      ensures ReadsBack(u[i], s[i], black, gray, files)
    {
      assert u[i] == vs[i] && s[i] == saves[i];
    }
  }

  /** The written records of a run end with the last element's record. */
  lemma WrittenPrefix(vs: seq<ElementView>, saves: seq<SaveResult>, black: seq<int>, gray: seq<int>)
    requires vs != [] && |saves| == |vs|
    ensures var w := WrittenList(RecordsOf(vs, saves), black, gray);
            |w| == |vs| &&
            w[..|vs| - 1] == WrittenList(RecordsOf(vs[..|vs| - 1], saves[..|vs| - 1]), black, gray) &&
            w[|vs| - 1] == Written(RecordOf(vs[|vs| - 1], saves[|vs| - 1]), black, gray)
  {
    var n := |vs|;
    var w := WrittenList(RecordsOf(vs, saves), black, gray);
    assert RecordsOf(vs, saves) == RecordsOf(vs[..n - 1], saves[..n - 1]) + [RecordOf(vs[n - 1], saves[n - 1])];
    assert w[..n - 1] == WrittenList(RecordsOf(vs[..n - 1], saves[..n - 1]), black, gray);
  }

  /** Elements with distinct names that each read back are read back in
      order from the records they were written as. */
  lemma {:induction false} PlainReadBack(vs: seq<ElementView>, saves: seq<SaveResult>, black: seq<int>, gray: seq<int>,
                                         files: map<string, Picture>)
    requires AllReadBack(vs, saves, black, gray, files) && DistinctNames(vs)
    ensures PlainRead(WrittenList(RecordsOf(vs, saves), black, gray), black, gray, files) == Ok(Listed(vs))
  {
    if vs != [] {
      var n := |vs|;
      var u, s, v := vs[..n - 1], saves[..n - 1], vs[n - 1];
      NamesFresh(vs);
      ReadBackPrefix(vs, saves, black, gray, files);
      PlainReadBack(u, s, black, gray, files);
      WrittenPrefix(vs, saves, black, gray);
      var w := WrittenList(RecordsOf(vs, saves), black, gray);
      ListedReadsBack(v, saves[n - 1], black, gray, files);
      StepAdds(u, BoxContents([], []), TOP_LEFT, w[n - 1], v, black, gray, files);
      Snoc(vs);
    }
  }

  /** A plain layout whose elements have distinct names and each read back
      is read back as a plain layout with its name and its elements, in
      order. */
  lemma PlainRoundTrip(name: string, vs: seq<ElementView>, saves: seq<SaveResult>, black: seq<int>, gray: seq<int>,
                       files: map<string, Picture>)
    requires AllReadBack(vs, saves, black, gray, files) && DistinctNames(vs)
    ensures var w := WrittenLayout(PlainRecordOf(name, vs, saves), black, gray);
            LayoutTypeNamed(w.layout) == DEFAULT && TextOrEmpty(w.name) == name &&
            PlainFromRecord(w, black, gray, files) == Ok(Listed(vs))
  {
    LayoutTypeNames(DEFAULT, None);
    PlainReadBack(vs, saves, black, gray, files);
  }

  // ----- box layouts -----

  /** The cell `p`, `n` times. */
  function Repeat(p: Position, n: nat): (r: seq<Position>)
    ensures |r| == n && forall i :: 0 <= i < n ==> r[i] == p
  {
    seq(n, _ => p)
  }

  /** The cell of each element of the grid order. */
  function PlacedOrder(cells: map<Position, seq<Element>>, k: nat): (r: seq<Position>)
    requires k <= 9 && forall p: Position :: p in cells
    ensures |r| == |GridOrder(cells, k)|
  {
    if k == 0 then [] else PlacedOrder(cells, k - 1) + Repeat(GridPosition(k - 1), |cells[GridPosition(k - 1)]|)
  }

  lemma {:induction false} FilterAppend<T>(xs: seq<T>, ps: seq<Position>, ys: seq<T>, qs: seq<Position>, q: Position)
    requires |ps| == |xs| && |qs| == |ys|
    ensures Filter(xs + ys, ps + qs, q) == Filter(xs, ps, q) + Filter(ys, qs, q)
    decreases |ys|
  {
    if ys == [] {
      assert xs + ys == xs && ps + qs == ps;
    } else {
      var m := |ys|;
      FilterAppend(xs, ps, ys[..m - 1], qs[..m - 1], q);
      assert (xs + ys)[..|xs + ys| - 1] == xs + ys[..m - 1];
      assert (ps + qs)[..|ps + qs| - 1] == ps + qs[..m - 1];
    }
  }

  /** A run placed in one cell is all of that cell's, and none of another's. */
  lemma {:induction false} FilterOne<T>(ys: seq<T>, n: nat, p: Position, q: Position)
    requires n == |ys|
    ensures Filter(ys, Repeat(p, n), q) == if p == q then ys else []
    decreases n
  {
    if ys != [] {
      FilterOne(ys[..n - 1], n - 1, p, q);
      assert Repeat(p, n)[..n - 1] == Repeat(p, n - 1);
      Snoc(ys);
    }
  }

  /** Picking a cell's elements out of the grid order gives that cell, once
      the grid order has reached it. */
  lemma {:induction false} GridFilter(cells: map<Position, seq<Element>>, k: nat, q: Position)
    requires k <= 9 && forall p: Position :: p in cells
    ensures Filter(Views(GridOrder(cells, k)), PlacedOrder(cells, k), q) == if GridIndex(q) < k then Views(cells[q]) else []
  {
    if k > 0 {
      GridFilter(cells, k - 1, q);
      CellFilter(cells, k, q);
      GridPositionOf(q);
      assert GridPosition(k - 1) == q <==> GridIndex(q) == k - 1;
    }
  }

  /** The k-th cell adds its own elements when it is the cell picked, and
      nothing otherwise. */
  lemma CellFilter(cells: map<Position, seq<Element>>, k: nat, q: Position)
    requires 0 < k <= 9 && forall p: Position :: p in cells
    ensures Filter(Views(GridOrder(cells, k)), PlacedOrder(cells, k), q)
              == Filter(Views(GridOrder(cells, k - 1)), PlacedOrder(cells, k - 1), q)
                 + (if GridPosition(k - 1) == q then Views(cells[q]) else [])
  {
    var p := GridPosition(k - 1);
    var a, e := GridOrder(cells, k - 1), cells[p];
    var ps, es := PlacedOrder(cells, k - 1), Repeat(p, |e|);
    assert GridOrder(cells, k) == a + e;
    assert PlacedOrder(cells, k) == ps + es;
    ViewsAppend(a, e);
    FilterAppend(Views(a), ps, Views(e), es, q);
    FilterOne(Views(e), |e|, p, q);
  }

  /** Each entry of a cell, paired with the cell. */
  function Pairs<R>(placed: seq<Position>, xs: seq<R>): (r: seq<(Position, R)>)
    requires |placed| == |xs|
    ensures |r| == |xs|
  {
    seq(|xs|, i requires 0 <= i < |xs| => (placed[i], xs[i]))
  }

  /** The cell entries, read one cell after the other, of a map of cells
      each holding its stretch of a run kept in grid order: that run, each
      entry paired with its cell. */
  lemma {:induction false} EntriesInGridOrder<R>(cells: map<Position, seq<Element>>, flat: seq<R>,
                                                 text: map<Position, seq<R>>, k: nat)
    requires k <= 9 && (forall p: Position :: p in cells) && |flat| == |GridOrder(cells, 9)|
    requires forall p: Position :: p in text && text[p] == CellSlice(flat, cells, p)
    ensures |GridOrder(cells, k)| <= |flat|
    ensures BoxEntries(text, k) == Pairs(PlacedOrder(cells, k), flat[..|GridOrder(cells, k)|])
  {
    GridOrderGrows(cells, k, 9);
    if k > 0 {
      EntriesInGridOrder(cells, flat, text, k - 1);
      var p := GridPosition(k - 1);
      var start, end := |GridOrder(cells, k - 1)|, |GridOrder(cells, k)|;
      CellStretch(cells, flat, text, k);
      assert PlacedOrder(cells, k) == PlacedOrder(cells, k - 1) + Repeat(p, |cells[p]|);
      assert BoxEntries(text, k) == BoxEntries(text, k - 1) + CellEntries(text, p);
      PairsSplit(PlacedOrder(cells, k - 1), Repeat(p, |cells[p]|), flat, start, end);
    }
  }

  /** The entries of the k-th cell pair it with its stretch of the run. */
  lemma CellStretch<R>(cells: map<Position, seq<Element>>, flat: seq<R>, text: map<Position, seq<R>>, k: nat)
    requires 0 < k <= 9 && (forall p: Position :: p in cells) && |flat| == |GridOrder(cells, 9)|
    requires forall p: Position :: p in text && text[p] == CellSlice(flat, cells, p)
    ensures |GridOrder(cells, k - 1)| + |cells[GridPosition(k - 1)]| == |GridOrder(cells, k)| <= |flat|
    ensures CellEntries(text, GridPosition(k - 1))
              == Pairs(Repeat(GridPosition(k - 1), |cells[GridPosition(k - 1)]|), flat[|GridOrder(cells, k - 1)|..|GridOrder(cells, k)|])
  {
    GridOrderGrows(cells, k, 9);
    var p := GridPosition(k - 1);
    var start, e := |GridOrder(cells, k - 1)|, cells[p];
    assert GridOrder(cells, k) == GridOrder(cells, k - 1) + e;
    GridPositionOf(p);
    assert CellStart(cells, p) == start;
    SliceAt(flat, cells, p);
    assert text[p] == flat[start..start + |e|];
    CellPairs(text, p);
  }

  lemma PairsSplit<R>(ps: seq<Position>, qs: seq<Position>, xs: seq<R>, n: nat, m: nat)
    requires |ps| == n && n + |qs| == m && m <= |xs|
    ensures Pairs(ps + qs, xs[..m]) == Pairs(ps, xs[..n]) + Pairs(qs, xs[n..m])
  {
    assert xs[..m] == xs[..n] + xs[n..m];
    PairsAppend(ps, xs[..n], qs, xs[n..m]);
  }

  lemma PairsAppend<R>(ps: seq<Position>, xs: seq<R>, qs: seq<Position>, ys: seq<R>)
    requires |ps| == |xs| && |qs| == |ys|
    ensures Pairs(ps + qs, xs + ys) == Pairs(ps, xs) + Pairs(qs, ys)
  {
  }

  lemma CellPairs<R>(text: map<Position, seq<R>>, p: Position)
    requires p in text
    ensures CellEntries(text, p) == Pairs(Repeat(p, |text[p]|), text[p])
  {
  }

  /** Each cell of a written box holds its stretch of the written records. */
  lemma WrittenCells(name: string, cells: map<Position, seq<Element>>, recs: seq<ElementRecord<ColorRef>>,
                     black: seq<int>, gray: seq<int>)
    requires (forall q: Position :: q in cells) && |recs| == |GridOrder(cells, 9)|
    ensures var w := WrittenLayout(BoxShell(name, Cut(recs, cells)), black, gray);
            forall p: Position :: p in w.cells && w.cells[p] == CellSlice(WrittenList(recs, black, gray), cells, p)
  {
    forall p: Position
      ensures var w := WrittenLayout(BoxShell(name, Cut(recs, cells)), black, gray);
              p in w.cells && w.cells[p] == CellSlice(WrittenList(recs, black, gray), cells, p)
    {
      WrittenCell(name, cells, recs, black, gray, p);
    }
  }

  lemma WrittenCell(name: string, cells: map<Position, seq<Element>>, recs: seq<ElementRecord<ColorRef>>,
                    black: seq<int>, gray: seq<int>, p: Position)
    requires (forall q: Position :: q in cells) && |recs| == |GridOrder(cells, 9)|
    ensures var w := WrittenLayout(BoxShell(name, Cut(recs, cells)), black, gray);
            p in w.cells && w.cells[p] == CellSlice(WrittenList(recs, black, gray), cells, p)
  {
    var cut := Cut(recs, cells);
    ShellCells(name, cut);
    CutAt(recs, cells, p);
    CellWritten(BoxShell(name, cut), recs, cells, black, gray, p);
  }

  lemma CellWritten(r: LayoutRecord<ColorRef>, recs: seq<ElementRecord<ColorRef>>, cells: map<Position, seq<Element>>,
                    black: seq<int>, gray: seq<int>, p: Position)
    requires (forall q: Position :: q in cells) && |recs| == |GridOrder(cells, 9)|
    requires p in r.cells && r.cells[p] == CellSlice(recs, cells, p)
    ensures p in WrittenLayout(r, black, gray).cells
    ensures WrittenLayout(r, black, gray).cells[p] == CellSlice(WrittenList(recs, black, gray), cells, p)
  {
    var i, j := CellStart(cells, p), CellStart(cells, p) + |cells[p]|;
    SliceAt(recs, cells, p);
    SliceAt(WrittenList(recs, black, gray), cells, p);
    WrittenAt(r, black, gray, p);
    WrittenSlice(recs, i, j, black, gray);
  }

  lemma ShellCells(name: string, cells: map<Position, seq<ElementRecord<ColorRef>>>)
    ensures BoxShell(name, cells).cells == cells
  {
  }

  lemma CutAt(recs: seq<ElementRecord<ColorRef>>, cells: map<Position, seq<Element>>, p: Position)
    requires (forall q: Position :: q in cells) && |recs| == |GridOrder(cells, 9)|
    ensures Cut(recs, cells)[p] == CellSlice(recs, cells, p)
  {
  }

  lemma SliceAt<T>(xs: seq<T>, cells: map<Position, seq<Element>>, p: Position)
    requires (forall q: Position :: q in cells) && |xs| == |GridOrder(cells, 9)|
    ensures CellSlice(xs, cells, p) == xs[CellStart(cells, p)..CellStart(cells, p) + |cells[p]|]
  {
  }

  lemma WrittenAt(r: LayoutRecord<ColorRef>, black: seq<int>, gray: seq<int>, p: Position)
    requires p in r.cells
    ensures p in WrittenLayout(r, black, gray).cells
    ensures WrittenLayout(r, black, gray).cells[p] == WrittenList(r.cells[p], black, gray)
  {
  }

  /** The written records of a stretch are that stretch of the written records. */
  lemma WrittenSlice(recs: seq<ElementRecord<ColorRef>>, i: nat, j: nat, black: seq<int>, gray: seq<int>)
    requires i <= j <= |recs|
    ensures WrittenList(recs[i..j], black, gray) == WrittenList(recs, black, gray)[i..j]
  {
  }

  lemma PairsPrefix<R>(placed: seq<Position>, xs: seq<R>)
    requires |placed| == |xs| && xs != []
    ensures Pairs(placed, xs)[..|xs| - 1] == Pairs(placed[..|xs| - 1], xs[..|xs| - 1])
    ensures Pairs(placed, xs)[|xs| - 1] == (placed[|xs| - 1], xs[|xs| - 1])
  {
  }

  /** Elements with distinct names that each read back are read back in
      order from their written records, each into the cell it is paired
      with. */
  lemma {:induction false} BoxReadBack(placed: seq<Position>, vs: seq<ElementView>, saves: seq<SaveResult>,
                                       black: seq<int>, gray: seq<int>, files: map<string, Picture>)
    requires AllReadBack(vs, saves, black, gray, files) && DistinctNames(vs) && |placed| == |vs|
    ensures BoxRead(Pairs(placed, WrittenList(RecordsOf(vs, saves), black, gray)), black, gray, files)
              == Ok(BoxContents(vs, placed))
  {
    if vs != [] {
      var n := |vs|;
      var u, s, v := vs[..n - 1], saves[..n - 1], vs[n - 1];
      var w := WrittenList(RecordsOf(vs, saves), black, gray);
      NamesFresh(vs);
      ReadBackPrefix(vs, saves, black, gray, files);
      WrittenPrefix(vs, saves, black, gray);
      PairsPrefix(placed, w);
      BoxReadBack(placed[..n - 1], u, s, black, gray, files);
      ListedReadsBack(v, saves[n - 1], black, gray, files);
      StepAdds(u, BoxContents(u, placed[..n - 1]), placed[n - 1], w[n - 1], v, black, gray, files);
      Snoc(vs);
      Snoc(placed);
    }
  }

  /** The entries of a written box are the written records of its grid
      order, each paired with its cell. */
  lemma BoxEntriesWritten(name: string, cells: map<Position, seq<Element>>, recs: seq<ElementRecord<ColorRef>>,
                          black: seq<int>, gray: seq<int>, k: nat)
    requires k == 9 && (forall p: Position :: p in cells) && |recs| == |GridOrder(cells, k)|
    ensures BoxEntries(WrittenLayout(BoxShell(name, Cut(recs, cells)), black, gray).cells, k)
              == Pairs(PlacedOrder(cells, k), WrittenList(recs, black, gray))
  {
    var w := WrittenLayout(BoxShell(name, Cut(recs, cells)), black, gray);
    var flat := WrittenList(recs, black, gray);
    WrittenCells(name, cells, recs, black, gray);
    EntriesInGridOrder(cells, flat, w.cells, k);
    assert flat[..|flat|] == flat;
  }

  /** Each cell is what its elements in the grid order, picked out by the
      cell they are placed in, make. */
  lemma PlacedCells(cells: map<Position, seq<Element>>)
    requires forall p: Position :: p in cells
    ensures forall q: Position :: ContentsAt(BoxContents(Views(GridOrder(cells, 9)), PlacedOrder(cells, 9)), q) == Views(cells[q])
  {
    forall q: Position
      ensures ContentsAt(BoxContents(Views(GridOrder(cells, 9)), PlacedOrder(cells, 9)), q) == Views(cells[q])
    {
      GridFilter(cells, 9, q);
    }
  }

  /** A box whose elements have distinct names and each read back is read
      back as a box with its name, every cell holding the elements it held,
      in order. */
  lemma BoxRoundTrip(name: string, cells: map<Position, seq<Element>>, saves: seq<SaveResult>, black: seq<int>,
                     gray: seq<int>, files: map<string, Picture>)
    requires (forall p: Position :: p in cells) && |saves| == |GridOrder(cells, 9)|
    requires AllReadBack(Views(GridOrder(cells, 9)), saves, black, gray, files) && DistinctNames(Views(GridOrder(cells, 9)))
    ensures var w := WrittenLayout(BoxShell(name, Cut(RecordsOf(Views(GridOrder(cells, 9)), saves), cells)), black, gray);
            LayoutTypeNamed(w.layout) == BOX_LAYOUT && TextOrEmpty(w.name) == name &&
            BoxRead(BoxEntries(w.cells, 9), black, gray, files) == Ok(BoxContents(Views(GridOrder(cells, 9)), PlacedOrder(cells, 9)))
    ensures forall q: Position :: ContentsAt(BoxContents(Views(GridOrder(cells, 9)), PlacedOrder(cells, 9)), q) == Views(cells[q])
  {
    LayoutTypeNames(BOX_LAYOUT, None);
    var vs := Views(GridOrder(cells, 9));
    BoxEntriesWritten(name, cells, RecordsOf(vs, saves), black, gray, 9);
    BoxReadBack(PlacedOrder(cells, 9), vs, saves, black, gray, files);
    PlacedCells(cells);
  }

  /** InterfaceBoxLayout.Serialize leaves the ratios, flow, spacing and
      grid flag at their initial values, so whatever the box's settings,
      it is read back with ratios 1:1:1 both ways, flow RIGHT, no spacing
      and no grid. */
  lemma BoxSettingsLost(name: string, cells: map<Position, seq<ElementRecord<ColorRef>>>, black: seq<int>, gray: seq<int>,
                        current: Flow)
    ensures var w := WrittenLayout(BoxShell(name, cells), black, gray);
            RatiosRead(w) == DefaultRatios && FlowAfter(w.flow, current) == RIGHT &&
            SpacingRead(w.spacing) == 0 && !w.showGrid
  {
    FlowRoundTrip(RIGHT, "", current);
  }

  /** The record evidently intended keeps the box's settings: non-zero
      ratios, the flow, an in-range spacing and the grid flag are read back
      as they were, and the cells as before. */
  lemma BoxSettingsIntendedRoundTrip(name: string, cells: map<Position, seq<ElementRecord<ColorRef>>>, ratios: Ratios,
                                     flow: Flow, spacing: int, showGrid: bool, black: seq<int>, gray: seq<int>,
                                     current: Flow)
    requires ratios.left != 0 && ratios.centre != 0 && ratios.right != 0
    requires ratios.top != 0 && ratios.middle != 0 && ratios.bottom != 0
    requires 0 <= spacing <= 10
    ensures var w := WrittenLayout(BoxRecordIntended(name, cells, ratios, flow, spacing, showGrid), black, gray);
            RatiosRead(w) == ratios && FlowAfter(w.flow, current) == flow &&
            SpacingRead(w.spacing) == spacing && w.showGrid == showGrid &&
            w.cells == WrittenLayout(BoxShell(name, cells), black, gray).cells
  {
    FlowRoundTrip(flow, "", current);
  }

  // ----- signature layouts -----

  /** A signature layout is read back with its name and its button texts
      and reason, but with the reason as the signer too. */
  lemma SignatureWhoLost(name: string, t: SignatureTexts, black: seq<int>, gray: seq<int>)
    ensures var w := WrittenLayout(SignatureRecordOf(name, t), black, gray);
            LayoutTypeNamed(w.layout) == SIGNATURE_LAYOUT && TextOrEmpty(w.name) == name &&
            SignatureTextsRead(w) == t.(who := t.why)
    ensures t.who != t.why ==> SignatureTextsRead(WrittenLayout(SignatureRecordOf(name, t), black, gray)) != t
  {
    LayoutTypeNames(SIGNATURE_LAYOUT, None);
  }

  /** Read as evidently intended, a signature layout comes back with all
      five texts. */
  lemma SignatureIntendedRoundTrip(name: string, t: SignatureTexts, black: seq<int>, gray: seq<int>)
    ensures SignatureTextsIntended(WrittenLayout(SignatureRecordOf(name, t), black, gray)) == t
  {
  }
}

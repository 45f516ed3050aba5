// Layout: a named, ordered list of elements whose names are unique.
module Layouts {
  import opened Wrappers
  import opened Geometry
  import opened Elements

  datatype LayoutType = DEFAULT | BOX_LAYOUT | SIGNATURE_LAYOUT

  // ----- specification functions over element lists -----

  predicate NameTaken(es: seq<Element>, name: string)
  {
    exists i :: 0 <= i < |es| && es[i].name == name
  }

  predicate UniqueNames(es: seq<Element>)
  {
    forall i, j :: 0 <= i < j < |es| ==> es[i].name != es[j].name
  }

  /** The position of the first element called `name`, or |es| when there is none. */
  function FirstIndexOf(es: seq<Element>, name: string): (k: nat)
    ensures k <= |es|
    ensures k < |es| ==> es[k].name == name
    ensures forall j :: 0 <= j < k ==> es[j].name != name
    ensures k == |es| <==> !NameTaken(es, name)
  {
    if es == [] then 0
    else if es[0].name == name then 0
    else 1 + FirstIndexOf(es[1..], name)
  }

  /** GetElement: the first element with that name. */
  function FindByName(es: seq<Element>, name: string): (r: Option<Element>)
    ensures r.None? <==> !NameTaken(es, name)
    ensures r.Some? ==> r.value == es[FirstIndexOf(es, name)] && r.value.name == name
  {
    var k := FirstIndexOf(es, name);
    if k < |es| then Some(es[k]) else None
  }

  /** The list after AddElement(e): unchanged when the name is taken. */
  function WithAdded(es: seq<Element>, e: Element): (r: seq<Element>)
  {
    if NameTaken(es, e.name) then es else es + [e]
  }

  /** The list after RemoveElement(name): the first match is dropped. */
  function WithoutFirst(es: seq<Element>, name: string): (r: seq<Element>)
  {
    var k := FirstIndexOf(es, name);
    if k < |es| then es[..k] + es[k + 1..] else es
  }

  /** ButtonList and ImageList: the elements of one kind, in list order. */
  function OfKind(es: seq<Element>, kind: ElementType): (r: seq<Element>)
    ensures |r| <= |es|
    ensures forall i :: 0 <= i < |r| ==> r[i] in es && r[i].kind == kind
    ensures forall i :: 0 <= i < |es| && es[i].kind == kind ==> es[i] in r
  {
    if es == [] then []
    else (if es[0].kind == kind then [es[0]] else []) + OfKind(es[1..], kind)
  }

  /** Whether a hit test may stop at `e`: its bounds contain the point and,
      when `needsClick`, it is an image marked as a button. */
  predicate Hit(e: Element, p: Point, needsClick: bool)
    reads e
  {
    Contains(e.Bounds(), p) && (!needsClick || e.isButton)
  }

  /** The first element of `es` that the hit test accepts. */
  function FirstHit(es: seq<Element>, p: Point, needsClick: bool): (r: Option<Element>)
    reads es
    ensures r.Some? ==> r.value in es && Hit(r.value, p, needsClick)
    ensures r.None? <==> forall i :: 0 <= i < |es| ==> !Hit(es[i], p, needsClick)
    ensures r.Some? ==> exists i :: 0 <= i < |es| && es[i] == r.value &&
                          forall j :: 0 <= j < i ==> !Hit(es[j], p, needsClick)
  {
    if es == [] then None
    else if Hit(es[0], p, needsClick) then Some(es[0])
    else
      var r := FirstHit(es[1..], p, needsClick);
      assert forall i :: 1 <= i < |es| ==> es[i] == es[1..][i - 1];
      if r.Some? then
        assert exists i :: 0 <= i < |es| && es[i] == r.value &&
                 forall j :: 0 <= j < i ==> !Hit(es[j], p, needsClick) by {
          var i :| 0 <= i < |es[1..]| && es[1..][i] == r.value &&
                   forall j :: 0 <= j < i ==> !Hit(es[1..][j], p, needsClick);
          assert es[i + 1] == r.value;
          assert forall j :: 0 <= j < i + 1 ==> !Hit(es[j], p, needsClick) by {
            forall j | 0 <= j < i + 1 ensures !Hit(es[j], p, needsClick) {
              if j > 0 { assert es[j] == es[1..][j - 1]; }
            }
          }
        }
        r
      else r
  }

  // ----- properties of the specification -----

  /** Adding never creates a duplicate name. */
  lemma AddKeepsNamesUnique(es: seq<Element>, e: Element)
    requires UniqueNames(es)
    ensures UniqueNames(WithAdded(es, e))
    ensures NameTaken(WithAdded(es, e), e.name)
  {
    if !NameTaken(es, e.name) {
      var r := es + [e];
      assert r[|es|] == e;
    }
  }

  /** Element names stay pairwise distinct under any sequence of additions. */
  lemma {:induction false} AddAllKeepsNamesUnique(es: seq<Element>, added: seq<Element>)
    requires UniqueNames(es)
    ensures UniqueNames(AddAll(es, added))
    decreases |added|
  {
    if added != [] {
      AddKeepsNamesUnique(es, added[0]);
      AddAllKeepsNamesUnique(WithAdded(es, added[0]), added[1..]);
    }
  }

  function AddAll(es: seq<Element>, added: seq<Element>): seq<Element>
    decreases |added|
  {
    if added == [] then es else AddAll(WithAdded(es, added[0]), added[1..])
  }

  /** Removing by name keeps names unique and, in a list with unique names,
      leaves no element of that name. */
  lemma RemoveDropsTheName(es: seq<Element>, name: string)
    requires UniqueNames(es)
    ensures UniqueNames(WithoutFirst(es, name))
    ensures !NameTaken(WithoutFirst(es, name), name)
    ensures NameTaken(es, name) ==> |WithoutFirst(es, name)| == |es| - 1
  {
    var k := FirstIndexOf(es, name);
    if k < |es| {
      var r := es[..k] + es[k + 1..];
      assert forall i :: 0 <= i < |r| ==> r[i] == (if i < k then es[i] else es[i + 1]);
    }
  }

  /** In a list with unique names, removal by name drops exactly the
      element of that name. */
  lemma WithoutFirstMembers(es: seq<Element>, name: string)
    requires UniqueNames(es)
    ensures forall e :: e in WithoutFirst(es, name) <==> e in es && e.name != name
  {
    var k := FirstIndexOf(es, name);
    if k < |es| {
      var r := es[..k] + es[k + 1..];
      assert forall i :: 0 <= i < |r| ==> r[i] == (if i < k then es[i] else es[i + 1]);
      forall e | e in es && e.name != name ensures e in r {
        var i :| 0 <= i < |es| && es[i] == e;
        assert i != k;
        if i < k { assert r[i] == e; } else { assert r[i - 1] == e; }
      }
    }
  }

  lemma {:induction false} AddAllSnoc(es: seq<Element>, added: seq<Element>, e: Element)
    ensures AddAll(es, added + [e]) == WithAdded(AddAll(es, added), e)
    decreases |added|
  {
    if added == [] {
      assert added + [e] == [e];
      assert [e][1..] == [];
    } else {
      assert (added + [e])[0] == added[0];
      assert (added + [e])[1..] == added[1..] + [e];
      AddAllSnoc(WithAdded(es, added[0]), added[1..], e);
    }
  }

  /** After a series of additions a name is taken iff it was taken before or
      one of the added elements carries it. */
  lemma {:induction false} AddAllNames(es: seq<Element>, added: seq<Element>, name: string)
    ensures NameTaken(AddAll(es, added), name) <==>
              NameTaken(es, name) || exists k :: 0 <= k < |added| && added[k].name == name
    decreases |added|
  {
    if added != [] {
      AddAllNames(WithAdded(es, added[0]), added[1..], name);
      var w := WithAdded(es, added[0]);
      if !NameTaken(es, added[0].name) {
        assert w[|es|] == added[0];
        assert NameTaken(w, name) <==> NameTaken(es, name) || added[0].name == name by {
          if NameTaken(w, name) {
            var i :| 0 <= i < |w| && w[i].name == name;
            if i < |es| { assert es[i] == w[i]; }
          }
          if NameTaken(es, name) {
            var i :| 0 <= i < |es| && es[i].name == name;
            assert w[i] == es[i];
          }
        }
      }
      if exists k :: 0 <= k < |added| && added[k].name == name {
        var k :| 0 <= k < |added| && added[k].name == name;
        if k > 0 { assert added[1..][k - 1] == added[k]; }
      }
      if exists k :: 0 <= k < |added[1..]| && added[1..][k].name == name {
        var k :| 0 <= k < |added[1..]| && added[1..][k].name == name;
        assert added[k + 1] == added[1..][k];
      }
    }
  }

  /** Additions only append: the earlier list is a prefix of the result. */
  lemma {:induction false} AddAllExtends(es: seq<Element>, added: seq<Element>)
    ensures |es| <= |AddAll(es, added)| && AddAll(es, added)[..|es|] == es
    decreases |added|
  {
    if added != [] {
      AddAllExtends(WithAdded(es, added[0]), added[1..]);
      var w := WithAdded(es, added[0]);
      assert w[..|es|] == es;
      var r := AddAll(w, added[1..]);
      assert r[..|es|] == r[..|w|][..|es|];
    }
  }

  /** An element of the result was there before, or was added while its name
      was still free. */
  lemma {:induction false} AddAllMembers(es: seq<Element>, added: seq<Element>, e: Element)
    requires e in AddAll(es, added)
    ensures e in es || (e in added && !NameTaken(es, e.name))
    decreases |added|
  {
    if added != [] {
      var w := WithAdded(es, added[0]);
      AddAllMembers(w, added[1..], e);
      if e in w && e !in es {
        assert e == added[0];
      }
      if NameTaken(es, e.name) {
        var i :| 0 <= i < |es| && es[i].name == e.name;
        assert w[i] == es[i];
      }
    }
  }

  /** Adding elements whose names are all taken leaves the list as it was. */
  lemma {:induction false} AddAllOfTakenNames(es: seq<Element>, added: seq<Element>)
    requires forall i :: 0 <= i < |added| ==> NameTaken(es, added[i].name)
    ensures AddAll(es, added) == es
    decreases |added|
  {
    if added != [] {
      assert NameTaken(es, added[0].name);
      AddAllOfTakenNames(es, added[1..]);
    }
  }

  /** The kind projections distribute over concatenation, so they keep the order. */
  lemma {:induction false} OfKindAppend(a: seq<Element>, b: seq<Element>, kind: ElementType)
    ensures OfKind(a + b, kind) == OfKind(a, kind) + OfKind(b, kind)
  {
    if a == [] {
      assert a + b == b;
    } else {
      assert (a + b)[1..] == a[1..] + b;
      OfKindAppend(a[1..], b, kind);
    }
  }

  class Layout {
    /** The Name property; nothing in this model renames a layout. */
    const name: string
    const layoutType: LayoutType
    /** Whether elementList has been created (it is null until the first AddElement). */
    var listCreated: bool
    var elements: seq<Element>

    ghost predicate Valid()
      reads this
    {
      (!listCreated ==> elements == []) && UniqueNames(elements)
    }

    /** Layout(name). */
    constructor (name: string)
      ensures Valid() && this.name == name && layoutType == DEFAULT
      ensures !listCreated && elements == []
    {
      this.name := name;
      layoutType := DEFAULT;
      listCreated := false;
      elements := [];
    }

    /** The base part of a BoxLayout or SignatureLayout. */
    constructor OfType(name: string, layoutType: LayoutType)
      ensures Valid() && this.name == name && this.layoutType == layoutType
      ensures !listCreated && elements == []
    {
      this.name := name;
      this.layoutType := layoutType;
      listCreated := false;
      elements := [];
    }

    /** AddElement(Element): refuses a duplicate name and otherwise appends. */
    method AddElement(e: Element) returns (ok: bool)
      requires Valid()
      modifies this`listCreated, this`elements
      ensures Valid() && listCreated
      ensures ok <==> !NameTaken(old(elements), e.name)
      ensures elements == WithAdded(old(elements), e)
    {
      if !listCreated {
        listCreated := true;
      } else {
        var i := 0;
        while i < |elements|
          invariant 0 <= i <= |elements|
          invariant forall j :: 0 <= j < i ==> elements[j].name != e.name
        {
          if elements[i].name == e.name {
            return false;
          }
          i := i + 1;
        }
      }
      elements := elements + [e];
      AddKeepsNamesUnique(old(elements), e);
      ok := true;
    }

    /** AddElement(text, x, y), AddElement(name, text, x, y) and
        AddElement(name, text, x, y, fontSize): a Near/Near text element at
        (x, y), refused when an element named `text` (not `name`) exists or
        when the element's own name is taken. */
    method AddText(name: string, text: string, x: int, y: int, fontSize: Option<int>)
      returns (r: Result<Element?>)
      requires Valid()
      modifies this`listCreated, this`elements
      ensures Valid()
      ensures NameTaken(old(elements), text) ==> r == Ok(null) && elements == old(elements)
      ensures r.Err? <==> !NameTaken(old(elements), text) && fontSize.Some? && fontSize.value <= 0
      ensures r.Err? ==> elements == old(elements)
      ensures r.Ok? && r.value != null ==>
                fresh(r.value) && elements == old(elements) + [r.value] &&
                r.value.name == name && r.value.kind == TEXT && r.value.text == text &&
                r.value.location == Point(x, y) && r.value.hAlign == Near && r.value.vAlign == Near &&
                (fontSize.Some? ==> r.value.font == Some(Font(fontSize.value as real)))
      ensures r.Ok? && r.value == null ==> elements == old(elements)
      ensures r.Ok? && !NameTaken(old(elements), text) ==>
                (r.value != null <==> !NameTaken(old(elements), name))
    {
      var existing := GetElement(text);
      if existing != null {
        return Ok(null);
      }
      var txt := new Element.Text(name, text, Point(x, y), Size(0, 0));
      txt.hAlign := Near;
      txt.vAlign := Near;
      if fontSize.Some? {
        var applied := txt.SetFontSize(fontSize.value as real);
        if applied.Failure? {
          return Err(applied.error);
        }
      }
      var ok := AddElement(txt);
      if ok {
        r := Ok(txt);
      } else {
        r := Ok(null);
      }
    }

    /** RemoveElement(name): throws when the list was never created, drops the
        first element with that name and reports whether there was one. */
    method RemoveElement(name: string) returns (r: Result<bool>)
      requires Valid()
      modifies this`elements
      ensures Valid()
      ensures r.Err? <==> !listCreated
      ensures r.Ok? ==> (r.value <==> NameTaken(old(elements), name))
      ensures elements == WithoutFirst(old(elements), name)
    {
      if !listCreated {
        return Err(NullReference);
      }
      var i := 0;
      while i < |elements|
        invariant 0 <= i <= |elements|
        invariant forall j :: 0 <= j < i ==> elements[j].name != name
      {
        if elements[i].name == name {
          assert FirstIndexOf(elements, name) == i;
          RemoveDropsTheName(elements, name);
          elements := elements[..i] + elements[i + 1..];
          return Ok(true);
        }
        i := i + 1;
      }
      r := Ok(false);
    }

    /** RemoveElement(Element): removal by the element's name. */
    method RemoveElementObject(e: Element) returns (r: Result<bool>)
      requires Valid()
      modifies this`elements
      ensures Valid()
      ensures r.Err? <==> !listCreated
      ensures r.Ok? ==> (r.value <==> NameTaken(old(elements), e.name))
      ensures elements == WithoutFirst(old(elements), e.name)
    {
      r := RemoveElement(e.name);
    }

    /** GetElement(name): the first element with that name, or null. */
    method GetElement(name: string) returns (r: Element?)
      requires Valid()
      ensures r == null <==> !NameTaken(elements, name)
      ensures r != null ==> FindByName(elements, name).Some? && FindByName(elements, name).value == r
    {
      if !listCreated || |elements| == 0 {
        return null;
      }
      var i := 0;
      while i < |elements|
        invariant 0 <= i <= |elements|
        invariant forall j :: 0 <= j < i ==> elements[j].name != name
      {
        if elements[i].name == name {
          assert FirstIndexOf(elements, name) == i;
          return elements[i];
        }
        i := i + 1;
      }
      r := null;
    }

    /** The ButtonList property, rebuilt by a loop on every access. */
    method ButtonList() returns (r: seq<Element>)
      ensures r == OfKind(elements, BUTTON)
    {
      r := KindList(BUTTON);
    }

    /** The ImageList property. */
    method ImageList() returns (r: seq<Element>)
      ensures r == OfKind(elements, IMAGE)
    {
      r := KindList(IMAGE);
    }

    method KindList(kind: ElementType) returns (r: seq<Element>)
      ensures r == OfKind(elements, kind)
    {
      r := [];
      var i := 0;
      while i < |elements|
        invariant 0 <= i <= |elements|
        invariant r == OfKind(elements[..i], kind)
      {
        OfKindAppend(elements[..i], [elements[i]], kind);
        assert elements[..i + 1] == elements[..i] + [elements[i]];
        if elements[i].kind == kind {
          r := r + [elements[i]];
        }
        i := i + 1;
      }
      assert elements[..i] == elements;
    }

    /** GetButtonOnPoint: the first button whose bounds contain the point. */
    method GetButtonOnPoint(p: Point) returns (r: Element?)
      ensures r == null <==> FirstHit(OfKind(elements, BUTTON), p, false).None?
      ensures r != null ==> FirstHit(OfKind(elements, BUTTON), p, false).Some? && FirstHit(OfKind(elements, BUTTON), p, false).value == r
    {
      var buttons := ButtonList();
      r := FirstHitIn(buttons, p, false);
    }

    /** GetImageOnPoint: the first image marked as a button whose bounds
        contain the point. */
    method GetImageOnPoint(p: Point) returns (r: Element?)
      ensures r == null <==> FirstHit(OfKind(elements, IMAGE), p, true).None?
      ensures r != null ==> FirstHit(OfKind(elements, IMAGE), p, true).Some? && FirstHit(OfKind(elements, IMAGE), p, true).value == r
    {
      var images := ImageList();
      r := FirstHitIn(images, p, true);
    }

    static method FirstHitIn(es: seq<Element>, p: Point, needsClick: bool) returns (r: Element?)
      ensures r == null <==> FirstHit(es, p, needsClick).None?
      ensures r != null ==> FirstHit(es, p, needsClick).Some? && FirstHit(es, p, needsClick).value == r
    {
      var i := 0;
      while i < |es|
        invariant 0 <= i <= |es|
        invariant FirstHit(es, p, needsClick) == FirstHit(es[i..], p, needsClick)
      {
        if Contains(es[i].Bounds(), p) && (!needsClick || es[i].isButton) {
          return es[i];
        }
        assert es[i..][1..] == es[i + 1..];
        i := i + 1;
      }
      r := null;
    }

    /** ClickButton(name): performs the click of a button or image and answers
        true, answers false for a text or line, and throws when no element has
        that name. */
    method ClickButton(name: string) returns (r: Result<bool>, invocation: Option<Invocation>)
      requires Valid()
      ensures !NameTaken(elements, name) ==> r == Err(NullReference) && invocation.None?
      ensures NameTaken(elements, name) ==>
                var e := FindByName(elements, name).value;
                if e.kind == BUTTON || e.kind == IMAGE then
                  (e.PerformClick().Err? ==> r == Err(NullReference) && invocation.None?) &&
                  (e.PerformClick().Ok? ==> r == Ok(true) && invocation == e.PerformClick().value)
                else r == Ok(false) && invocation.None?
    {
      var e := GetElement(name);
      if e == null {
        return Err(NullReference), None;
      }
      if e.kind == BUTTON || e.kind == IMAGE {
        var outcome := e.PerformClick();
        if outcome.Err? {
          return Err(outcome.error), None;
        }
        return Ok(true), outcome.value;
      }
      r, invocation := Ok(false), None;
    }

    /** GetRequiredSize (the TEXT branch measures text and is not modelled):
        the smallest size, starting from (0,0), that reaches the right and
        bottom edge of every element. Iterating a missing list throws. */
    method GetRequiredSize() returns (r: Result<Size>)
      ensures r.Err? <==> !listCreated
      ensures r.Ok? ==> r.value.width >= 0 && r.value.height >= 0
      ensures r.Ok? ==> forall e :: e in elements ==>
                e.location.x + e.size.width <= r.value.width &&
                e.location.y + e.size.height <= r.value.height
      ensures r.Ok? && r.value.width > 0 ==>
                exists e :: e in elements && e.location.x + e.size.width == r.value.width
      ensures r.Ok? && r.value.height > 0 ==>
                exists e :: e in elements && e.location.y + e.size.height == r.value.height
    {
      if !listCreated {
        return Err(NullReference);
      }
      var maxX, maxY := 0, 0;
      var i := 0;
      while i < |elements|
        invariant 0 <= i <= |elements|
        invariant maxX >= 0 && maxY >= 0
        invariant forall j :: 0 <= j < i ==>
                    elements[j].location.x + elements[j].size.width <= maxX &&
                    elements[j].location.y + elements[j].size.height <= maxY
        invariant maxX > 0 ==> exists j :: 0 <= j < i && elements[j].location.x + elements[j].size.width == maxX
        invariant maxY > 0 ==> exists j :: 0 <= j < i && elements[j].location.y + elements[j].size.height == maxY
      {
        var rect := elements[i].Bounds();
        var x := rect.x + rect.width;
        var y := rect.y + rect.height;
        if x > maxX { maxX := x; }
        if y > maxY { maxY := y; }
        i := i + 1;
      }
      r := Ok(Size(maxX, maxY));
    }
  }
}

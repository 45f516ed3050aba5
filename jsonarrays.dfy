// JSONSerializer.SplitJsonArray: the hand-written scanner that cuts the
// text of a JSON array into the texts of its top-level items.
module JsonArrays {
  import opened Wrappers
  import opened Text
  import opened Sequences

  /** The scanner's variables: the bracket depth, the item being collected
      and the items collected so far. */
  datatype ScanState = ScanState(level: int, item: string, items: seq<string>)

  const START := ScanState(0, "", [])

  /** One pass of the scanner's loop body over the character `c`, its four
      tests in the order of the code. */
  function Step(s: ScanState, c: char): ScanState
  {
    var s1 := if c == ',' && s.level == 1 && s.item != "" then ScanState(s.level, "", s.items + [s.item]) else s;
    var s2 :=
      if c == ']' || c == '}' then
        var s' := if s1.level == 1 && s1.item != "" then ScanState(s1.level, "", s1.items + [s1.item]) else s1;
        ScanState(s'.level - 1, s'.item, s'.items)
      else s1;
    var s3 := if s2.level >= 1 && (s2.level != 1 || c != ',') then ScanState(s2.level, s2.item + [c], s2.items) else s2;
    if c == '[' || c == '{' then ScanState(s3.level + 1, s3.item, s3.items) else s3
  }

  /** The scanner run from state `s` over the characters of `t`. */
  function ScanFrom(s: ScanState, t: string): ScanState
    decreases |t|
  {
    if t == [] then s else ScanFrom(Step(s, t[0]), t[1..])
  }

  /** The trimmed text begins with '[' and ends with ']'. */
  predicate Bracketed(t: string)
  {
    |t| >= 1 && t[0] == '[' && t[|t| - 1] == ']'
  }

  /** What SplitJsonArray(json) returns: a null text throws when it is
      trimmed, an empty trimmed text throws in Substring(0, 1), a text that
      is not bracketed gives null, and otherwise the items the scanner
      collects. */
  function SplitResult(json: Option<string>): Result<Option<seq<string>>>
  {
    if json.None? then Err(NullReference)
    else
      var t := Trim(json.value);
      if t == "" then Err(IndexOutOfRange)
      else if !Bracketed(t) then Ok(None)
      else Ok(Some(ScanFrom(START, t).items))
  }

  /** SplitJsonArray: the character loop of the code. It returns null
      exactly when the trimmed, non-empty text is not bracketed. */
  method SplitJsonArray(json: Option<string>) returns (r: Result<Option<seq<string>>>)
    ensures r == SplitResult(json)
    ensures r == Ok(None) <==> json.Some? && Trim(json.value) != "" && !Bracketed(Trim(json.value))
  {
    if json.None? {
      return Err(NullReference);
    }
    var text := Trim(json.value);
    if |text| == 0 {
      return Err(IndexOutOfRange);
    }
    if !(text[0] == '[' && text[|text| - 1] == ']') {
      return Ok(None);
    }
    var items := Scan(text);
    r := Ok(Some(items));
  }

  /** The character loop of SplitJsonArray. */
  method Scan(text: string) returns (result: seq<string>)
    ensures result == ScanFrom(START, text).items
  {
    result := [];
    var level := 0;
    var item := "";
    for i := 0 to |text|
      invariant ScanFrom(ScanState(level, item, result), text[i..]) == ScanFrom(START, text)
    {
      var c := text[i];
      assert text[i..][1..] == text[i + 1..];
      if c == ',' && level == 1 && item != "" {
        result := result + [item];
        item := "";
      }
      if c == ']' || c == '}' {
        if level == 1 && item != "" {
          result := result + [item];
          item := "";
        }
        level := level - 1;
      }
      if level >= 1 {
        if level != 1 || c != ',' {
          item := item + [c];
        }
      }
      if c == '[' || c == '{' {
        level := level + 1;
      }
    }
  }

  // ----- what the scanner collects -----

  /** Trimming leaves a bracketed text as it is. */
  lemma BracketedUntrimmed(body: string)
    ensures Trim("[" + body + "]") == "[" + body + "]"
    ensures Bracketed("[" + body + "]")
  {
    var t := "[" + body + "]";
    assert t[0] == '[' && t[|t| - 1] == ']';
    assert TrimStart(t) == t;
    assert TrimEnd(t) == t;
  }

  /** No item the scanner collects is empty. */
  lemma {:induction false} ScanItemsNonEmpty(s: ScanState, t: string)
    requires forall k :: 0 <= k < |s.items| ==> s.items[k] != ""
    ensures forall k :: 0 <= k < |ScanFrom(s, t).items| ==> ScanFrom(s, t).items[k] != ""
    decreases |t|
  {
    if t != [] {
      ScanItemsNonEmpty(Step(s, t[0]), t[1..]);
    }
  }

  /** SplitJsonArray never returns an empty item. */
  lemma SplitNoEmptyItem(json: Option<string>)
    ensures SplitResult(json).Ok? && SplitResult(json).value.Some? ==>
              forall k :: 0 <= k < |SplitResult(json).value.value| ==> SplitResult(json).value.value[k] != ""
  {
    if json.Some? {
      ScanItemsNonEmpty(START, Trim(json.value));
    }
  }

  /** A text holding none of the four bracket characters. */
  predicate Flat(s: string)
  {
    forall i :: 0 <= i < |s| ==> s[i] !in {'[', ']', '{', '}'}
  }

  /** The non-empty texts of `pieces`, in order. */
  function NonEmpty(pieces: seq<string>): (r: seq<string>)
    ensures |r| <= |pieces|
  {
    if pieces == [] then [] else (if pieces[0] == "" then [] else [pieces[0]]) + NonEmpty(pieces[1..])
  }

  /** `pieces` with `prefix` put before its first piece. */
  function Prefixed(prefix: string, pieces: seq<string>): seq<string>
    requires |pieces| >= 1
  {
    [prefix + pieces[0]] + pieces[1..]
  }

  /** The scan of a text that starts with `c`. */
  lemma ScanCons(s: ScanState, c: char, t: string)
    ensures ScanFrom(s, [c] + t) == ScanFrom(Step(s, c), t)
  {
    assert ([c] + t)[0] == c;
    assert ([c] + t)[1..] == t;
  }

  /** `items` with `item` added when it is not empty. */
  function Collect(items: seq<string>, item: string): seq<string>
  {
    if item == "" then items else items + [item]
  }

  /** At depth 1, a comma ends the pending item and any other flat
      character is added to it. */
  lemma StepAtOne(item: string, items: seq<string>, c: char)
    requires c !in {'[', ']', '{', '}'}
    ensures Step(ScanState(1, item, items), c)
            == if c == ',' then ScanState(1, "", Collect(items, item)) else ScanState(1, item + [c], items)
  {
  }

  /** At depth 1, the closing ']' ends the pending item and the scan. */
  lemma StepClose(item: string, items: seq<string>)
    ensures Step(ScanState(1, item, items), ']') == ScanState(0, "", Collect(items, item))
  {
  }

  /** How the comma-separated pieces of a text change with its first
      character: a comma completes the pending item, any other character
      joins it. */
  lemma PiecesCons(item: string, items: seq<string>, c: char, rest: string)
    ensures c == ',' ==> items + NonEmpty(Prefixed(item, Split([c] + rest, {','})))
                         == Collect(items, item) + NonEmpty(Prefixed("", Split(rest, {','})))
    ensures c != ',' ==> Prefixed(item, Split([c] + rest, {','})) == Prefixed(item + [c], Split(rest, {','}))
  {
    var body := [c] + rest;
    assert body[0] == c && body[1..] == rest;
    var pieces := Split(rest, {','});
    if c == ',' {
      assert "" + pieces[0] == pieces[0];
      assert Prefixed("", pieces) == pieces;
      assert item + "" == item;
      assert Prefixed(item, Split(body, {','})) == [item] + pieces;
      assert ([item] + pieces)[1..] == pieces;
      assert Collect(items, item) + NonEmpty(pieces) == items + NonEmpty([item] + pieces);
    } else {
      assert item + ([c] + pieces[0]) == (item + [c]) + pieces[0];
    }
  }

  /** At depth 1, a flat text followed by the closing ']' ends the scan with
      the non-empty comma-separated pieces added, the pending item joined to
      the first of them. */
  lemma {:induction false} ScanFlatTail(item: string, items: seq<string>, body: string)
    requires Flat(body)
    ensures ScanFrom(ScanState(1, item, items), body + "]")
            == ScanState(0, "", items + NonEmpty(Prefixed(item, Split(body, {','}))))
    decreases |body|
  {
    if body == [] {
      assert body + "]" == [']'] + [];
      ScanCons(ScanState(1, item, items), ']', []);
      StepClose(item, items);
      assert item + "" == item;
      assert Prefixed(item, Split(body, {','})) == [item];
      assert NonEmpty([item]) == (if item == "" then [] else [item]) by {
        assert [item][1..] == [];
      }
    } else {
      var c := body[0];
      var rest := body[1..];
      assert body == [c] + rest;
      assert body + "]" == [c] + (rest + "]");
      assert Flat(rest) by {
        forall i | 0 <= i < |rest| ensures rest[i] !in {'[', ']', '{', '}'} {
          assert rest[i] == body[i + 1];
        }
      }
      assert c !in {'[', ']', '{', '}'} by { assert c == body[0]; }
      ScanCons(ScanState(1, item, items), c, rest + "]");
      StepAtOne(item, items, c);
      PiecesCons(item, items, c, rest);
      if c == ',' {
        ScanFlatTail("", Collect(items, item), rest);
      } else {
        ScanFlatTail(item + [c], items, rest);
      }
    }
  }

  /** The opening '[' enters depth 1 with nothing collected. */
  lemma StepOpen()
    ensures Step(START, '[') == ScanState(1, "", [])
  {
  }

  /** The scan of the whole of "[" + body + "]". */
  lemma ScanBracketed(body: string)
    ensures ScanFrom(START, "[" + body + "]") == ScanFrom(ScanState(1, "", []), body + "]")
  {
    assert "[" + body + "]" == ['['] + (body + "]");
    ScanCons(START, '[', body + "]");
    StepOpen();
  }

  /** For an interior without brackets or braces, SplitJsonArray returns
      the comma-separated pieces in order, dropping the empty ones. */
  lemma FlatSplit(body: string)
    requires Flat(body)
    ensures SplitResult(Some("[" + body + "]")) == Ok(Some(NonEmpty(Split(body, {','}))))
  {
    var t := "[" + body + "]";
    BracketedUntrimmed(body);
    assert SplitResult(Some(t)) == Ok(Some(ScanFrom(START, t).items));
    ScanBracketed(body);
    ScanFlatTail("", [], body);
    var pieces := Split(body, {','});
    assert "" + pieces[0] == pieces[0];
    assert Prefixed("", pieces) == pieces;
    assert [] + NonEmpty(pieces) == NonEmpty(pieces);
  }

  // ----- nested objects -----

  /** At depth 2 a flat character is collected, a comma included. */
  lemma StepAtTwo(item: string, items: seq<string>, c: char)
    requires c !in {'[', ']', '{', '}'}
    ensures Step(ScanState(2, item, items), c) == ScanState(2, item + [c], items)
  {
  }

  /** At depth 2, a flat text, commas included, is collected whole. */
  lemma {:induction false} ScanInside(item: string, items: seq<string>, x: string, rest: string)
    requires Flat(x)
    ensures ScanFrom(ScanState(2, item, items), x + rest) == ScanFrom(ScanState(2, item + x, items), rest)
    decreases |x|
  {
    if x != [] {
      assert x + rest == [x[0]] + (x[1..] + rest);
      ScanCons(ScanState(2, item, items), x[0], x[1..] + rest);
      StepAtTwo(item, items, x[0]);
      assert Flat(x[1..]) by {
        forall i | 0 <= i < |x[1..]| ensures x[1..][i] !in {'[', ']', '{', '}'} {
          assert x[1..][i] == x[i + 1];
        }
      }
      ScanInside(item + [x[0]], items, x[1..], rest);
      assert item + [x[0]] + x[1..] == item + x;
    } else {
      assert x + rest == rest;
      assert item + x == item;
    }
  }

  /** The texts of `objs`, each in braces, joined by commas. */
  function JoinObjects(objs: seq<string>): string
  {
    if objs == [] then ""
    else if |objs| == 1 then "{" + objs[0] + "}"
    else "{" + objs[0] + "}," + JoinObjects(objs[1..])
  }

  /** The texts of `objs`, each in braces. */
  function Braced(objs: seq<string>): (r: seq<string>)
    ensures |r| == |objs|
  {
    if objs == [] then [] else ["{" + objs[0] + "}"] + Braced(objs[1..])
  }

  /** '{' at depth 1 starts an item at depth 2; '}' at depth 2 returns to
      depth 1 keeping the brace. */
  lemma StepBraces(item: string, items: seq<string>)
    ensures Step(ScanState(1, "", items), '{') == ScanState(2, "{", items)
    ensures Step(ScanState(2, item, items), '}') == ScanState(1, item + "}", items)
  {
  }

  /** One object "{x}" at depth 1 becomes the pending item, braces kept. */
  lemma ScanObject(items: seq<string>, x: string, rest: string)
    requires Flat(x)
    ensures ScanFrom(ScanState(1, "", items), "{" + x + "}" + rest)
            == ScanFrom(ScanState(1, "{" + x + "}", items), rest)
  {
    assert "{" + x + "}" + rest == ['{'] + (x + ("}" + rest));
    ScanCons(ScanState(1, "", items), '{', x + ("}" + rest));
    StepBraces("{" + x, items);
    ScanInside("{", items, x, "}" + rest);
    assert "}" + rest == ['}'] + rest;
    ScanCons(ScanState(2, "{" + x, items), '}', rest);
  }

  /** The closing ']' right after the last object ends the scan. */
  lemma ScanClose(items: seq<string>)
    ensures ScanFrom(ScanState(1, "", items), "]") == ScanState(0, "", items)
  {
    assert "]" == [']'] + [];
    ScanCons(ScanState(1, "", items), ']', []);
    StepClose("", items);
  }

  /** The last object is one item, and the closing ']' ends the scan. */
  lemma ScanLastObject(items: seq<string>, x: string)
    requires Flat(x)
    ensures ScanFrom(ScanState(1, "", items), "{" + x + "}" + "]") == ScanState(0, "", items + ["{" + x + "}"])
  {
    var o := "{" + x + "}";
    assert "]" == [']'] + [];
    ScanObject(items, x, [']'] + []);
    ScanCons(ScanState(1, o, items), ']', []);
    StepClose(o, items);
  }

  /** An object followed by a comma is one item. */
  lemma ScanNextObject(items: seq<string>, x: string, rest: string)
    requires Flat(x)
    ensures ScanFrom(ScanState(1, "", items), "{" + x + "}" + ([','] + rest))
            == ScanFrom(ScanState(1, "", items + ["{" + x + "}"]), rest)
  {
    var o := "{" + x + "}";
    ScanObject(items, x, [','] + rest);
    ScanCons(ScanState(1, o, items), ',', rest);
    StepAtOne(o, items, ',');
  }

  /** Objects without nested brackets, separated by commas, are each one
      item, commas inside them kept. */
  lemma {:induction false} ScanObjects(items: seq<string>, objs: seq<string>)
    requires forall k :: 0 <= k < |objs| ==> Flat(objs[k])
    ensures ScanFrom(ScanState(1, "", items), JoinObjects(objs) + "]") == ScanState(0, "", items + Braced(objs))
    decreases |objs|
  {
    if objs == [] {
      assert JoinObjects(objs) + "]" == "]";
      ScanClose(items);
    } else if |objs| == 1 {
      assert JoinObjects(objs) + "]" == "{" + objs[0] + "}" + "]";
      ScanLastObject(items, objs[0]);
      assert Braced(objs) == ["{" + objs[0] + "}"];
    } else {
      var o, rest := "{" + objs[0] + "}", objs[1..];
      JoinCons(objs);
      ScanNextObject(items, objs[0], JoinObjects(rest) + "]");
      ScanObjects(items + [o], rest);
      BracedCons(items, objs);
    }
  }

  lemma JoinCons(objs: seq<string>)
    requires |objs| >= 2
    ensures JoinObjects(objs) + "]" == "{" + objs[0] + "}" + ([','] + (JoinObjects(objs[1..]) + "]"))
  {
    var j := JoinObjects(objs[1..]);
    assert JoinObjects(objs) == "{" + objs[0] + "}," + j;
    AppendPair("{" + objs[0], '}', ',');
    Associative("{" + objs[0] + "}", [','], j, "]");
  }

  lemma BracedCons(items: seq<string>, objs: seq<string>)
    requires objs != []
    ensures items + ["{" + objs[0] + "}"] + Braced(objs[1..]) == items + Braced(objs)
  {
    assert Braced(objs) == ["{" + objs[0] + "}"] + Braced(objs[1..]);
  }

  /** An array of flat objects splits into the objects, braces kept:
      "[{a,b},{c}]" gives "{a,b}" and "{c}". */
  lemma ObjectsSplit(objs: seq<string>)
    requires forall k :: 0 <= k < |objs| ==> Flat(objs[k])
    ensures SplitResult(Some("[" + JoinObjects(objs) + "]")) == Ok(Some(Braced(objs)))
  {
    var t := "[" + JoinObjects(objs) + "]";
    BracketedUntrimmed(JoinObjects(objs));
    assert SplitResult(Some(t)) == Ok(Some(ScanFrom(START, t).items));
    ScanBracketed(JoinObjects(objs));
    ScanObjects([], objs);
    assert [] + Braced(objs) == Braced(objs);
  }

}

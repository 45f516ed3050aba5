// The JSON text of a list of InkData samples, in the layout
// DataContractJsonSerializer uses for List<InkData>: an array of objects
// whose data members come in alphabetical order (ct, p, pr, seq, t, tag,
// x, y). The writer and the reader here are a stand-in for the library,
// not its exact text: they agree on that layout, escape only the quote and
// the backslash inside strings (the library also writes '/' as \/ and
// control characters as \uXXXX), and are proved to be inverse.
module InkJson {
  import opened Wrappers
  import opened Text
  import opened Ink
  import opened Sequences

  /** A member value: a decimal number or a string. */
  datatype Value = Number(n: nat) | Str(s: string)

  /** The characters of a string literal between its quotes. */
  function EscapeChars(s: string): (r: string)
    ensures |r| >= |s|
  {
    if s == [] then []
    else (if s[0] == '"' || s[0] == '\\' then ['\\', s[0]] else [s[0]]) + EscapeChars(s[1..])
  }

  function WriteString(s: string): string
  {
    "\"" + (EscapeChars(s) + "\"")
  }

  function WriteValue(v: Value): string
  {
    match v
    case Number(n) => NatToString(n)
    case Str(s) => WriteString(s)
  }

  /** The key of a member with its colon. */
  function MemberKey(k: string): string
  {
    WriteString(k) + ":"
  }

  /** `"k1":v1,"k2":v2,...` for keys and values paired in order. */
  function WriteMembers(keys: seq<string>, vs: seq<Value>): string
    requires |keys| == |vs|
  {
    if keys == [] then []
    else MemberKey(keys[0]) + (WriteValue(vs[0]) + (if |keys| == 1 then [] else "," + WriteMembers(keys[1..], vs[1..])))
  }

  /** What may follow a value: the end of the text, a comma or a closing bracket. */
  predicate Ends(rest: string)
  {
    rest == [] || rest[0] == ',' || rest[0] == '}' || rest[0] == ']'
  }

  /** `s` without the prefix `lit`, or an error when `s` does not start with it. */
  function Expect(lit: string, s: string): (r: Result<string>)
    ensures r.Ok? <==> |lit| <= |s| && s[..|lit|] == lit
    ensures r.Ok? ==> r.value == s[|lit|..]
  {
    if |lit| <= |s| && s[..|lit|] == lit then Ok(s[|lit|..]) else Err(MalformedInput)
  }

  /** The characters of a string literal after its opening quote, and what
      follows its closing quote. */
  function ReadChars(s: string): (r: Result<(string, string)>)
    ensures r.Ok? ==> |r.value.1| < |s|
    decreases |s|
  {
    if s == [] then Err(MalformedInput)
    else if s[0] == '"' then Ok(([], s[1..]))
    else if s[0] == '\\' then
      if |s| < 2 || !(s[1] == '"' || s[1] == '\\') then Err(MalformedInput)
      else
        match ReadChars(s[2..])
        case Err(e) => Err(e)
        case Ok((t, rest)) => Ok(([s[1]] + t, rest))
    else
      match ReadChars(s[1..])
      case Err(e) => Err(e)
      case Ok((t, rest)) => Ok(([s[0]] + t, rest))
  }

  /** The number of leading decimal digits. */
  function DigitSpan(s: string): (n: nat)
    ensures n <= |s| && (n < |s| ==> !IsDigit(s[n]))
    ensures forall i :: 0 <= i < n ==> IsDigit(s[i])
  {
    if s == [] || !IsDigit(s[0]) then 0 else 1 + DigitSpan(s[1..])
  }

  /** A string literal or a run of digits, and what follows it. */
  function ReadValue(s: string): (r: Result<(Value, string)>)
    ensures r.Ok? ==> |r.value.1| < |s|
  {
    if s != [] && s[0] == '"' then
      match ReadChars(s[1..])
      case Err(e) => Err(e)
      case Ok((t, rest)) => Ok((Str(t), rest))
    else
      var n := DigitSpan(s);
      if n == 0 then Err(MalformedInput)
      else
        assert AllDigits(s[..n]);
        Ok((Number(DigitsValue(s[..n])), s[n..]))
  }

  /** The members named by `keys`, in that order, and what follows them. */
  function ReadMembers(keys: seq<string>, s: string): (r: Result<(seq<Value>, string)>)
    ensures r.Ok? ==> |r.value.0| == |keys| && |r.value.1| <= |s|
  {
    if keys == [] then Ok(([], s))
    else
      match Expect(MemberKey(keys[0]), s)
      case Err(e) => Err(e)
      case Ok(s1) =>
        match ReadValue(s1)
        case Err(e) => Err(e)
        case Ok((v, s2)) =>
          if |keys| == 1 then Ok(([v], s2))
          else
            match Expect(",", s2)
            case Err(e) => Err(e)
            case Ok(s3) =>
              match ReadMembers(keys[1..], s3)
              case Err(e) => Err(e)
              case Ok((vs, s4)) => Ok(([v] + vs, s4))
  }

  lemma ExpectWritten(lit: string, rest: string)
    ensures Expect(lit, lit + rest) == Ok(rest)
  {
    assert (lit + rest)[..|lit|] == lit;
    assert (lit + rest)[|lit|..] == rest;
  }

  /** A string literal reads back as the string it was written from. */
  lemma {:induction false} ReadCharsWritten(t: string, rest: string)
    ensures ReadChars(EscapeChars(t) + ("\"" + rest)) == Ok((t, rest))
  {
    var s := EscapeChars(t) + ("\"" + rest);
    if t == [] {
      assert s == "\"" + rest;
    } else {
      var tail := EscapeChars(t[1..]) + ("\"" + rest);
      ReadCharsWritten(t[1..], rest);
      if t[0] == '"' || t[0] == '\\' {
        assert s == ['\\', t[0]] + tail;
        assert s[2..] == tail;
      } else {
        assert s == [t[0]] + tail;
        assert s[1..] == tail;
      }
      assert [t[0]] + t[1..] == t;
    }
  }

  lemma {:induction false} DigitSpanOf(d: string, rest: string)
    requires AllDigits(d)
    requires rest == [] || !IsDigit(rest[0])
    ensures DigitSpan(d + rest) == |d|
  {
    if d != [] {
      assert (d + rest)[1..] == d[1..] + rest;
      DigitSpanOf(d[1..], rest);
    }
  }

  /** A number reads back as itself when no digit follows it. */
  lemma ReadNumberWritten(n: nat, rest: string)
    requires rest == [] || !IsDigit(rest[0])
    ensures ReadValue(NatToString(n) + rest) == Ok((Number(n), rest))
  {
    var d := NatToString(n);
    var s := d + rest;
    NatToStringValue(n);
    DigitSpanOf(d, rest);
    assert s[..|d|] == d;
    assert s[|d|..] == rest;
  }

  /** A string literal reads back as its string, whatever follows it. */
  lemma ReadStringWritten(t: string, rest: string)
    ensures ReadValue(WriteString(t) + rest) == Ok((Str(t), rest))
  {
    var s := WriteString(t) + rest;
    assert s == "\"" + (EscapeChars(t) + ("\"" + rest));
    assert s[1..] == EscapeChars(t) + ("\"" + rest);
    ReadCharsWritten(t, rest);
  }

  /** A value reads back as itself when an end follows it. */
  lemma ReadValueWritten(v: Value, rest: string)
    requires Ends(rest)
    ensures ReadValue(WriteValue(v) + rest) == Ok((v, rest))
  {
    match v
    case Number(n) => ReadNumberWritten(n, rest);
    case Str(t) => ReadStringWritten(t, rest);
  }

  /** The last member reads back as its value. */
  lemma ReadLastMemberWritten(keys: seq<string>, vs: seq<Value>, rest: string)
    requires |keys| == |vs| == 1
    requires Ends(rest)
    ensures ReadMembers(keys, WriteMembers(keys, vs) + rest) == Ok((vs, rest))
  {
    var key := MemberKey(keys[0]);
    assert WriteMembers(keys, vs) == key + (WriteValue(vs[0]) + []);
    AppendEmpty(WriteValue(vs[0]));
    Associative3(key, WriteValue(vs[0]), rest);
    ExpectWritten(key, WriteValue(vs[0]) + rest);
    ReadValueWritten(vs[0], rest);
    assert [vs[0]] == vs;
  }

  /** A member followed by more members reads back as its value, then the
      rest as they read. */
  lemma ReadMemberThenMore(keys: seq<string>, vs: seq<Value>, rest: string)
    requires |keys| == |vs| >= 2
    ensures ReadMembers(keys, WriteMembers(keys, vs) + rest) ==
              match ReadMembers(keys[1..], WriteMembers(keys[1..], vs[1..]) + rest)
              case Err(e) => Err(e)
              case Ok((more, s4)) => Ok(([vs[0]] + more, s4))
  {
    var key := MemberKey(keys[0]);
    var tail := WriteMembers(keys[1..], vs[1..]) + rest;
    Regroup(key, WriteValue(vs[0]), "," + WriteMembers(keys[1..], vs[1..]), rest);
    Associative3(",", WriteMembers(keys[1..], vs[1..]), rest);
    ExpectWritten(key, WriteValue(vs[0]) + ("," + tail));
    ReadValueWritten(vs[0], "," + tail);
    ExpectWritten(",", tail);
  }

  /** Members read back as the values they were written from. */
  lemma {:induction false} ReadMembersWritten(keys: seq<string>, vs: seq<Value>, rest: string)
    requires |keys| == |vs|
    requires Ends(rest)
    ensures ReadMembers(keys, WriteMembers(keys, vs) + rest) == Ok((vs, rest))
  {
    if |keys| == 0 {
      assert vs == [] && WriteMembers(keys, vs) + rest == rest;
    } else if |keys| == 1 {
      ReadLastMemberWritten(keys, vs, rest);
    } else {
      ReadMemberThenMore(keys, vs, rest);
      ReadMembersWritten(keys[1..], vs[1..], rest);
      assert [vs[0]] + vs[1..] == vs;
    }
  }

  /** The data members of InkData, in the order the serializer writes them. */
  const SampleKeys: seq<string> := ["ct", "p", "pr", "seq", "t", "tag", "x", "y"]

  function ToValues(d: InkData): (r: seq<Value>)
    ensures |r| == |SampleKeys|
  {
    [Number(Ct(d)), Number(d.p), Number(Pr(d)), Number(d.seqNo), Number(d.t), Str(d.tag), Number(d.x), Number(d.y)]
  }

  /** A sample from its member values: the uint members must fit 32 bits,
      and ct and pr go through their setters. */
  function FromValues(vs: seq<Value>): (r: Result<InkData>)
  {
    if |vs| == 8 && vs[0].Number? && vs[1].Number? && vs[2].Number? && vs[3].Number? &&
       vs[4].Number? && vs[5].Str? && vs[6].Number? && vs[7].Number? &&
       vs[1].n < 0x1_0000_0000 && vs[3].n < 0x1_0000_0000 && vs[4].n < 0x1_0000_0000 &&
       vs[6].n < 0x1_0000_0000 && vs[7].n < 0x1_0000_0000
    then
      var d := InkData(vs[3].n, vs[6].n, vs[7].n, vs[1].n, vs[4].n, false, false, vs[5].s);
      Ok(WithPr(WithCt(d, vs[0].n), vs[2].n))
    else Err(MalformedInput)
  }

  lemma FromToValues(d: InkData)
    ensures FromValues(ToValues(d)) == Ok(d)
  {
  }

  /** One sample as a JSON object. */
  function WriteSample(d: InkData): string
  {
    "{" + (WriteMembers(SampleKeys, ToValues(d)) + "}")
  }

  function ReadSample(s: string): (r: Result<(InkData, string)>)
    ensures r.Ok? ==> |r.value.1| < |s|
  {
    match Expect("{", s)
    case Err(e) => Err(e)
    case Ok(s1) =>
      match ReadMembers(SampleKeys, s1)
      case Err(e) => Err(e)
      case Ok((vs, s2)) =>
        match Expect("}", s2)
        case Err(e) => Err(e)
        case Ok(s3) =>
          match FromValues(vs)
          case Err(e) => Err(e)
          case Ok(d) => Ok((d, s3))
  }

  lemma ReadSampleWritten(d: InkData, rest: string)
    ensures ReadSample(WriteSample(d) + rest) == Ok((d, rest))
  {
    var members := WriteMembers(SampleKeys, ToValues(d));
    assert WriteSample(d) + rest == "{" + (members + ("}" + rest));
    ExpectWritten("{", members + ("}" + rest));
    ReadMembersWritten(SampleKeys, ToValues(d), "}" + rest);
    ExpectWritten("}", rest);
    FromToValues(d);
  }

  /** The objects of a non-empty list, separated by commas. */
  function WriteItems(l: seq<InkData>): string
  {
    if l == [] then []
    else WriteSample(l[0]) + (if |l| == 1 then [] else "," + WriteItems(l[1..]))
  }

  /** SerializeInkDataListToJson. */
  function WriteList(l: seq<InkData>): string
  {
    "[" + (WriteItems(l) + "]")
  }

  /** The objects after an opening bracket up to and including the closing
      one, for a list that is not empty. */
  function ReadMoreItems(s: string): (r: Result<(seq<InkData>, string)>)
    ensures r.Ok? ==> |r.value.1| < |s|
    decreases |s|
  {
    match ReadSample(s)
    case Err(e) => Err(e)
    case Ok((d, s1)) =>
      if s1 != [] && s1[0] == ']' then Ok(([d], s1[1..]))
      else if s1 != [] && s1[0] == ',' then
        match ReadMoreItems(s1[1..])
        case Err(e) => Err(e)
        case Ok((l, rest)) => Ok(([d] + l, rest))
      else Err(MalformedInput)
  }

  /** DeserializeJsonToInkDataList: an array of samples and nothing after it. */
  function ReadList(s: string): (r: Result<seq<InkData>>)
  {
    match Expect("[", s)
    case Err(e) => Err(e)
    case Ok(s1) =>
      var items: Result<(seq<InkData>, string)> := if s1 != [] && s1[0] == ']' then Ok(([], s1[1..])) else ReadMoreItems(s1);
      match items
      case Err(e) => Err(e)
      case Ok((l, rest)) => if rest == [] then Ok(l) else Err(MalformedInput)
  }

  lemma ReadLastItemWritten(l: seq<InkData>, rest: string)
    requires |l| == 1
    ensures ReadMoreItems(WriteItems(l) + ("]" + rest)) == Ok((l, rest))
  {
    assert WriteItems(l) + ("]" + rest) == WriteSample(l[0]) + ("]" + rest);
    ReadSampleWritten(l[0], "]" + rest);
    assert [l[0]] == l;
  }

  lemma ReadItemThenMore(l: seq<InkData>, rest: string)
    requires |l| >= 2
    ensures ReadMoreItems(WriteItems(l) + ("]" + rest)) ==
              match ReadMoreItems(WriteItems(l[1..]) + ("]" + rest))
              case Err(e) => Err(e)
              case Ok((more, r)) => Ok(([l[0]] + more, r))
  {
    var tail := WriteItems(l[1..]) + ("]" + rest);
    assert WriteItems(l) == WriteSample(l[0]) + ("," + WriteItems(l[1..]));
    Regroup(WriteSample(l[0]), ",", WriteItems(l[1..]), "]" + rest);
    ReadSampleWritten(l[0], "," + tail);
    assert ("," + tail)[1..] == tail;
  }

  lemma {:induction false} ReadMoreItemsWritten(l: seq<InkData>, rest: string)
    requires l != []
    ensures ReadMoreItems(WriteItems(l) + ("]" + rest)) == Ok((l, rest))
  {
    if |l| == 1 {
      ReadLastItemWritten(l, rest);
    } else {
      ReadItemThenMore(l, rest);
      ReadMoreItemsWritten(l[1..], rest);
      assert [l[0]] + l[1..] == l;
    }
  }

  /** Reading the text of a list gives the list back. */
  lemma ReadWriteList(l: seq<InkData>)
    ensures ReadList(WriteList(l)) == Ok(l)
  {
    var s := WriteList(l);
    ExpectWritten("[", WriteItems(l) + "]");
    if l == [] {
      assert s[1..] == "]";
    } else {
      assert WriteItems(l) + "]" == WriteItems(l) + ("]" + []);
      ReadMoreItemsWritten(l, []);
      assert WriteItems(l)[0] == '{';
    }
  }

  /** Distinct lists have distinct texts. */
  lemma WriteListInjective(l: seq<InkData>, m: seq<InkData>)
    requires WriteList(l) == WriteList(m)
    ensures l == m
  {
    ReadWriteList(l);
    ReadWriteList(m);
  }

  /** The text of the empty list, and a quote and a backslash escaped in a
      tag. */
  lemma WrittenExamples()
    ensures WriteList([]) == "[]"
    ensures WriteString("a\"b\\") == "\"a\\\"b\\\\\""
  {
  }

  /** SerializeInkDataListToJson: a null list is written as the literal
      null, any other list as an array. */
  function SerializeInkDataListToJson(l: Option<seq<InkData>>): (r: string)
    ensures l.None? <==> r == "null"
  {
    match l
    case None => "null"
    case Some(items) => WriteList(items)
  }

  /** DeserializeJsonToInkDataList: the literal null reads as a null list. */
  function DeserializeJsonToInkDataList(s: string): (r: Result<Option<seq<InkData>>>)
    ensures r == Ok(None) <==> s == "null"
  {
    if s == "null" then Ok(None)
    else
      match ReadList(s)
      case Err(e) => Err(e)
      case Ok(l) => Ok(Some(l))
  }

  /** Deserializing the serialized text gives the list, or null, back. */
  lemma DeserializeSerialized(l: Option<seq<InkData>>)
    ensures DeserializeJsonToInkDataList(SerializeInkDataListToJson(l)) == Ok(l)
  {
    if l.Some? {
      ReadWriteList(l.value);
      assert WriteList(l.value)[0] == '[';
    }
  }
}

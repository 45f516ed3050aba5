// Base64 with the standard alphabet and '=' padding (section 4 of
// RFC 4648), as Convert.ToBase64String writes it and
// Convert.FromBase64String reads it.
module Base64 {
  import opened Wrappers
  import opened Sequences

  /** A six-bit value. */
  type Sextet = v: int | 0 <= v < 64

  /** The alphabet of section 4, table 1: A-Z, a-z, 0-9, '+' and '/'. */
  function CharOf(v: Sextet): (c: char)
    ensures c != '='
  {
    if v < 26 then ('A' as int + v) as char
    else if v < 52 then ('a' as int + (v - 26)) as char
    else if v < 62 then ('0' as int + (v - 52)) as char
    else if v == 62 then '+'
    else '/'
  }

  /** The value of an alphabet character; None for any other character. */
  function ValueOf(c: char): (r: Option<Sextet>)
    ensures r.Some? ==> CharOf(r.value) == c
  {
    if 'A' <= c <= 'Z' then Some(c as int - 'A' as int)
    else if 'a' <= c <= 'z' then Some(c as int - 'a' as int + 26)
    else if '0' <= c <= '9' then Some(c as int - '0' as int + 52)
    else if c == '+' then Some(62)
    else if c == '/' then Some(63)
    else None
  }

  lemma ValueOfCharOf(v: Sextet)
    ensures ValueOf(CharOf(v)) == Some(v)
  {
  }

  /** Three bytes, most significant bit first, as four characters. */
  function EncodeBlock(b0: Byte, b1: Byte, b2: Byte): string
  {
    [CharOf(b0 / 4), CharOf((b0 % 4) * 16 + b1 / 16), CharOf((b1 % 16) * 4 + b2 / 64), CharOf(b2 % 64)]
  }

  /** Convert.ToBase64String: whole blocks, then a final block of one or
      two bytes padded with "==" or "=". */
  function Encode(b: seq<Byte>): (r: string)
    ensures |r| == 4 * ((|b| + 2) / 3)
    decreases |b|
  {
    if |b| >= 3 then EncodeBlock(b[0], b[1], b[2]) + Encode(b[3..])
    else if |b| == 2 then [CharOf(b[0] / 4), CharOf((b[0] % 4) * 16 + b[1] / 16), CharOf((b[1] % 16) * 4), '=']
    else if |b| == 1 then [CharOf(b[0] / 4), CharOf((b[0] % 4) * 16), '=', '=']
    else []
  }

  /** Four alphabet characters as three bytes. */
  function DecodeBlock(c0: char, c1: char, c2: char, c3: char): (r: Result<seq<Byte>>)
    ensures r.Ok? ==> |r.value| == 3
  {
    var v0, v1, v2, v3 := ValueOf(c0), ValueOf(c1), ValueOf(c2), ValueOf(c3);
    if v0.None? || v1.None? || v2.None? || v3.None? then Err(MalformedInput)
    else
      var a, b, c, d := v0.value, v1.value, v2.value, v3.value;
      Ok([a * 4 + b / 16, (b % 16) * 16 + c / 4, (c % 4) * 64 + d])
  }

  /** The last group of four, which may end in "==" (one byte) or "="
      (two bytes). */
  function DecodeLast(c0: char, c1: char, c2: char, c3: char): (r: Result<seq<Byte>>)
    ensures r.Ok? ==> 1 <= |r.value| <= 3
    ensures r.Ok? && |r.value| < 3 ==> c3 == '='
  {
    if c2 == '=' && c3 == '=' then
      var v0, v1 := ValueOf(c0), ValueOf(c1);
      if v0.None? || v1.None? then Err(MalformedInput)
      else Ok([v0.value * 4 + v1.value / 16])
    else if c3 == '=' then
      var v0, v1, v2 := ValueOf(c0), ValueOf(c1), ValueOf(c2);
      if v0.None? || v1.None? || v2.None? then Err(MalformedInput)
      else Ok([v0.value * 4 + v1.value / 16, (v1.value % 16) * 16 + v2.value / 4])
    else DecodeBlock(c0, c1, c2, c3)
  }

  /** Groups of four alphabet characters, padding only in the last group;
      each group gives three bytes, the last one to three. */
  function DecodeGroups(s: string): (r: Result<seq<Byte>>)
    ensures r.Ok? ==> |s| == 4 * ((|r.value| + 2) / 3)
    ensures r.Err? ==> r.error == MalformedInput
    decreases |s|
  {
    if s == [] then Ok([])
    else if |s| < 4 then Err(MalformedInput)
    else if |s| == 4 then DecodeLast(s[0], s[1], s[2], s[3])
    else
      match DecodeBlock(s[0], s[1], s[2], s[3])
      case Err(e) => Err(e)
      case Ok(first) =>
        match DecodeGroups(s[4..])
        case Err(e) => Err(e)
        case Ok(rest) => Ok(first + rest)
  }

  /** The characters Convert.FromBase64String skips wherever they stand. */
  predicate IsWhite(c: char)
  {
    c == ' ' || c == '\t' || c == '\r' || c == '\n'
  }

  /** The text without its white space. */
  function StripWhite(s: string): (r: string)
    ensures |r| <= |s|
    ensures forall i :: 0 <= i < |r| ==> !IsWhite(r[i])
    ensures (forall i :: 0 <= i < |s| ==> !IsWhite(s[i])) ==> r == s
  {
    if s == [] then []
    else if IsWhite(s[0]) then StripWhite(s[1..])
    else [s[0]] + StripWhite(s[1..])
  }

  /** Convert.FromBase64String: white space is skipped, and the rest must
      be whole groups of four with padding only at the end. */
  function Decode(s: string): (r: Result<seq<Byte>>)
    ensures r.Ok? ==> |StripWhite(s)| == 4 * ((|r.value| + 2) / 3)
    ensures r.Err? ==> r.error == MalformedInput
  {
    DecodeGroups(StripWhite(s))
  }

  /** White space is skipped piece by piece. */
  lemma {:induction false} StripConcat(a: string, b: string)
    ensures StripWhite(a + b) == StripWhite(a) + StripWhite(b)
    decreases |a|
  {
    if a == [] {
      assert a + b == b;
    } else {
      assert (a + b)[0] == a[0] && (a + b)[1..] == a[1..] + b;
      StripConcat(a[1..], b);
    }
  }

  /** A line break after a group is skipped. */
  lemma DecodeSkipsLineBreak()
    ensures Decode("Zm9v\r\n") == Ok([0x66, 0x6f, 0x6f])
  {
    assert StripWhite("\r\n") == [];
    StripConcat("Zm9v", "\r\n");
    assert "Zm9v\r\n" == "Zm9v" + "\r\n";
  }

  /** A text that is not whole groups is refused. */
  lemma DecodeRefusesPartialGroup()
    ensures Decode("Zm9") == Err(MalformedInput)
  {
    assert StripWhite("Zm9") == "Zm9";
  }

  lemma DecodeEncodeBlock(b0: Byte, b1: Byte, b2: Byte)
    ensures DecodeBlock(CharOf(b0 / 4), CharOf((b0 % 4) * 16 + b1 / 16), CharOf((b1 % 16) * 4 + b2 / 64), CharOf(b2 % 64))
              == Ok([b0, b1, b2])
  {
    var b, c := (b0 % 4) * 16 + b1 / 16, (b1 % 16) * 4 + b2 / 64;
    ValueOfCharOf(b0 / 4);
    ValueOfCharOf(b);
    ValueOfCharOf(c);
    ValueOfCharOf(b2 % 64);
    Split(b0 % 4, 16, b1 / 16);
    Split(b1 % 16, 4, b2 / 64);
    assert (b0 / 4) * 4 + b / 16 == b0;
    assert (b % 16) * 16 + c / 4 == b1;
    assert (c % 4) * 64 + b2 % 64 == b2;
  }

  /** A high part and a low part below `k` are recovered by division by `k`. */
  lemma Split(high: int, k: int, low: int)
    requires k == 16 || k == 4
    requires 0 <= low < k
    ensures (high * k + low) / k == high && (high * k + low) % k == low
  {
  }

  /** A final block of two bytes decodes back. */
  lemma DecodeEncodePair(b0: Byte, b1: Byte)
    ensures DecodeGroups(Encode([b0, b1])) == Ok([b0, b1])
  {
    var s := Encode([b0, b1]);
    var b, c := (b0 % 4) * 16 + b1 / 16, (b1 % 16) * 4;
    assert s == [CharOf(b0 / 4), CharOf(b), CharOf(c), '='];
    ValueOfCharOf(b0 / 4);
    ValueOfCharOf(b);
    ValueOfCharOf(c);
    Split(b0 % 4, 16, b1 / 16);
    Split(b1 % 16, 4, 0);
    assert (b0 / 4) * 4 + b / 16 == b0;
    assert (b % 16) * 16 + c / 4 == b1;
  }

  /** A final block of one byte decodes back. */
  lemma DecodeEncodeSingle(b0: Byte)
    ensures DecodeGroups(Encode([b0])) == Ok([b0])
  {
    var s := Encode([b0]);
    assert s == [CharOf(b0 / 4), CharOf((b0 % 4) * 16), '=', '='];
    ValueOfCharOf(b0 / 4);
    ValueOfCharOf((b0 % 4) * 16);
  }

  /** A whole block followed by an encoded rest decodes block by block. */
  lemma DecodeBlockThenRest(b0: Byte, b1: Byte, b2: Byte, rest: string)
    requires rest != [] ==> |rest| >= 4
    ensures DecodeGroups(EncodeBlock(b0, b1, b2) + rest) ==
              if rest == [] then Ok([b0, b1, b2])
              else match DecodeGroups(rest) case Err(e) => Err(e) case Ok(r) => Ok([b0, b1, b2] + r)
  {
    var s := EncodeBlock(b0, b1, b2) + rest;
    DecodeEncodeBlock(b0, b1, b2);
    assert s[..4] == EncodeBlock(b0, b1, b2);
    assert s[4..] == rest;
  }

  /** A single whole block decodes back. */
  lemma DecodeEncodeTriple(b0: Byte, b1: Byte, b2: Byte)
    ensures DecodeGroups(Encode([b0, b1, b2])) == Ok([b0, b1, b2])
  {
    var b := [b0, b1, b2];
    assert b[3..] == [];
    assert Encode(b) == EncodeBlock(b0, b1, b2) + [];
    DecodeBlockThenRest(b0, b1, b2, []);
  }

  /** Decoding the groups undoes encoding. */
  lemma {:induction false} DecodeGroupsEncode(b: seq<Byte>)
    ensures DecodeGroups(Encode(b)) == Ok(b)
    decreases |b|
  {
    if |b| > 3 {
      DecodeGroupsEncode(b[3..]);
      DecodeEncodeMore(b);
    } else if |b| == 3 {
      assert b == [b[0], b[1], b[2]];
      DecodeEncodeTriple(b[0], b[1], b[2]);
    } else if |b| == 2 {
      assert b == [b[0], b[1]];
      DecodeEncodePair(b[0], b[1]);
    } else if |b| == 1 {
      assert b == [b[0]];
      DecodeEncodeSingle(b[0]);
    }
  }

  /** A whole block followed by a rest that decodes back decodes back. */
  lemma DecodeEncodeMore(b: seq<Byte>)
    requires |b| > 3 && DecodeGroups(Encode(b[3..])) == Ok(b[3..])
    ensures DecodeGroups(Encode(b)) == Ok(b)
  {
    var rest := Encode(b[3..]);
    assert Encode(b) == EncodeBlock(b[0], b[1], b[2]) + rest;
    DecodeBlockThenRest(b[0], b[1], b[2], rest);
    FirstThree(b);
  }

  /** The encoded text uses only the alphabet and a final padding. */
  lemma {:induction false} EncodeAlphabet(b: seq<Byte>)
    ensures forall i :: 0 <= i < |Encode(b)| ==>
              ValueOf(Encode(b)[i]).Some? || (Encode(b)[i] == '=' && i >= |Encode(b)| - 2)
    decreases |b|
  {
    if |b| >= 3 {
      EncodeAlphabet(b[3..]);
      var s := Encode(b);
      forall i | 0 <= i < |s|
        ensures ValueOf(s[i]).Some? || (s[i] == '=' && i >= |s| - 2)
      {
        if i < 4 {
          assert s[i] == EncodeBlock(b[0], b[1], b[2])[i];
          ValueOfCharOf(b[0] / 4);
          ValueOfCharOf((b[0] % 4) * 16 + b[1] / 16);
          ValueOfCharOf((b[1] % 16) * 4 + b[2] / 64);
          ValueOfCharOf(b[2] % 64);
        } else {
          assert s[i] == Encode(b[3..])[i - 4];
        }
      }
    } else if |b| == 2 {
      ValueOfCharOf(b[0] / 4);
      ValueOfCharOf((b[0] % 4) * 16 + b[1] / 16);
      ValueOfCharOf((b[1] % 16) * 4);
    } else if |b| == 1 {
      ValueOfCharOf(b[0] / 4);
      ValueOfCharOf((b[0] % 4) * 16);
    }
  }

  /** Decoding undoes encoding: the encoded text holds no white space. */
  lemma DecodeEncode(b: seq<Byte>)
    ensures Decode(Encode(b)) == Ok(b)
  {
    var s := Encode(b);
    EncodeAlphabet(b);
    forall i | 0 <= i < |s|
      ensures !IsWhite(s[i])
    {
      assert ValueOf(s[i]).Some? || s[i] == '=';
    }
    assert StripWhite(s) == s;
    DecodeGroupsEncode(b);
  }

  /** Examples from section 10 of RFC 4648. */
  lemma Rfc4648Examples()
    ensures Encode([]) == ""
    ensures Encode([0x66]) == "Zg=="
    ensures Encode([0x66, 0x6f]) == "Zm8="
    ensures Encode([0x66, 0x6f, 0x6f]) == "Zm9v"
  {
  }
}

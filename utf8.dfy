// UTF-8 (RFC 3629), as Encoding.UTF8.GetBytes writes it and
// Encoding.UTF8.GetString reads it. A Dafny char is a Unicode scalar
// value, so every string has an encoding.
module Utf8 {
  import opened Wrappers

  predicate IsContinuation(b: Byte) { 0x80 <= b < 0xC0 }

  /** The one to four bytes of a scalar value (section 3 of RFC 3629). */
  function EncodeChar(c: char): (r: seq<Byte>)
    ensures 1 <= |r| <= 4
    ensures forall i :: 1 <= i < |r| ==> IsContinuation(r[i])
  {
    var n := c as int;
    if n < 0x80 then [n]
    else if n < 0x800 then [0xC0 + n / 64, 0x80 + n % 64]
    else if n < 0x10000 then [0xE0 + n / 4096, 0x80 + (n / 64) % 64, 0x80 + n % 64]
    else [0xF0 + n / 262144, 0x80 + (n / 4096) % 64, 0x80 + (n / 64) % 64, 0x80 + n % 64]
  }

  /** Encoding.UTF8.GetBytes. */
  function Encode(s: string): (r: seq<Byte>)
    ensures |r| >= |s|
  {
    if s == [] then [] else EncodeChar(s[0]) + Encode(s[1..])
  }

  /** A scalar value: not a surrogate and not above U+10FFFF. */
  predicate IsScalar(n: int)
  {
    0 <= n < 0xD800 || 0xE000 <= n < 0x11_0000
  }

  /** The first character of `b` and the number of bytes it takes; an
      overlong form, a surrogate, a value above U+10FFFF, a stray
      continuation byte or a truncated sequence is refused. */
  function DecodeChar(b: seq<Byte>): (r: Result<(char, nat)>)
    requires |b| > 0
    ensures r.Ok? ==> 1 <= r.value.1 <= |b|
  {
    var b0 := b[0] as int;
    if b0 < 0x80 then Ok((b0 as char, 1))
    else if 0xC2 <= b0 < 0xE0 then
      if |b| < 2 || !IsContinuation(b[1]) then Err(MalformedInput)
      else Ok((((b0 - 0xC0) * 64 + (b[1] as int - 0x80)) as char, 2))
    else if 0xE0 <= b0 < 0xF0 then
      if |b| < 3 || !IsContinuation(b[1]) || !IsContinuation(b[2]) then Err(MalformedInput)
      else
        var n := (b0 - 0xE0) * 4096 + (b[1] as int - 0x80) * 64 + (b[2] as int - 0x80);
        if n < 0x800 || !IsScalar(n) then Err(MalformedInput) else Ok((n as char, 3))
    else if 0xF0 <= b0 < 0xF5 then
      if |b| < 4 || !IsContinuation(b[1]) || !IsContinuation(b[2]) || !IsContinuation(b[3]) then Err(MalformedInput)
      else
        var n := (b0 - 0xF0) * 262144 + (b[1] as int - 0x80) * 4096 + (b[2] as int - 0x80) * 64 + (b[3] as int - 0x80);
        if n < 0x10000 || !IsScalar(n) then Err(MalformedInput) else Ok((n as char, 4))
    else Err(MalformedInput)
  }

  /** Encoding.UTF8.GetString, for well-formed input: every character
      takes at least one byte, and ill-formed input is refused. */
  function Decode(b: seq<Byte>): (r: Result<string>)
    ensures r.Ok? ==> |r.value| <= |b|
    ensures r.Err? ==> r.error == MalformedInput
    decreases |b|
  {
    if b == [] then Ok([])
    else
      match DecodeChar(b)
      case Err(e) => Err(e)
      case Ok((c, k)) =>
        match Decode(b[k..])
        case Err(e) => Err(e)
        case Ok(rest) => Ok([c] + rest)
  }

  lemma DecodeEncodeChar(c: char, rest: seq<Byte>)
    ensures DecodeChar(EncodeChar(c) + rest) == Ok((c, |EncodeChar(c)|))
  {
    var n := c as int;
    var b := EncodeChar(c) + rest;
    if n < 0x80 {
    } else if n < 0x800 {
      assert b[0] == 0xC0 + n / 64 && b[1] == 0x80 + n % 64;
    } else if n < 0x10000 {
      assert b[0] == 0xE0 + n / 4096 && b[1] == 0x80 + (n / 64) % 64 && b[2] == 0x80 + n % 64;
      Recombine3(n);
    } else {
      assert b[0] == 0xF0 + n / 262144 && b[1] == 0x80 + (n / 4096) % 64;
      assert b[2] == 0x80 + (n / 64) % 64 && b[3] == 0x80 + n % 64;
      Recombine4(n);
    }
  }

  lemma Recombine3(n: int)
    requires 0 <= n < 0x10000
    ensures (n / 4096) * 4096 + ((n / 64) % 64) * 64 + n % 64 == n
  {
    var m := n / 64;
    assert m * 64 + n % 64 == n;
    assert (m / 64) * 64 + m % 64 == m;
    assert m / 64 == n / 4096;
  }

  lemma Recombine4(n: int)
    requires 0 <= n < 0x11_0000
    ensures (n / 262144) * 262144 + ((n / 4096) % 64) * 4096 + ((n / 64) % 64) * 64 + n % 64 == n
  {
    var m := n / 64;
    var h := m / 64;
    assert m * 64 + n % 64 == n;
    assert h * 64 + m % 64 == m;
    assert h == n / 4096;
    assert (h / 64) * 64 + h % 64 == h;
    assert h / 64 == n / 262144;
  }

  /** Decoding undoes encoding. */
  lemma {:induction false} DecodeEncode(s: string)
    ensures Decode(Encode(s)) == Ok(s)
  {
    if s != [] {
      var head := EncodeChar(s[0]);
      var b := Encode(s);
      assert b == head + Encode(s[1..]);
      DecodeEncodeChar(s[0], Encode(s[1..]));
      assert b[|head|..] == Encode(s[1..]);
      DecodeEncode(s[1..]);
      assert s == [s[0]] + s[1..];
    }
  }

  /** ASCII text is its own encoding, one byte per character. */
  lemma {:induction false} AsciiEncoding(s: string)
    requires forall i :: 0 <= i < |s| ==> (s[i] as int) < 0x80
    ensures |Encode(s)| == |s|
    ensures forall i :: 0 <= i < |s| ==> Encode(s)[i] == s[i] as int
  {
    if s != [] {
      AsciiEncoding(s[1..]);
    }
  }

  /** A high part and a low part below 64 are recovered by division by 64. */
  lemma Split64(high: int, low: int)
    requires 0 <= low < 64
    ensures (high * 64 + low) / 64 == high && (high * 64 + low) % 64 == low
  {
  }

  /** A decoded character is encoded as exactly the bytes it was read from:
      overlong forms are refused, so a scalar value has one encoding. */
  lemma EncodeDecodeChar(b: seq<Byte>)
    requires |b| > 0 && DecodeChar(b).Ok?
    ensures EncodeChar(DecodeChar(b).value.0) == b[..DecodeChar(b).value.1]
  {
    var b0 := b[0] as int;
    if b0 < 0x80 {
    } else if b0 < 0xE0 {
      var n := (b0 - 0xC0) * 64 + (b[1] as int - 0x80);
      Split64(b0 - 0xC0, b[1] as int - 0x80);
      assert EncodeChar(n as char) == [b[0], b[1]];
    } else if b0 < 0xF0 {
      var m := (b0 - 0xE0) * 64 + (b[1] as int - 0x80);
      var n := m * 64 + (b[2] as int - 0x80);
      Split64(m, b[2] as int - 0x80);
      Split64(b0 - 0xE0, b[1] as int - 0x80);
      assert n / 4096 == m / 64;
      assert EncodeChar(n as char) == [b[0], b[1], b[2]];
    } else {
      var h := (b0 - 0xF0) * 64 + (b[1] as int - 0x80);
      var m := h * 64 + (b[2] as int - 0x80);
      var n := m * 64 + (b[3] as int - 0x80);
      Split64(m, b[3] as int - 0x80);
      Split64(h, b[2] as int - 0x80);
      Split64(b0 - 0xF0, b[1] as int - 0x80);
      assert n / 4096 == m / 64 == h;
      assert n / 262144 == h / 64;
      assert EncodeChar(n as char) == [b[0], b[1], b[2], b[3]];
    }
  }

  /** The bytes read as a text are that text's encoding: GetString reads
      only what GetBytes writes, and so two byte strings are never read as
      the same text. */
  lemma {:induction false} EncodeDecode(b: seq<Byte>)
    requires Decode(b).Ok?
    ensures Encode(Decode(b).value) == b
    decreases |b|
  {
    if b != [] {
      var k := DecodeChar(b).value.1;
      EncodeDecodeChar(b);
      EncodeDecode(b[k..]);
      var s := Decode(b).value;
      assert s[0] == DecodeChar(b).value.0 && s[1..] == Decode(b[k..]).value;
      assert b == b[..k] + b[k..];
    }
  }
}

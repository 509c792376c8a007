/** UTF-8 as RFC 3629 defines it: text as bytes and the strict reading of bytes as text. */
module Utf8 {
  import opened Prelude
  import opened Bytes
  import opened Strings

  predicate Scalar(code: int) {
    0 <= code < 0xD800 || 0xE000 <= code < 0x11_0000
  }

  type Code = x: int | 0 <= x < 0xD800 || 0xE000 <= x < 0x11_0000

  function CodeBytes(code: Code): nat {
    if code < 0x80 then 1 else if code < 0x800 then 2 else if code < 0x1_0000 then 3 else 4
  }

  function Lead(base: int, bits: int): Byte
    requires 0 <= base && 0 <= bits && base + bits < 256
  {
    base + bits
  }

  /** A continuation byte carrying six bits. */
  function Continuing(bits: int): Byte
    requires 0 <= bits < 64
  {
    0x80 + bits
  }

  function Pair(a: int, b: int): int {
    a * 64 + b
  }

  /** All but the last six bits. */
  function Upper(code: nat): (upper: nat)
    ensures 64 * upper <= code < 64 * upper + 64
  {
    code / 64
  }

  function Last(code: nat): (bits: nat)
    ensures bits < 64 && Pair(Upper(code), bits) == code
  {
    code % 64
  }

  function EncodeCode(code: Code): (bytes: seq<Byte>)
    ensures |bytes| == CodeBytes(code)
  {
    if code < 0x80 then [Lead(0, code)]
    else
      var upper := Upper(code);
      if code < 0x800 then [Lead(0xC0, upper), Continuing(Last(code))]
      else
        var third := Upper(upper);
        if code < 0x1_0000 then [Lead(0xE0, third), Continuing(Last(upper)), Continuing(Last(code))]
        else [Lead(0xF0, Upper(third)), Continuing(Last(third)), Continuing(Last(upper)), Continuing(Last(code))]
  }

  predicate Continues(b: Byte) {
    0x80 <= b < 0xC0
  }

  function Bits(b: int, base: int): int {
    b - base
  }

  function Within(code: int, least: int): Option<Code> {
    if least <= code && Scalar(code) then Some(code) else None
  }

  /** The first character's code; overlong forms, surrogates and codes past the last plane are refused. */
  function DecodeCode(bytes: seq<Byte>): (code: Option<Code>)
    ensures code.Some? ==> CodeBytes(code.value) <= |bytes|
  {
    if |bytes| == 0 then None
    else if bytes[0] < 0x80 then Some(bytes[0])
    else if bytes[0] < 0xC2 then None
    else if bytes[0] < 0xE0 then
      if |bytes| < 2 || !Continues(bytes[1]) then None else Within(Pair(Bits(bytes[0], 0xC0), Bits(bytes[1], 0x80)), 0x80)
    else if bytes[0] < 0xF0 then
      if |bytes| < 3 || !Continues(bytes[1]) || !Continues(bytes[2]) then None
      else Within(Pair(Pair(Bits(bytes[0], 0xE0), Bits(bytes[1], 0x80)), Bits(bytes[2], 0x80)), 0x800)
    else if bytes[0] < 0xF5 then
      if |bytes| < 4 || !Continues(bytes[1]) || !Continues(bytes[2]) || !Continues(bytes[3]) then None
      else
        Within(Pair(Pair(Pair(Bits(bytes[0], 0xF0), Bits(bytes[1], 0x80)), Bits(bytes[2], 0x80)), Bits(bytes[3], 0x80)), 0x1_0000)
    else None
  }

  lemma PairSplits(a: nat, b: nat)
    requires b < 64
    ensures Upper(Pair(a, b)) == a && Last(Pair(a, b)) == b
  {
  }

  lemma CodeRoundTrip(code: Code, rest: seq<Byte>)
    ensures DecodeCode(EncodeCode(code) + rest) == Some(code)
  {
    hide Pair, Upper, Last;
    if code >= 0x80 {
      var upper := Upper(code);
      var third := Upper(upper);
      assert code == Pair(upper, Last(code)) && upper == Pair(third, Last(upper)) && third == Pair(Upper(third), Last(third));
    }
  }

  lemma CodeUnique(bytes: seq<Byte>)
    requires DecodeCode(bytes).Some?
    ensures var code := DecodeCode(bytes).value; EncodeCode(code) == bytes[..CodeBytes(code)]
  {
    hide Upper, Last;
    var code := DecodeCode(bytes).value;
    if bytes[0] < 0x80 {
    } else if bytes[0] < 0xE0 {
      PairSplits(Bits(bytes[0], 0xC0), Bits(bytes[1], 0x80));
    } else if bytes[0] < 0xF0 {
      PairSplits(Bits(bytes[0], 0xE0), Bits(bytes[1], 0x80));
      PairSplits(Pair(Bits(bytes[0], 0xE0), Bits(bytes[1], 0x80)), Bits(bytes[2], 0x80));
    } else {
      PairSplits(Bits(bytes[0], 0xF0), Bits(bytes[1], 0x80));
      PairSplits(Pair(Bits(bytes[0], 0xF0), Bits(bytes[1], 0x80)), Bits(bytes[2], 0x80));
      PairSplits(Pair(Pair(Bits(bytes[0], 0xF0), Bits(bytes[1], 0x80)), Bits(bytes[2], 0x80)), Bits(bytes[3], 0x80));
    }
  }

  function EncodeChar(c: char): (bytes: seq<Byte>)
    ensures |bytes| == CharBytes(c)
  {
    EncodeCode(c as int)
  }

  function DecodeChar(bytes: seq<Byte>): (c: Option<char>)
    ensures c.Some? ==> CharBytes(c.value) <= |bytes|
  {
    var code := DecodeCode(bytes);
    if code.None? then None else Some(code.value as char)
  }

  function Encode(s: string): seq<Byte> {
    if |s| == 0 then [] else EncodeChar(s[0]) + Encode(s[1..])
  }

  function Decode(bytes: seq<Byte>): Option<string>
    decreases |bytes|
  {
    if |bytes| == 0 then Some("")
    else
      var first := DecodeChar(bytes);
      if first.None? then None
      else
        var rest := Decode(bytes[CharBytes(first.value)..]);
        if rest.None? then None else Some([first.value] + rest.value)
  }

  lemma CharRoundTrip(c: char, rest: seq<Byte>)
    ensures DecodeChar(EncodeChar(c) + rest) == Some(c)
  {
    hide EncodeCode, DecodeCode;
    CodeRoundTrip(c as int, rest);
  }

  lemma CharUnique(bytes: seq<Byte>)
    requires DecodeChar(bytes).Some?
    ensures var c := DecodeChar(bytes).value; bytes == EncodeChar(c) + bytes[CharBytes(c)..]
  {
    hide EncodeCode, DecodeCode;
    CodeUnique(bytes);
  }

  lemma {:induction false} EncodedLength(s: string)
    ensures |Encode(s)| == Utf8Length(s)
  {
    if |s| > 0 {
      EncodedLength(s[1..]);
      Utf8Adds([s[0]], s[1..]);
      assert [s[0]] + s[1..] == s;
      assert Utf8Length([s[0]]) == CharBytes(s[0]) by {
        assert [s[0]][..0] == "";
      }
    }
  }

  lemma {:induction false} RoundTrip(s: string)
    ensures Decode(Encode(s)) == Some(s)
  {
    hide EncodeChar, DecodeChar;
    if |s| > 0 {
      var bytes := Encode(s);
      CharRoundTrip(s[0], Encode(s[1..]));
      assert bytes[CharBytes(s[0])..] == Encode(s[1..]);
      RoundTrip(s[1..]);
      assert [s[0]] + s[1..] == s;
    }
  }

  lemma {:induction false} Unique(bytes: seq<Byte>)
    requires Decode(bytes).Some?
    ensures Encode(Decode(bytes).value) == bytes
    decreases |bytes|
  {
    hide EncodeChar, DecodeChar;
    if |bytes| > 0 {
      var c := DecodeChar(bytes).value;
      CharUnique(bytes);
      Unique(bytes[CharBytes(c)..]);
      var rest := Decode(bytes[CharBytes(c)..]).value;
      assert ([c] + rest)[1..] == rest;
    }
  }

  /** Bytes read as a text exactly when they are that text written. */
  lemma DecodesExactly(bytes: seq<Byte>, s: string)
    ensures Decode(bytes) == Some(s) <==> Encode(s) == bytes
  {
    hide Decode, Encode;
    RoundTrip(s);
    if Decode(bytes) == Some(s) {
      Unique(bytes);
    }
  }
}

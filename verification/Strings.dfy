/** Character facts the runtime relies on: UTF-8 lengths, blank text, control characters. */
module Strings {
  /** Bytes of a character in UTF-8. */
  function CharBytes(c: char): nat {
    var code := c as int;
    if code < 0x80 then 1 else if code < 0x800 then 2 else if code < 0x1_0000 then 3 else 4
  }

  function Utf8Length(s: string): (length: nat)
    ensures |s| <= length
  {
    if |s| == 0 then 0 else Utf8Length(s[..|s| - 1]) + CharBytes(s[|s| - 1])
  }

  /** The Unicode White_Space property, which trimming removes. */
  predicate IsSpace(c: char) {
    var code := c as int;
    || 9 <= code <= 13 || code == 0x20 || code == 0x85 || code == 0xA0 || code == 0x1680 || 0x2000 <= code <= 0x200A
    || code == 0x2028 || code == 0x2029 || code == 0x202F || code == 0x205F || code == 0x3000
  }

  predicate Blank(s: string) {
    forall i :: 0 <= i < |s| ==> IsSpace(s[i])
  }

  predicate IsControl(c: char) {
    var code := c as int;
    code < 0x20 || 0x7F <= code <= 0x9F
  }

  predicate HasControl(s: string) {
    exists i :: 0 <= i < |s| && IsControl(s[i])
  }

  lemma {:induction false} Utf8Adds(s: string, t: string)
    ensures Utf8Length(s + t) == Utf8Length(s) + Utf8Length(t)
    decreases |t|
  {
    if |t| == 0 {
      assert s + t == s;
    } else {
      Utf8Adds(s, t[..|t| - 1]);
      assert (s + t)[..|s + t| - 1] == s + t[..|t| - 1];
    }
  }
}

/**
 The reflected CRC-32C register (section 12.1 of RFC 3720), bit by bit, and
 what it detects: every change confined to four consecutive bytes.
 */
module Crc {
  import opened Bytes

  const POLYNOMIAL: bv32 := 0x82f6_3b78

  function Xor(a: bv32, b: bv32): bv32 { a ^ b }

  function Half(word: bv32): bv32 { word >> 1 }

  predicate Odd(word: bv32) { word & 1 == 1 }

  /** A byte as a register word, bit by bit. */
  function Word(value: nat, bits: nat): bv32 {
    if bits == 0 then 0 else Push(Word(value / 2, bits - 1), value % 2 == 1)
  }

  function Push(word: bv32, bit: bool): bv32 {
    (word << 1) | (if bit then 1 else 0)
  }

  /** The unsigned value of a register word. */
  function Value(word: bv32, bits: nat): nat {
    if bits == 0 then 0 else (if Odd(word) then 1 else 0) + 2 * Value(Half(word), bits - 1)
  }

  /** One bit: shift right, and fold the polynomial in when the lost bit was set. */
  function Bit(crc: bv32): bv32 {
    if Odd(crc) then Xor(Half(crc), POLYNOMIAL) else Half(crc)
  }

  function Bits(crc: bv32, n: nat): bv32 {
    if n == 0 then crc else Bit(Bits(crc, n - 1))
  }

  function Step(crc: bv32, byte: Byte): bv32 {
    Bits(Xor(crc, Word(byte, 8)), 8)
  }

  function Register(crc: bv32, bytes: seq<Byte>): bv32
    decreases |bytes|
  {
    if bytes == [] then crc else Register(Step(crc, bytes[0]), bytes[1..])
  }

  const ONES: bv32 := 0xffff_ffff

  function Complement(word: bv32): bv32 { !word }

  function Crc32c(bytes: seq<Byte>): bv32 {
    Complement(Register(ONES, bytes))
  }

  /** The checksum as the integer that is stored. */
  function Checksum(bytes: seq<Byte>): nat {
    Value(Crc32c(bytes), 32)
  }

  /** The checksum loop: a register updated in place, eight shifts a byte, with the
      branch-free mask of the implementation. */
  method ComputeCrc32c(bytes: seq<Byte>) returns (checksum: bv32)
    ensures checksum == Crc32c(bytes)
  {
    hide Word, Bit, Xor, Half;
    var crc := ONES;
    for i := 0 to |bytes|
      invariant Register(crc, bytes[i..]) == Register(ONES, bytes)
    {
      assert bytes[i..][0] == bytes[i] && bytes[i..][1..] == bytes[i + 1..];
      ghost var before := crc;
      crc := Xor(crc, Word(bytes[i], 8));
      ghost var mixed := crc;
      for k := 0 to 8
        invariant crc == Bits(mixed, k)
      {
        var mask: bv32 := 0 - (crc & 1);
        MaskSelects(crc);
        crc := Xor(Half(crc), POLYNOMIAL & mask);
      }
      assert crc == Step(before, bytes[i]);
    }
    assert bytes[|bytes|..] == [];
    checksum := Complement(crc);
  }

  lemma MaskSelects(crc: bv32)
    ensures Xor(Half(crc), POLYNOMIAL & (0 - (crc & 1))) == Bit(crc)
  {
    MaskOf(crc);
    XorZero(Half(crc));
    hide Xor, Half;
  }

  lemma MaskOf(crc: bv32)
    ensures Odd(crc) ==> POLYNOMIAL & (0 - (crc & 1)) == POLYNOMIAL
    ensures !Odd(crc) ==> POLYNOMIAL & (0 - (crc & 1)) == 0
  {
    LowBit(crc);
  }

  lemma LowBit(crc: bv32)
    ensures crc & 1 == 0 || crc & 1 == 1
  {
  }

  // ---------- words and their values ----------

  function Limit(bits: nat): bv32 {
    if bits == 0 then 1 else Limit(bits - 1) << 1
  }

  lemma Limits()
    ensures Limit(0) == 1 && Limit(1) == 2 && Limit(2) == 4 && Limit(3) == 8 && Limit(4) == 16
    ensures Limit(5) == 32 && Limit(6) == 64 && Limit(7) == 128 && Limit(8) == 256
  {
  }

  lemma PushBelow(word: bv32, bit: bool, limit: bv32)
    requires word < limit <= 0x80
    ensures Push(word, bit) < limit << 1
  {
  }

  lemma {:induction false} WordBelow(value: nat, bits: nat)
    requires bits <= 8
    ensures Word(value, bits) < Limit(bits) && Limit(bits) <= 0x100 && (bits < 8 ==> Limit(bits) <= 0x80)
  {
    Limits();
    hide Limit, Push;
    if bits > 0 {
      WordBelow(value / 2, bits - 1);
      PushBelow(Word(value / 2, bits - 1), value % 2 == 1, Limit(bits - 1));
      LimitDoubles(bits);
    }
  }

  lemma LimitDoubles(bits: nat)
    requires bits > 0
    ensures Limit(bits) == Limit(bits - 1) << 1
  {
  }

  lemma PushInjective(x: bv32, p: bool, y: bv32, q: bool)
    requires x <= 0x80 && y <= 0x80 && Push(x, p) == Push(y, q)
    ensures x == y && p == q
  {
  }

  function Pow2(n: nat): nat {
    if n == 0 then 1 else 2 * Pow2(n - 1)
  }

  lemma {:induction false} WordInjective(x: nat, y: nat, bits: nat)
    requires bits <= 8 && x < Pow2(bits) && y < Pow2(bits) && Word(x, bits) == Word(y, bits)
    ensures x == y
  {
    hide Push, Limit;
    if bits > 0 {
      WordBelow(x / 2, bits - 1);
      WordBelow(y / 2, bits - 1);
      PushInjective(Word(x / 2, bits - 1), x % 2 == 1, Word(y / 2, bits - 1), y % 2 == 1);
      WordInjective(x / 2, y / 2, bits - 1);
    }
  }

  lemma ByteWord(x: Byte)
    ensures Word(x, 8) < 0x100
  {
    hide Word;
    WordBelow(x, 8);
    Limits();
  }

  lemma ByteWordInjective(x: Byte, y: Byte)
    requires Word(x, 8) == Word(y, 8)
    ensures x == y
  {
    hide Word;
    assert Pow2(8) == 256;
    WordInjective(x, y, 8);
  }

  lemma {:induction false} ValueBelow(word: bv32, bits: nat)
    ensures Value(word, bits) < Pow2(bits)
  {
    if bits > 0 {
      ValueBelow(Half(word), bits - 1);
    }
  }

  /** Nothing is left of a word after `bits` shifts. */
  predicate Short(word: bv32, bits: nat) {
    if bits == 0 then word == 0 else Short(Half(word), bits - 1)
  }

  lemma HalvesDiffer(x: bv32, y: bv32)
    requires Half(x) == Half(y) && (Odd(x) <==> Odd(y))
    ensures x == y
  {
    LowBit(x);
    LowBit(y);
    SplitLowBit(x, y);
  }

  lemma SplitLowBit(x: bv32, y: bv32)
    requires x >> 1 == y >> 1 && x & 1 == y & 1
    ensures x == y
  {
  }

  lemma {:induction false} ValueInjective(x: bv32, y: bv32, bits: nat)
    requires Short(x, bits) && Short(y, bits) && Value(x, bits) == Value(y, bits)
    ensures x == y
    decreases bits
  {
    hide Half, Odd;
    if bits > 0 {
      ValueInjective(Half(x), Half(y), bits - 1);
      HalvesDiffer(x, y);
    }
  }

  lemma EightHalves(word: bv32)
    ensures Half(Half(Half(Half(Half(Half(Half(Half(word)))))))) == word >> 8
  {
  }

  lemma ShortChunk(word: bv32, bits: nat)
    requires Short(word >> 8, bits)
    ensures Short(word, bits + 8)
  {
    EightHalves(word);
    hide Half;
    var h2 := Half(Half(word));
    var h4 := Half(Half(h2));
    var h6 := Half(Half(h4));
    assert Short(h6, bits + 2);
    assert Short(h4, bits + 4);
    assert Short(h2, bits + 6);
  }

  lemma FourChunks(word: bv32)
    ensures (((word >> 8) >> 8) >> 8) >> 8 == 0
  {
  }

  lemma AllShort(word: bv32)
    ensures Short(word, 32)
  {
    FourChunks(word);
    hide Half;
    var a := word >> 8;
    var b := a >> 8;
    var c := b >> 8;
    assert Short(c >> 8, 0);
    ShortChunk(c, 0);
    ShortChunk(b, 8);
    ShortChunk(a, 16);
    ShortChunk(word, 24);
  }

  // ---------- the bit step is invertible and linear ----------

  function Unbit(crc: bv32): bv32 {
    if crc & 0x8000_0000 != 0 then ((crc ^ 0x82f6_3b78) << 1) | 1 else crc << 1
  }

  lemma OddInverts(c: bv32, d: bv32)
    requires c & 1 == 1 && d == (c >> 1) ^ 0x82f6_3b78
    ensures Unbit(d) == c
  {
  }

  lemma EvenInverts(c: bv32)
    requires c & 1 == 0
    ensures Unbit(c >> 1) == c
  {
  }

  lemma BitInvertible(crc: bv32)
    ensures Unbit(Bit(crc)) == crc
  {
    LowBit(crc);
    hide Unbit;
    if crc & 1 == 1 {
      OddInverts(crc, (crc >> 1) ^ 0x82f6_3b78);
    } else {
      EvenInverts(crc);
    }
  }

  lemma HalfLinear(a: bv32, b: bv32)
    ensures Half(Xor(a, b)) == Xor(Half(a), Half(b))
  {
  }

  lemma OddLinear(a: bv32, b: bv32)
    ensures Odd(Xor(a, b)) <==> Odd(a) != Odd(b)
  {
  }

  lemma XorAssoc(a: bv32, b: bv32, c: bv32)
    ensures Xor(Xor(a, b), c) == Xor(a, Xor(b, c))
  {
  }

  lemma XorCommutes(a: bv32, b: bv32)
    ensures Xor(a, b) == Xor(b, a)
  {
  }

  lemma XorSelf(a: bv32)
    ensures Xor(a, a) == 0
  {
  }

  lemma XorZero(a: bv32)
    ensures Xor(a, 0) == a
  {
  }

  lemma XorCancels(a: bv32, b: bv32, c: bv32)
    requires Xor(c, a) == Xor(c, b) || Xor(a, c) == Xor(b, c)
    ensures a == b
  {
    XorAssoc(a, c, c);
    XorAssoc(b, c, c);
    XorCommutes(a, c);
    XorCommutes(b, c);
    XorSelf(c);
    XorZero(a);
    XorZero(b);
    hide Xor;
  }

  /** Mixing the polynomial into both operands cancels; into one of them, it can be done afterwards. */
  lemma FoldXor(p: bv32, q: bv32, k: bv32)
    ensures Xor(Xor(p, k), Xor(q, k)) == Xor(p, q)
    ensures Xor(Xor(p, k), q) == Xor(Xor(p, q), k) && Xor(p, Xor(q, k)) == Xor(Xor(p, q), k)
  {
    XorAssoc(p, q, k);
    XorAssoc(p, k, q);
    XorCommutes(q, k);
    XorAssoc(p, k, Xor(q, k));
    XorAssoc(k, k, q);
    XorSelf(k);
    XorCommutes(0, q);
    XorZero(q);
    hide Xor;
  }

  lemma BitLinear(a: bv32, b: bv32)
    ensures Bit(Xor(a, b)) == Xor(Bit(a), Bit(b))
  {
    HalfLinear(a, b);
    OddLinear(a, b);
    FoldXor(Half(a), Half(b), POLYNOMIAL);
    hide Xor, Half, Odd, POLYNOMIAL;
  }

  lemma {:induction false} BitsLinear(a: bv32, b: bv32, n: nat)
    ensures Bits(Xor(a, b), n) == Xor(Bits(a, n), Bits(b, n))
  {
    hide Bit, Xor;
    if n > 0 {
      BitsLinear(a, b, n - 1);
      BitLinear(Bits(a, n - 1), Bits(b, n - 1));
    }
  }

  lemma {:induction false} BitsInjective(a: bv32, b: bv32, n: nat)
    requires Bits(a, n) == Bits(b, n)
    ensures a == b
  {
    hide Bit, Unbit;
    if n > 0 {
      BitInvertible(Bits(a, n - 1));
      BitInvertible(Bits(b, n - 1));
      BitsInjective(a, b, n - 1);
    }
  }

  lemma {:induction false} BitsCompose(a: bv32, m: nat, n: nat)
    ensures Bits(Bits(a, m), n) == Bits(a, m + n)
  {
    hide Bit;
    if n > 0 {
      BitsCompose(a, m, n - 1);
    }
  }

  // ---------- a short window enters the register like one word ----------

  /** Up to four bytes as one little-endian word. */
  function Pack(bytes: seq<Byte>): bv32 {
    if bytes == [] then 0 else Xor(Word(bytes[0], 8), Shift8(Pack(bytes[1..])))
  }

  function Shift8(word: bv32): bv32 { word << 8 }

  function Room(k: nat): bv32 {
    match k
    case 0 => 0
    case 1 => 0xff
    case 2 => 0xffff
    case 3 => 0xff_ffff
    case _ => 0xffff_ffff
  }

  lemma PackStep(byte: bv32, rest: bv32, k: nat)
    requires k < 4 && rest <= Room(k) && byte < 0x100
    ensures Xor(byte, Shift8(rest)) <= Room(k + 1) && rest < 0x100_0000
  {
  }

  lemma {:induction false} PackBelow(bytes: seq<Byte>)
    requires |bytes| <= 4
    ensures Pack(bytes) <= Room(|bytes|)
  {
    hide Xor, Word, Shift8, Room;
    if bytes != [] {
      PackBelow(bytes[1..]);
      ByteWord(bytes[0]);
      PackStep(Word(bytes[0], 8), Pack(bytes[1..]), |bytes| - 1);
    } else {
      RoomZero();
    }
  }

  lemma RoomZero()
    ensures Room(0) == 0
  {
  }

  lemma PackTail(bytes: seq<Byte>)
    requires 0 < |bytes| <= 4
    ensures Pack(bytes[1..]) < 0x100_0000
  {
    hide Pack, Xor, Shift8;
    PackBelow(bytes[1..]);
    PackStep(0, Pack(bytes[1..]), |bytes| - 1);
  }

  lemma EightBitShift(c: bv32)
    ensures Bits(c, 8) == Bit(Bit(Bit(Bit(Bit(Bit(Bit(Bit(c))))))))
  {
    hide Bit;
    assert Bits(c, 1) == Bit(c);
    assert Bits(c, 2) == Bit(Bit(c));
    assert Bits(c, 4) == Bit(Bit(Bits(c, 2)));
    assert Bits(c, 6) == Bit(Bit(Bits(c, 4)));
    assert Bits(c, 8) == Bit(Bit(Bits(c, 6)));
  }

  lemma BitOfDouble(word: bv32, double: bv32)
    requires word < 0x8000_0000 && double == word << 1
    ensures Bit(double) == word
  {
  }

  lemma Doubled(word: bv32, a: bv32, b: bv32)
    requires word < 0x100_0000
    requires (a == word << 1 && b == word) || (a == word << 2 && b == word << 1) || (a == word << 3 && b == word << 2)
             || (a == word << 4 && b == word << 3) || (a == word << 5 && b == word << 4) || (a == word << 6 && b == word << 5)
             || (a == word << 7 && b == word << 6) || (a == word << 8 && b == word << 7)
    ensures b < 0x8000_0000 && a == b << 1
  {
  }

  lemma EightDoubles(d0: bv32, d1: bv32, d2: bv32, d3: bv32, d4: bv32, d5: bv32, d6: bv32, d7: bv32, d8: bv32)
    requires Bit(d1) == d0 && Bit(d2) == d1 && Bit(d3) == d2 && Bit(d4) == d3
    requires Bit(d5) == d4 && Bit(d6) == d5 && Bit(d7) == d6 && Bit(d8) == d7
    ensures Bits(d8, 8) == d0
  {
    hide Bit;
    EightBitShift(d8);
  }

  lemma BitOfShift(word: bv32, a: bv32, b: bv32)
    requires word < 0x100_0000
    requires (a == word << 1 && b == word) || (a == word << 2 && b == word << 1) || (a == word << 3 && b == word << 2)
             || (a == word << 4 && b == word << 3) || (a == word << 5 && b == word << 4) || (a == word << 6 && b == word << 5)
             || (a == word << 7 && b == word << 6) || (a == word << 8 && b == word << 7)
    ensures Bit(a) == b
  {
    Doubled(word, a, b);
    BitOfDouble(b, a);
  }

  lemma ZeroByteShiftsOut(word: bv32)
    requires word < 0x100_0000
    ensures Bits(Shift8(word), 8) == word
  {
    hide Bit, Bits;
    BitOfShift(word, word << 1, word);
    BitOfShift(word, word << 2, word << 1);
    BitOfShift(word, word << 3, word << 2);
    BitOfShift(word, word << 4, word << 3);
    BitOfShift(word, word << 5, word << 4);
    BitOfShift(word, word << 6, word << 5);
    BitOfShift(word, word << 7, word << 6);
    BitOfShift(word, word << 8, word << 7);
    EightDoubles(word, word << 1, word << 2, word << 3, word << 4, word << 5, word << 6, word << 7, word << 8);
  }

  /** Feeding at most four bytes is the same as mixing their word in once and shifting it through. */
  lemma {:induction false} WindowAsWord(crc: bv32, bytes: seq<Byte>)
    requires |bytes| <= 4
    ensures Register(crc, bytes) == Bits(Xor(crc, Pack(bytes)), 8 * |bytes|)
    decreases |bytes|
  {
    hide Bits, Xor, Word, Shift8;
    if bytes == [] {
      XorZero(crc);
      BitsNone(crc);
    } else {
      var rest := Pack(bytes[1..]);
      var byte := Word(bytes[0], 8);
      var n := 8 * (|bytes| - 1);
      PackTail(bytes);
      WindowAsWord(Step(crc, bytes[0]), bytes[1..]);
      calc {
        Xor(Step(crc, bytes[0]), rest);
        { ZeroByteShiftsOut(rest); }
        Xor(Bits(Xor(crc, byte), 8), Bits(Shift8(rest), 8));
        { BitsLinear(Xor(crc, byte), Shift8(rest), 8); }
        Bits(Xor(Xor(crc, byte), Shift8(rest)), 8);
        { XorAssoc(crc, byte, Shift8(rest)); }
        Bits(Xor(crc, Pack(bytes)), 8);
      }
      BitsCompose(Xor(crc, Pack(bytes)), 8, n);
    }
  }

  lemma BitsNone(c: bv32)
    ensures Bits(c, 0) == c
  {
  }

  lemma SplitWord(a: bv32, b: bv32, p: bv32, q: bv32)
    requires p < 0x100_0000 && q < 0x100_0000 && a < 0x100 && b < 0x100
    requires Xor(a, Shift8(p)) == Xor(b, Shift8(q))
    ensures a == b && p == q
  {
  }

  lemma {:induction false} PackInjective(x: seq<Byte>, y: seq<Byte>)
    requires |x| == |y| <= 4 && Pack(x) == Pack(y)
    ensures x == y
  {
    hide Xor, Shift8, Word;
    if x != [] {
      PackTail(x);
      PackTail(y);
      ByteWord(x[0]);
      ByteWord(y[0]);
      SplitWord(Word(x[0], 8), Word(y[0], 8), Pack(x[1..]), Pack(y[1..]));
      ByteWordInjective(x[0], y[0]);
      PackInjective(x[1..], y[1..]);
      assert x == [x[0]] + x[1..] && y == [y[0]] + y[1..];
    }
  }

  // ---------- equal-length data with one short difference ----------

  lemma {:induction false} RegisterAppend(crc: bv32, x: seq<Byte>, y: seq<Byte>)
    ensures Register(crc, x + y) == Register(Register(crc, x), y)
    decreases |x|
  {
    hide Step;
    if x == [] {
      assert x + y == y;
    } else {
      assert (x + y)[1..] == x[1..] + y;
      RegisterAppend(Step(crc, x[0]), x[1..], y);
    }
  }

  lemma {:induction false} RegisterInjective(a: bv32, b: bv32, bytes: seq<Byte>)
    requires Register(a, bytes) == Register(b, bytes)
    ensures a == b
    decreases |bytes|
  {
    hide Bits, Xor, Word;
    if bytes != [] {
      RegisterInjective(Step(a, bytes[0]), Step(b, bytes[0]), bytes[1..]);
      var byte := Word(bytes[0], 8);
      BitsInjective(Xor(a, byte), Xor(b, byte), 8);
      XorCancels(a, b, byte);
    }
  }

  lemma NotInjective(a: bv32, b: bv32)
    requires Complement(a) == Complement(b)
    ensures a == b
  {
  }

  lemma SameRegister(x: seq<Byte>, y: seq<Byte>)
    requires Crc32c(x) == Crc32c(y)
    ensures Register(ONES, x) == Register(ONES, y)
  {
    hide Register, Complement;
    NotInjective(Register(ONES, x), Register(ONES, y));
  }

  /** Any change confined to a window of at most four consecutive bytes changes the checksum. */
  lemma ShortChangeDetected(before: seq<Byte>, x: seq<Byte>, y: seq<Byte>, after: seq<Byte>)
    requires |x| == |y| <= 4 && x != y
    ensures Checksum(before + x + after) != Checksum(before + y + after)
  {
    hide Register, Bits, Pack, Value, Xor, Short, Crc32c;
    var start := ONES;
    var crc := Register(start, before);
    var p, q := Crc32c(before + x + after), Crc32c(before + y + after);
    if Value(p, 32) == Value(q, 32) {
      AllShort(p);
      AllShort(q);
      ValueInjective(p, q, 32);
      SameRegister(before + x + after, before + y + after);
      RegisterAppend(start, before + x, after);
      RegisterAppend(start, before + y, after);
      RegisterAppend(start, before, x);
      RegisterAppend(start, before, y);
      RegisterInjective(Register(crc, x), Register(crc, y), after);
      WindowAsWord(crc, x);
      WindowAsWord(crc, y);
      BitsInjective(Xor(crc, Pack(x)), Xor(crc, Pack(y)), 8 * |x|);
      XorCancels(Pack(x), Pack(y), crc);
      PackInjective(x, y);
    }
  }

  lemma ChecksumFits(bytes: seq<Byte>)
    ensures Checksum(bytes) < Pow256(4)
  {
    hide Crc32c;
    ValueBelow(Crc32c(bytes), 32);
    Widths();
    Pow2Of32();
  }

  lemma Pow2Of32()
    ensures Pow2(32) == 0x1_0000_0000
  {
    assert Pow2(8) == 256;
    assert Pow2(16) == 256 * 256 by {
      assert Pow2(12) == 16 * Pow2(8);
      assert Pow2(16) == 16 * Pow2(12);
    }
    assert Pow2(20) == 16 * Pow2(16);
    assert Pow2(24) == 16 * Pow2(20);
    assert Pow2(28) == 16 * Pow2(24);
    assert Pow2(32) == 16 * Pow2(28);
  }
}

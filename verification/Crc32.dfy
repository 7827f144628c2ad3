/** CRC-32 as section 8 of RFC 1952 defines it, one bit at a time, and why it notices damage.

    `zlib.crc32` is table-driven; the table is this bitwise step precomputed. Everything below
    rests on one fact: the step is a bijection on the register, linear over exclusive-or.
  */
module Crc32 {

  /** One bit through the register. The constant is the reflected generator polynomial. */
  function Shift(r: bv32): bv32 {
    if r & 1 == 1 then (r >> 1) ^ 0xEDB8_8320 else r >> 1
  }

  function Step(r: bv32): bv32 {
    Shift(Shift(Shift(Shift(Shift(Shift(Shift(Shift(r))))))))
  }

  function Absorb(r: bv32, b: bv8): bv32 {
    Step(r ^ (b as bv32))
  }

  function AbsorbAll(r: bv32, data: seq<bv8>): bv32
    decreases data
  {
    if data == [] then r else AbsorbAll(Absorb(r, data[0]), data[1..])
  }

  function Checksum(data: seq<bv8>): bv32 {
    AbsorbAll(0xFFFF_FFFF, data) ^ 0xFFFF_FFFF
  }

  // -- the step loses nothing ---------------------------------------------------------

  lemma ShiftInjective(a: bv32, b: bv32)
    requires Shift(a) == Shift(b)
    ensures a == b
  {
  }

  lemma StepInjective(a: bv32, b: bv32)
    requires Step(a) == Step(b)
    ensures a == b
  {
    var (a1, b1) := (Shift(a), Shift(b));
    var (a2, b2) := (Shift(a1), Shift(b1));
    var (a3, b3) := (Shift(a2), Shift(b2));
    var (a4, b4) := (Shift(a3), Shift(b3));
    var (a5, b5) := (Shift(a4), Shift(b4));
    var (a6, b6) := (Shift(a5), Shift(b5));
    var (a7, b7) := (Shift(a6), Shift(b6));
    ShiftInjective(a7, b7);
    ShiftInjective(a6, b6);
    ShiftInjective(a5, b5);
    ShiftInjective(a4, b4);
    ShiftInjective(a3, b3);
    ShiftInjective(a2, b2);
    ShiftInjective(a1, b1);
    ShiftInjective(a, b);
  }

  lemma XorCancels(a: bv32, b: bv32, c: bv32)
    requires a ^ c == b ^ c
    ensures a == b
  {
  }

  /** Exclusive-or under a name, so that a proof can use linearity without looking inside. */
  function Xor(a: bv32, b: bv32): bv32 {
    a ^ b
  }

  function Low(b: bv8): bv32 {
    b as bv32
  }

  lemma XorLaws(a: bv32, b: bv32, c: bv32)
    ensures Xor(a, Xor(b, c)) == Xor(Xor(a, b), c)
    ensures Xor(a, 0) == a
  {
  }

  lemma XorIsInjective(a: bv32, b: bv32, c: bv32)
    requires Xor(a, c) == Xor(b, c) || Xor(c, a) == Xor(c, b)
    ensures a == b
  {
    if Xor(a, c) == Xor(b, c) {
      XorCancels(a, b, c);
    } else {
      XorCancelsLeft(a, b, c);
    }
  }

  lemma XorCancelsLeft(a: bv32, b: bv32, c: bv32)
    requires c ^ a == c ^ b
    ensures a == b
  {
  }

  lemma AbsorbIsStep(r: bv32, b: bv8)
    ensures Absorb(r, b) == Step(Xor(r, Low(b)))
  {
    hide Step;
  }

  lemma AbsorbInjective(a: bv32, b: bv32, byte: bv8)
    requires Absorb(a, byte) == Absorb(b, byte)
    ensures a == b
  {
    hide Absorb, Step, Xor, Low;
    AbsorbIsStep(a, byte);
    AbsorbIsStep(b, byte);
    StepInjective(Xor(a, Low(byte)), Xor(b, Low(byte)));
    XorIsInjective(a, b, Low(byte));
  }

  /** Two registers that differ still differ after any further bytes. */
  lemma {:induction false} AbsorbAllInjective(a: bv32, b: bv32, data: seq<bv8>)
    requires AbsorbAll(a, data) == AbsorbAll(b, data)
    ensures a == b
    decreases data
  {
    hide Absorb;
    if data != [] {
      AbsorbAllInjective(Absorb(a, data[0]), Absorb(b, data[0]), data[1..]);
      AbsorbInjective(a, b, data[0]);
    }
  }

  lemma {:induction false} AbsorbAllConcat(r: bv32, x: seq<bv8>, y: seq<bv8>)
    ensures AbsorbAll(r, x + y) == AbsorbAll(AbsorbAll(r, x), y)
    decreases x
  {
    hide Absorb;
    if x == [] {
      assert x + y == y;
    } else {
      assert (x + y)[1..] == x[1..] + y;
      AbsorbAllConcat(Absorb(r, x[0]), x[1..], y);
    }
  }

  // -- the step is linear ---------------------------------------------------------------

  lemma ShiftLinear(a: bv32, b: bv32)
    ensures Shift(a ^ b) == Shift(a) ^ Shift(b)
  {
    ShiftRightLinear(a, b);
    LowBitLinear(a, b);
    if a & 1 == 1 {
      if b & 1 == 1 {
        BothToggles(a >> 1, b >> 1);
      } else {
        LeftToggles(a >> 1, b >> 1);
      }
    } else {
      LowBitIsABit(a);
      if b & 1 == 1 {
        RightToggles(a >> 1, b >> 1);
      }
    }
  }

  lemma ShiftRightLinear(a: bv32, b: bv32)
    ensures (a ^ b) >> 1 == (a >> 1) ^ (b >> 1)
  {
  }

  lemma LowBitLinear(a: bv32, b: bv32)
    ensures (a ^ b) & 1 == (a & 1) ^ (b & 1)
    ensures a & 1 == 0 || a & 1 == 1
    ensures b & 1 == 0 || b & 1 == 1
  {
  }

  lemma LowBitIsABit(a: bv32)
    ensures a & 1 == 0 || a & 1 == 1
  {
  }

  lemma BothToggles(x: bv32, y: bv32)
    ensures (x ^ 0xEDB8_8320) ^ (y ^ 0xEDB8_8320) == x ^ y
  {
  }

  lemma LeftToggles(x: bv32, y: bv32)
    ensures (x ^ 0xEDB8_8320) ^ y == (x ^ y) ^ 0xEDB8_8320
  {
  }

  lemma RightToggles(x: bv32, y: bv32)
    ensures x ^ (y ^ 0xEDB8_8320) == (x ^ y) ^ 0xEDB8_8320
  {
  }

  lemma ShiftsOverXor(a: bv32, b: bv32)
    ensures Shift(Xor(a, b)) == Xor(Shift(a), Shift(b))
  {
    hide Shift;
    ShiftLinear(a, b);
  }

  lemma StepLinear(a: bv32, b: bv32)
    ensures Step(Xor(a, b)) == Xor(Step(a), Step(b))
  {
    hide Shift, Xor;
    var (a1, b1) := (Shift(a), Shift(b));
    var (a2, b2) := (Shift(a1), Shift(b1));
    var (a3, b3) := (Shift(a2), Shift(b2));
    var (a4, b4) := (Shift(a3), Shift(b3));
    var (a5, b5) := (Shift(a4), Shift(b4));
    var (a6, b6) := (Shift(a5), Shift(b5));
    var (a7, b7) := (Shift(a6), Shift(b6));
    ShiftsOverXor(a, b);
    ShiftsOverXor(a1, b1);
    ShiftsOverXor(a2, b2);
    ShiftsOverXor(a3, b3);
    ShiftsOverXor(a4, b4);
    ShiftsOverXor(a5, b5);
    ShiftsOverXor(a6, b6);
    ShiftsOverXor(a7, b7);
  }

  /** A register with eight clear low bits only moves down. */
  lemma StepMovesDown(x: bv32)
    requires x & 0xFF == 0
    ensures Step(x) == x >> 8
  {
  }

  // -- a burst of up to four bytes -------------------------------------------------------

  function Up(x: bv32): bv32 {
    x << 8
  }

  /** Up to four bytes as one little-endian word. */
  function Word(u: seq<bv8>): bv32
    requires |u| <= 4
    decreases u
  {
    if u == [] then 0 else Xor(Low(u[0]), Up(Word(u[1..])))
  }

  function Steps(r: bv32, n: nat): bv32
    decreases n
  {
    if n == 0 then r else Steps(Step(r), n - 1)
  }

  lemma {:induction false} StepsInjective(a: bv32, b: bv32, n: nat)
    requires Steps(a, n) == Steps(b, n)
    ensures a == b
    decreases n
  {
    hide Step;
    if n > 0 {
      StepsInjective(Step(a), Step(b), n - 1);
      StepInjective(a, b);
    }
  }

  /** Whether the bits from `8 * n` up are clear, for a word of `n` bytes. */
  predicate Fits(x: bv32, n: nat) {
    if n == 0 then x == 0
    else if n == 1 then x & 0xFFFF_FF00 == 0
    else if n == 2 then x & 0xFFFF_0000 == 0
    else if n == 3 then x & 0xFF00_0000 == 0
    else true
  }

  lemma FitsGrows(b: bv8, x: bv32, n: nat)
    requires Fits(x, n)
    ensures Fits(Xor(Low(b), Up(x)), n + 1)
  {
  }

  lemma {:induction false} WordFits(u: seq<bv8>)
    requires |u| <= 4
    ensures Fits(Word(u), |u|)
    decreases u
  {
    hide Fits, Xor, Low, Up;
    if u == [] {
      NothingFits();
    } else {
      WordFits(u[1..]);
      FitsGrows(u[0], Word(u[1..]), |u| - 1);
    }
  }

  lemma NothingFits()
    ensures Fits(0, 0)
  {
  }

  /** The shifted-up part of a word comes back down after one byte's worth of steps. */
  lemma ComesDown(x: bv32, n: nat)
    requires Fits(x, n) && n <= 3
    ensures Step(Up(x)) == x
  {
    UpAndDown(x, n);
    hide Step, Fits;
    StepMovesDown(Up(x));
  }

  lemma UpAndDown(x: bv32, n: nat)
    requires Fits(x, n) && n <= 3
    ensures Up(x) >> 8 == x && Up(x) & 0xFF == 0
  {
    TopIsClear(x, n);
    ThreeBytesComeBack(x);
  }

  lemma TopIsClear(x: bv32, n: nat)
    requires Fits(x, n) && n <= 3
    ensures x & 0xFF00_0000 == 0
  {
    if n == 1 {
      FewerBytes(x);
    } else if n == 2 {
      FewerBytes(x);
    }
  }

  lemma FewerBytes(x: bv32)
    ensures x & 0xFFFF_FF00 == 0 ==> x & 0xFF00_0000 == 0
    ensures x & 0xFFFF_0000 == 0 ==> x & 0xFF00_0000 == 0
  {
  }

  lemma ThreeBytesComeBack(x: bv32)
    requires x & 0xFF00_0000 == 0
    ensures (x << 8) >> 8 == x && (x << 8) & 0xFF == 0
  {
  }

  /** Absorbing a few bytes one at a time is adding them all first and then shifting. */
  lemma {:induction false} AbsorbAsOneWord(r: bv32, u: seq<bv8>)
    requires |u| <= 4
    ensures AbsorbAll(r, u) == Steps(Xor(r, Word(u)), |u|)
    decreases u
  {
    hide Step, Xor, Low, Up, Absorb, Fits;
    if u == [] {
      XorLaws(r, 0, 0);
    } else {
      var low, high := Low(u[0]), Word(u[1..]);
      WordFits(u[1..]);
      XorLaws(r, low, Up(high));
      StepLinear(Xor(r, low), Up(high));
      ComesDown(high, |u| - 1);
      AbsorbIsStep(r, u[0]);
      AbsorbAsOneWord(Absorb(r, u[0]), u[1..]);
    }
  }

  lemma WordHeads(b: bv8, c: bv8, x: bv32, y: bv32, n: nat)
    requires Xor(Low(b), Up(x)) == Xor(Low(c), Up(y))
    requires n <= 3 && Fits(x, n) && Fits(y, n)
    ensures b == c && x == y
  {
    WordHeadsWide(b, c, x, y);
    UpAndDown(x, n);
    UpAndDown(y, n);
  }

  lemma WordHeadsWide(b: bv8, c: bv8, x: bv32, y: bv32)
    requires (b as bv32) ^ (x << 8) == (c as bv32) ^ (y << 8)
    ensures b == c && x << 8 == y << 8
  {
  }

  lemma {:induction false} WordInjective(u: seq<bv8>, v: seq<bv8>)
    requires |u| == |v| <= 4
    requires Word(u) == Word(v)
    ensures u == v
    decreases u
  {
    hide Xor, Low, Up, Fits;
    if u != [] {
      WordFits(u[1..]);
      WordFits(v[1..]);
      WordHeads(u[0], v[0], Word(u[1..]), Word(v[1..]), |u| - 1);
      WordInjective(u[1..], v[1..]);
      assert u == [u[0]] + u[1..] && v == [v[0]] + v[1..];
    }
  }

  /** The register after a burst tells which burst it was. */
  lemma BurstInjective(r: bv32, u: seq<bv8>, v: seq<bv8>)
    requires |u| == |v| <= 4
    requires AbsorbAll(r, u) == AbsorbAll(r, v)
    ensures u == v
  {
    hide Xor, Word, Steps, AbsorbAll;
    AbsorbAsOneWord(r, u);
    AbsorbAsOneWord(r, v);
    StepsInjective(Xor(r, Word(u)), Xor(r, Word(v)), |u|);
    XorIsInjective(Word(u), Word(v), r);
    WordInjective(u, v);
  }

  lemma ChecksumIsTheRegister(x: seq<bv8>, y: seq<bv8>)
    requires Checksum(x) == Checksum(y)
    ensures AbsorbAll(0xFFFF_FFFF, x) == AbsorbAll(0xFFFF_FFFF, y)
  {
    hide AbsorbAll;
    XorCancels(AbsorbAll(0xFFFF_FFFF, x), AbsorbAll(0xFFFF_FFFF, y), 0xFFFF_FFFF);
  }

  /** Damage confined to four consecutive bytes always changes the checksum. */
  lemma BurstIsNoticed(before: seq<bv8>, u: seq<bv8>, v: seq<bv8>, after: seq<bv8>)
    requires |u| == |v| <= 4
    requires u != v
    ensures Checksum(before + u + after) != Checksum(before + v + after)
  {
    hide AbsorbAll, Checksum;
    var r := AbsorbAll(0xFFFF_FFFF, before);
    if Checksum(before + u + after) == Checksum(before + v + after) {
      ChecksumIsTheRegister(before + u + after, before + v + after);
      AbsorbAllConcat(0xFFFF_FFFF, before + u, after);
      AbsorbAllConcat(0xFFFF_FFFF, before, u);
      AbsorbAllConcat(0xFFFF_FFFF, before + v, after);
      AbsorbAllConcat(0xFFFF_FFFF, before, v);
      AbsorbAllInjective(AbsorbAll(r, u), AbsorbAll(r, v), after);
      BurstInjective(r, u, v);
    }
  }

  lemma AbsorbThree(r: bv32, a: bv8, b: bv8, c: bv8, rest: seq<bv8>)
    ensures AbsorbAll(r, [a, b, c] + rest) == AbsorbAll(Absorb(Absorb(Absorb(r, a), b), c), rest)
  {
    hide Absorb;
    var data := [a, b, c] + rest;
    assert data[1..][1..][1..] == rest;
    assert AbsorbAll(r, data) == AbsorbAll(Absorb(r, a), data[1..]);
    assert AbsorbAll(Absorb(r, a), data[1..]) == AbsorbAll(Absorb(Absorb(r, a), b), data[1..][1..]);
  }

  lemma FirstThree()
    ensures Absorb(Absorb(Absorb(0xFFFF_FFFF, 0x31), 0x32), 0x33) == 0x77B7_9C2D
  {
    assert Absorb(0xFFFF_FFFF, 0x31) == 0x7C23_1048;
    assert Absorb(0x7C23_1048, 0x32) == 0xB0AC_BB32;
  }

  lemma NextThree()
    ensures Absorb(Absorb(Absorb(0x77B7_9C2D, 0x34), 0x35), 0x36) == 0xF68D_2C9E
  {
    assert Absorb(0x77B7_9C2D, 0x34) == 0x641C_1F5C;
    assert Absorb(0x641C_1F5C, 0x35) == 0x340A_C5E3;
  }

  lemma LastThree()
    ensures Absorb(Absorb(Absorb(0xF68D_2C9E, 0x37), 0x38), 0x39) == 0x340B_C6D9
  {
    assert Absorb(0xF68D_2C9E, 0x37) == 0xAFFC_9660;
    assert Absorb(0xAFFC_9660, 0x38) == 0x651F_2550;
  }

  /** The check value every CRC-32 implementation is compared by: the nine digits "123456789". */
  lemma CheckValue()
    ensures Checksum([0x31, 0x32, 0x33, 0x34, 0x35, 0x36, 0x37, 0x38, 0x39]) == 0xCBF4_3926
  {
    hide Absorb, AbsorbAll;
    var digits: seq<bv8> := [0x31, 0x32, 0x33, 0x34, 0x35, 0x36, 0x37, 0x38, 0x39];
    assert digits == [0x31, 0x32, 0x33] + digits[3..];
    assert digits[3..] == [0x34, 0x35, 0x36] + digits[6..];
    assert digits[6..] == [0x37, 0x38, 0x39] + [];
    AbsorbThree(0xFFFF_FFFF, 0x31, 0x32, 0x33, digits[3..]);
    FirstThree();
    AbsorbThree(0x77B7_9C2D, 0x34, 0x35, 0x36, digits[6..]);
    NextThree();
    AbsorbThree(0xF68D_2C9E, 0x37, 0x38, 0x39, []);
    LastThree();
    NothingToAbsorb(0x340B_C6D9);
  }

  lemma NothingToAbsorb(r: bv32)
    ensures AbsorbAll(r, []) == r
  {
  }
}

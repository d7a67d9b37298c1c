/** The checksum of an exported archive: a table of 256 entries, used once for each
    byte, computes the CRC-32 that is defined bit by bit (frontend/src/odf.ts). */
module Checksums {

  // ---- Doing something a number of times ----

  function Iterate<T>(f: T -> T, x: T, n: nat): T
    decreases n
  {
    if n == 0 then x else Iterate(f, f(x), n - 1)
  }

  lemma {:induction false} IterateIsLinear<T(!new)>(f: T -> T, plus: (T, T) -> T, a: T, b: T, n: nat)
    requires forall x, y :: f(plus(x, y)) == plus(f(x), f(y))
    ensures Iterate(f, plus(a, b), n) == plus(Iterate(f, a, n), Iterate(f, b, n))
    decreases n
  {
    if n > 0 { IterateIsLinear(f, plus, f(a), f(b), n - 1); }
  }

  lemma {:induction false} IterateAlong<T>(f: T -> T, xs: seq<T>)
    requires xs != [] && forall k | 0 <= k < |xs| - 1 :: f(xs[k]) == xs[k + 1]
    ensures Iterate(f, xs[0], |xs| - 1) == xs[|xs| - 1]
    decreases |xs|
  {
    if |xs| > 1 {
      assert xs[1..][0] == f(xs[0]);
      IterateAlong(f, xs[1..]);
    }
  }

  lemma IterateFew<T>(f: T -> T, x: T)
    ensures Iterate(f, x, 0) == x && Iterate(f, x, 1) == f(x)
    ensures Iterate(f, x, 2) == f(f(x)) && Iterate(f, x, 3) == f(f(f(x)))
  {
    assert Iterate(f, x, 2) == Iterate(f, f(x), 1);
    assert Iterate(f, x, 3) == Iterate(f, f(x), 2) == Iterate(f, f(f(x)), 1);
  }

  lemma {:induction false} IterateAdds<T>(f: T -> T, x: T, a: nat, b: nat)
    ensures Iterate(f, x, a + b) == Iterate(f, Iterate(f, x, a), b)
    decreases a
  {
    if a > 0 { IterateAdds(f, f(x), a - 1, b); }
  }

  lemma {:induction false} IterateFour<T>(f: T -> T, x: T, n: nat)
    ensures Iterate(f, x, n + 4) == Iterate(f, f(f(f(f(x)))), n)
  {
    assert Iterate(f, x, n + 4) == Iterate(f, f(x), n + 3) == Iterate(f, f(f(x)), n + 2);
    assert Iterate(f, f(f(x)), n + 2) == Iterate(f, f(f(f(x))), n + 1);
  }

  // ---- The definition: one bit of the message at a time ----

  const POLY: bv32 := 0xedb88320

  const ALL_ONES: bv32 := 0xffffffff

  const BYTE: nat := 8

  /** Shifts one bit of the message in. */
  function BitStep(crc: bv32, bit: bv32): bv32 {
    if (crc ^ bit) & 1 == 1 then POLY ^ (crc >> 1) else crc >> 1
  }

  /** The next `n` bits of the message, lowest first. */
  function Bits(crc: bv32, b: bv32, n: nat): bv32
    decreases n
  {
    if n == 0 then crc else Bits(BitStep(crc, b & 1), b >> 1, n - 1)
  }

  /** A byte, in the low bits of a word. */
  datatype Byte = Byte(bits: bv32)

  predicate AreBytes(bytes: seq<Byte>) {
    forall b | b in bytes :: b.bits & 0xff == b.bits
  }

  function BitSerial(bytes: seq<Byte>): bv32 {
    if bytes == [] then ALL_ONES
    else Bits(BitSerial(bytes[..|bytes| - 1]), bytes[|bytes| - 1].bits, BYTE)
  }

  function Crc32(bytes: seq<Byte>): bv32 {
    BitSerial(bytes) ^ ALL_ONES
  }

  // ---- Steps on the register alone ----

  function Step(crc: bv32): bv32 {
    if crc & 1 == 1 then POLY ^ (crc >> 1) else crc >> 1
  }

  function Xor(a: bv32, b: bv32): bv32 {
    a ^ b
  }

  lemma XorBits(a: bv32, b: bv32)
    ensures (a ^ b) & 1 == 1 <==> (a & 1 == 1) != (b & 1 == 1)
    ensures (a ^ b) >> 1 == (a >> 1) ^ (b >> 1)
  {
  }

  // ---- The polynomial ----

  /** The exponents of the generator polynomial of CRC-32. */
  const GENERATOR: set<nat> := {32, 26, 23, 22, 16, 12, 11, 10, 8, 7, 5, 4, 2, 1, 0}

  predicate IsTerm(e: nat) {
    e in GENERATOR
  }

  function Halve(b: bv32): bv32 {
    b >> 1
  }

  predicate Odd(b: bv32) {
    b & 1 == 1
  }

  predicate BitAt(c: bv32, i: nat) {
    Odd(Iterate(Halve, c, i))
  }

  predicate HasExponent(c: bv32, e: nat)
    requires e < 32
  {
    BitAt(c, 31 - e)
  }

  /** The register as a polynomial with coefficients 0 and 1, given by its exponents: the
      highest one is in the lowest bit. */
  ghost function Exponents(c: bv32): set<nat> {
    set e: nat | e < 32 && HasExponent(c, e)
  }

  function TimesX(p: set<nat>): set<nat> {
    set e | e in p :: e + 1
  }

  function Added(p: set<nat>, q: set<nat>): set<nat> {
    (p - q) + (q - p)
  }

  /** The remainder of a polynomial of degree 32 at most. */
  function Reduced(p: set<nat>): set<nat> {
    if 32 in p then Added(p, GENERATOR) else p
  }

  lemma HalvesOfXor(a: bv32, b: bv32, x: bv32)
    requires x == Xor(a, b)
    ensures Halve(x) == Xor(Halve(a), Halve(b)) && (Odd(x) <==> Odd(a) != Odd(b))
  {
    XorBits(a, b);
  }

  lemma {:induction false} HalvesAreLinear(a: bv32, b: bv32, n: nat)
    ensures Iterate(Halve, Xor(a, b), n) == Xor(Iterate(Halve, a, n), Iterate(Halve, b, n))
  {
    forall x, y ensures Halve(Xor(x, y)) == Xor(Halve(x), Halve(y)) {
      HalvesOfXor(x, y, Xor(x, y));
    }
    IterateIsLinear(Halve, Xor, a, b, n);
  }

  lemma OddOfXor(a: bv32, b: bv32)
    ensures Odd(Xor(a, b)) <==> Odd(a) != Odd(b)
  {
    XorBits(a, b);
  }

  lemma {:induction false} BitsOfXor(a: bv32, b: bv32, i: nat)
    ensures BitAt(Xor(a, b), i) <==> BitAt(a, i) != BitAt(b, i)
  {
    HalvesAreLinear(a, b, i);
    OddOfXor(Iterate(Halve, a, i), Iterate(Halve, b, i));
    hide Xor, Odd, Iterate;
  }

  lemma FourFurther(c: bv32, d: bv32, i: nat)
    requires d == c >> 4
    ensures BitAt(c, i + 4) <==> BitAt(d, i)
  {
    FourHalves(c, d);
    IterateFour(Halve, c, i);
  }

  lemma FourHalves(c: bv32, d: bv32)
    requires d == c >> 4
    ensures Halve(Halve(Halve(Halve(c)))) == d
  {
  }

  lemma FirstFour(c: bv32)
    ensures BitAt(c, 0) <==> c & 1 == 1
    ensures BitAt(c, 1) <==> c & 2 == 2
    ensures BitAt(c, 2) <==> c & 4 == 4
    ensures BitAt(c, 3) <==> c & 8 == 8
  {
    Masks(c);
    IterateFew(Halve, c);
    hide Odd, Halve;
  }

  lemma Masks(c: bv32)
    ensures Odd(c) <==> c & 1 == 1
    ensures Odd(Halve(c)) <==> c & 2 == 2
    ensures Odd(Halve(Halve(c))) <==> c & 4 == 4
    ensures Odd(Halve(Halve(Halve(c)))) <==> c & 8 == 8
  {
  }

  /** The bits of `c`, which is the constant from its digit `k` up, are the generator. */
  ghost predicate FromDigit(c: bv32, k: nat)
    requires k <= 8
  {
    forall i: nat | i < 32 - 4 * k :: BitAt(c, i) <==> IsTerm(31 - (4 * k + i))
  }

  lemma LaterBits(c: bv32, d: bv32, k: nat, i: nat)
    requires k < 8 && d == c >> 4 && FromDigit(d, k + 1) && 4 <= i < 32 - 4 * k
    ensures BitAt(c, i) <==> IsTerm(31 - (4 * k + i))
  {
    hide IsTerm, BitAt;
    FourFurther(c, d, i - 4);
    assert 31 - (4 * (k + 1) + (i - 4)) == 31 - (4 * k + i);
  }

  lemma {:induction false} OneDigitMore(c: bv32, d: bv32, k: nat)
    requires k < 8 && d == c >> 4 && FromDigit(d, k + 1)
    requires c & 1 == 1 <==> IsTerm(31 - 4 * k)
    requires c & 2 == 2 <==> IsTerm(30 - 4 * k)
    requires c & 4 == 4 <==> IsTerm(29 - 4 * k)
    requires c & 8 == 8 <==> IsTerm(28 - 4 * k)
    ensures FromDigit(c, k)
  {
    FirstFour(c);
    hide BitAt, IsTerm;
    forall i: nat | i < 32 - 4 * k ensures BitAt(c, i) <==> IsTerm(31 - (4 * k + i)) {
      if i >= 4 {
        LaterBits(c, d, k, i);
      } else {
        assert i == 0 || i == 1 || i == 2 || i == 3;
      }
    }
  }

  lemma PolyIsGenerator()
    ensures forall i: nat | i < 32 :: BitAt(POLY, i) <==> IsTerm(31 - i)
  {
    OneDigitMore(0xe, 0, 7);
    OneDigitMore(0xed, 0xe, 6);
    OneDigitMore(0xedb, 0xed, 5);
    OneDigitMore(0xedb8, 0xedb, 4);
    OneDigitMore(0xedb88, 0xedb8, 3);
    OneDigitMore(0xedb883, 0xedb88, 2);
    OneDigitMore(0xedb8832, 0xedb883, 1);
    OneDigitMore(0xedb88320, 0xedb8832, 0);
  }

  function ByteDown(c: bv32): bv32 {
    c >> 8
  }

  lemma {:induction false} EightHalves(c: bv32)
    ensures Iterate(Halve, c, BYTE) == ByteDown(c)
  {
    ShiftsAdd(c);
    EightTimes(Halve, c, c >> 1, c >> 2, c >> 3, c >> 4, c >> 5, c >> 6, c >> 7, c >> 8);
  }

  lemma AllShiftedOut(c: bv32)
    ensures ByteDown(ByteDown(ByteDown(ByteDown(c)))) == 0 && !Odd(0)
  {
  }

  lemma FourBytes<T>(f: T -> T, a: T, b: T, c: T, d: T, e: T)
    requires Iterate(f, a, 8) == b && Iterate(f, b, 8) == c && Iterate(f, c, 8) == d && Iterate(f, d, 8) == e
    ensures Iterate(f, a, 32) == e
  {
    IterateAdds(f, a, 8, 24);
    IterateAdds(f, b, 8, 16);
    IterateAdds(f, c, 8, 8);
  }

  lemma NoBitAbove(c: bv32)
    ensures !BitAt(c, 32)
  {
    AllShiftedOut(c);
    hide Halve, ByteDown, Odd, Iterate;
    EightHalves(c);
    EightHalves(ByteDown(c));
    EightHalves(ByteDown(ByteDown(c)));
    EightHalves(ByteDown(ByteDown(ByteDown(c))));
    FourBytes(Halve, c, ByteDown(c), ByteDown(ByteDown(c)), ByteDown(ByteDown(ByteDown(c))), 0);
  }

  /** A bit of the register after a step: that of the next higher bit, changed where the
      generator has an exponent if the lowest bit was set. */
  lemma StepBit(c: bv32, i: nat)
    ensures BitAt(Step(c), i) <==> BitAt(c, i + 1) != (BitAt(c, 0) && BitAt(POLY, i))
  {
    assert Step(c) == if Odd(c) then Xor(POLY, Halve(c)) else Halve(c);
    hide Step, Halve, Odd, Xor;
    BitsOfXor(POLY, Halve(c), i);
    assert BitAt(c, i + 1) == BitAt(Halve(c), i);
    assert BitAt(c, 0) == Odd(c);
  }

  lemma TimesXAt(c: bv32, e: nat)
    requires e <= 32
    ensures e in TimesX(Exponents(c)) <==> BitAt(c, 32 - e)
  {
    NoBitAbove(c);
    hide BitAt;
    if e > 0 && BitAt(c, 32 - e) { assert HasExponent(c, e - 1) && e - 1 in Exponents(c); }
  }

  lemma StepExponent(c: bv32, e: nat)
    requires e < 32
    ensures HasExponent(Step(c), e) <==> (e in TimesX(Exponents(c))) != (BitAt(c, 0) && IsTerm(e))
  {
    PolyIsGenerator();
    StepBit(c, 31 - e);
    TimesXAt(c, e);
    hide BitAt, IsTerm, TimesX, Exponents, Step;
  }

  lemma IsReduced(p: set<nat>, s: set<nat>)
    requires (forall e | e in p :: e <= 32) && forall e | e in s :: e < 32
    requires forall e: nat | e < 32 :: e in s <==> (e in p) != (32 in p && IsTerm(e))
    ensures s == Reduced(p)
  {
    assert forall e | e in GENERATOR :: e <= 32;
  }

  /** A step of the register is multiplication by x, modulo the generator. */
  lemma {:induction false} StepTimesX(c: bv32)
    ensures Exponents(Step(c)) == Reduced(TimesX(Exponents(c)))
  {
    TimesXAt(c, 32);
    hide BitAt, Step, IsTerm, Reduced;
    forall e: nat | e < 32
      ensures e in Exponents(Step(c)) <==> (e in TimesX(Exponents(c))) != (BitAt(c, 0) && IsTerm(e))
    {
      StepExponent(c, e);
    }
    hide HasExponent;
    IsReduced(TimesX(Exponents(c)), Exponents(Step(c)));
  }

  lemma XorTwice(p: bv32, a: bv32, b: bv32)
    ensures (p ^ a) ^ (p ^ b) == a ^ b
    ensures p ^ (a ^ b) == (p ^ a) ^ b
    ensures p ^ (a ^ b) == a ^ (p ^ b)
  {
  }

  lemma StepOfXor(a: bv32, b: bv32)
    ensures Step(a ^ b) == Step(a) ^ Step(b)
  {
    XorBits(a, b);
    var x, y := a >> 1, b >> 1;
    XorTwice(POLY, x, y);
  }

  lemma StepIsLinear(a: bv32, b: bv32, x: bv32)
    requires x == a ^ b
    ensures Step(x) == Step(a) ^ Step(b)
  {
    StepOfXor(a, b);
  }

  lemma {:induction false} StepsAreLinear(a: bv32, b: bv32, n: nat)
    ensures Iterate(Step, Xor(a, b), n) == Xor(Iterate(Step, a, n), Iterate(Step, b, n))
  {
    forall x, y ensures Step(Xor(x, y)) == Xor(Step(x), Step(y)) {
      StepIsLinear(x, y, Xor(x, y));
    }
    IterateIsLinear(Step, Xor, a, b, n);
  }

  // ---- Eight steps are one look-up ----

  lemma LowBitsClear(crc: bv32, c: bv32)
    requires c == crc & 0xffffff00
    ensures c & 1 == 0 && (c >> 1) & 1 == 0 && (c >> 2) & 1 == 0 && (c >> 3) & 1 == 0
    ensures (c >> 4) & 1 == 0 && (c >> 5) & 1 == 0 && (c >> 6) & 1 == 0 && (c >> 7) & 1 == 0
    ensures c >> 8 == crc >> 8
  {
  }

  lemma ShiftsAdd(c: bv32)
    ensures (c >> 1) >> 1 == c >> 2 && (c >> 2) >> 1 == c >> 3 && (c >> 3) >> 1 == c >> 4 && (c >> 4) >> 1 == c >> 5
    ensures (c >> 5) >> 1 == c >> 6 && (c >> 6) >> 1 == c >> 7 && (c >> 7) >> 1 == c >> 8
  {
  }

  lemma UpperSteps(crc: bv32, c: bv32)
    requires c == crc & 0xffffff00
    ensures Step(c) == c >> 1 && Step(c >> 1) == c >> 2 && Step(c >> 2) == c >> 3 && Step(c >> 3) == c >> 4
    ensures Step(c >> 4) == c >> 5 && Step(c >> 5) == c >> 6 && Step(c >> 6) == c >> 7 && Step(c >> 7) == c >> 8
  {
    LowBitsClear(crc, c);
    ShiftsAdd(c);
  }

  /** The upper bits of a register are only shifted by eight steps. */
  lemma UpperBitsShift(crc: bv32)
    ensures Iterate(Step, crc & 0xffffff00, BYTE) == crc >> 8
  {
    var c := crc & 0xffffff00;
    UpperSteps(crc, c);
    LowBitsClear(crc, c);
    EightTimes(Step, c, c >> 1, c >> 2, c >> 3, c >> 4, c >> 5, c >> 6, c >> 7, c >> 8);
  }

  lemma EightTimes<T>(f: T -> T, a: T, b: T, c: T, d: T, e: T, g: T, h: T, i: T, j: T)
    requires f(a) == b && f(b) == c && f(c) == d && f(d) == e && f(e) == g && f(g) == h && f(h) == i && f(i) == j
    ensures Iterate(f, a, BYTE) == j
  {
    IterateAlong(f, [a, b, c, d, e, g, h, i, j]);
  }

  lemma SplitRegister(crc: bv32)
    ensures crc == Xor(crc & 0xffffff00, crc & 0xff)
  {
  }

  lemma OneLookUp(crc: bv32)
    ensures Iterate(Step, crc, BYTE) == Xor(crc >> 8, Iterate(Step, crc & 0xff, BYTE))
  {
    SplitRegister(crc);
    StepsAreLinear(crc & 0xffffff00, crc & 0xff, BYTE);
    UpperBitsShift(crc);
  }

  // ---- Eight bits of the message are eight steps ----

  /** A bit that is shifted in might as well have been in the register. */
  lemma BitInRegister(crc: bv32, b: bv32)
    ensures BitStep(crc, b & 1) ^ (b >> 1) == Step(crc ^ b)
  {
    XorBits(crc, b);
    SameLowBit(crc, b);
    var x, y := crc >> 1, b >> 1;
    XorTwice(POLY, x, y);
  }

  lemma SameLowBit(crc: bv32, b: bv32)
    ensures (crc ^ (b & 1)) & 1 == (crc ^ b) & 1
  {
  }

  lemma {:induction false} BitsInRegister(crc: bv32, b: bv32, x: bv32, n: nat)
    requires x == crc ^ b
    ensures Bits(crc, b, n) ^ Iterate(Halve, b, n) == Iterate(Step, x, n)
    decreases n
  {
    if n > 0 {
      BitInRegister(crc, b);
      BitsInRegister(BitStep(crc, b & 1), b >> 1, Step(x), n - 1);
    }
  }

  lemma {:induction false} ByteRunsOut(b: bv32)
    requires b & 0xff == b
    ensures Iterate(Halve, b, BYTE) == 0
  {
    ShiftsAdd(b);
    assert b >> 8 == 0;
    EightTimes(Halve, b, b >> 1, b >> 2, b >> 3, b >> 4, b >> 5, b >> 6, b >> 7, b >> 8);
  }

  lemma XorOfShift(crc: bv32, b: bv32)
    requires b & 0xff == b
    ensures (crc ^ b) >> 8 == crc >> 8
  {
  }

  lemma XorZero(x: bv32, y: bv32)
    requires y == 0
    ensures x ^ y == x
  {
  }

  /** One turn of the loop over the bytes. */
  lemma ByteByTable(crc: bv32, b: bv32, x: bv32)
    requires b & 0xff == b && x == crc ^ b
    ensures Bits(crc, b, BYTE) == Xor(x >> 8, Iterate(Step, x & 0xff, BYTE)) && x >> 8 == crc >> 8
  {
    BitsInRegister(crc, b, x, BYTE);
    ByteRunsOut(b);
    XorZero(Bits(crc, b, BYTE), Iterate(Halve, b, BYTE));
    OneLookUp(x);
    XorOfShift(crc, b);
  }

  // ---- The check value ----

  lemma {:induction false} EightBits(c: bv32, b: bv32, c1: bv32, c2: bv32, c3: bv32, c4: bv32, c5: bv32, c6: bv32,
      c7: bv32, c8: bv32)
    requires BitStep(c, b & 1) == c1 && BitStep(c1, (b >> 1) & 1) == c2 && BitStep(c2, (b >> 2) & 1) == c3
    requires BitStep(c3, (b >> 3) & 1) == c4 && BitStep(c4, (b >> 4) & 1) == c5 && BitStep(c5, (b >> 5) & 1) == c6
    requires BitStep(c6, (b >> 6) & 1) == c7 && BitStep(c7, (b >> 7) & 1) == c8
    ensures Bits(c, b, BYTE) == c8
  {
    ShiftsAdd(b);
    hide BitStep;
    assert Bits(c, b, 8) == Bits(c1, b >> 1, 7) == Bits(c2, b >> 2, 6) == Bits(c3, b >> 3, 5);
    assert Bits(c3, b >> 3, 5) == Bits(c4, b >> 4, 4) == Bits(c5, b >> 5, 3) == Bits(c6, b >> 6, 2);
    assert Bits(c6, b >> 6, 2) == Bits(c7, b >> 7, 1) == Bits(c8, b >> 8, 0);
  }

  lemma OneByteMore(bytes: seq<Byte>, i: nat)
    requires i < |bytes|
    ensures BitSerial(bytes[..i + 1]) == Bits(BitSerial(bytes[..i]), bytes[i].bits, BYTE) && bytes[i] in bytes
  {
    assert bytes[..i + 1][..i] == bytes[..i];
  }

  /** The nine bytes "123456789". */
  const CHECK: seq<Byte> :=
    [Byte(0x31), Byte(0x32), Byte(0x33), Byte(0x34), Byte(0x35), Byte(0x36), Byte(0x37), Byte(0x38), Byte(0x39)]

  /** The register after each of these bytes. */
  lemma CheckSteps()
    ensures Bits(0xffffffff, 0x31, BYTE) == 0x7c231048
    ensures Bits(0x7c231048, 0x32, BYTE) == 0xb0acbb32
    ensures Bits(0xb0acbb32, 0x33, BYTE) == 0x77b79c2d
    ensures Bits(0x77b79c2d, 0x34, BYTE) == 0x641c1f5c
    ensures Bits(0x641c1f5c, 0x35, BYTE) == 0x340ac5e3
    ensures Bits(0x340ac5e3, 0x36, BYTE) == 0xf68d2c9e
    ensures Bits(0xf68d2c9e, 0x37, BYTE) == 0xaffc9660
    ensures Bits(0xaffc9660, 0x38, BYTE) == 0x651f2550
    ensures Bits(0x651f2550, 0x39, BYTE) == 0x340bc6d9
  {
    EightBits(0xffffffff, 0x31, 0x7fffffff, 0xd2477cdf, 0x849b3d4f, 0xaff51d87,
              0x57fa8ec3, 0x2bfd4761, 0xf8462090, 0x7c231048);
    EightBits(0x7c231048, 0x32, 0x3e118824, 0xf2b04732, 0x79582399, 0xd11492ec,
              0x8532ca56, 0xaf21e60b, 0xba287025, 0xb0acbb32);
    EightBits(0xb0acbb32, 0x33, 0xb5eedeb9, 0x5af76f5c, 0x2d7bb7ae, 0x16bddbd7,
              0x0b5eedeb, 0x05af76f5, 0xef6f385a, 0x77b79c2d);
    EightBits(0x77b79c2d, 0x34, 0xd6634d36, 0x6b31a69b, 0x3598d34d, 0xf774ea86,
              0x9602f663, 0x4b017b31, 0xc8383eb8, 0x641c1f5c);
    EightBits(0x641c1f5c, 0x35, 0xdfb68c8e, 0x6fdb4647, 0x37eda323, 0xf64e52b1,
              0x7b272958, 0xd02b178c, 0x68158bc6, 0x340ac5e3);
    EightBits(0x340ac5e3, 0x36, 0xf7bde1d1, 0x7bdef0e8, 0xd057fb54, 0x682bfdaa,
              0xd9ad7df5, 0x6cd6befa, 0x366b5f7d, 0xf68d2c9e);
    EightBits(0xf68d2c9e, 0x37, 0x96fe156f, 0x4b7f0ab7, 0x25bf855b, 0xff67418d,
              0x7fb3a0c6, 0xd2615343, 0x84882a81, 0xaffc9660);
    EightBits(0xaffc9660, 0x38, 0x57fe4b30, 0x2bff2598, 0x15ff92cc, 0xe7474a46,
              0x9e1b2603, 0x4f0d9301, 0xca3e4aa0, 0x651f2550);
    EightBits(0x651f2550, 0x39, 0xdf371188, 0x6f9b88c4, 0x37cdc462, 0xf65e6111,
              0x7b2f3088, 0xd02f1b64, 0x68178db2, 0x340bc6d9);
  }

  lemma {:induction false} NextCheck(bytes: seq<Byte>, n: nat, b: bv32, before: bv32, after: bv32)
    requires n < |bytes| && bytes[n].bits == b && BitSerial(bytes[..n]) == before && Bits(before, b, BYTE) == after
    ensures BitSerial(bytes[..n + 1]) == after
  {
    OneByteMore(bytes, n);
  }

  lemma {:induction false} CheckRegister(bytes: seq<Byte>)
    requires |bytes| == 9
    requires bytes[0].bits == 0x31
    requires bytes[1].bits == 0x32
    requires bytes[2].bits == 0x33
    requires bytes[3].bits == 0x34
    requires bytes[4].bits == 0x35
    requires bytes[5].bits == 0x36
    requires bytes[6].bits == 0x37
    requires bytes[7].bits == 0x38
    requires bytes[8].bits == 0x39
    ensures BitSerial(bytes) == 0x340bc6d9
  {
    CheckSteps();
    assert bytes[..0] == [] && bytes[..9] == bytes;
    assert BitSerial(bytes[..0]) == 0xffffffff;
    hide Bits, BitSerial;
    NextCheck(bytes, 0, 0x31, 0xffffffff, 0x7c231048);
    NextCheck(bytes, 1, 0x32, 0x7c231048, 0xb0acbb32);
    NextCheck(bytes, 2, 0x33, 0xb0acbb32, 0x77b79c2d);
    NextCheck(bytes, 3, 0x34, 0x77b79c2d, 0x641c1f5c);
    NextCheck(bytes, 4, 0x35, 0x641c1f5c, 0x340ac5e3);
    NextCheck(bytes, 5, 0x36, 0x340ac5e3, 0xf68d2c9e);
    NextCheck(bytes, 6, 0x37, 0xf68d2c9e, 0xaffc9660);
    NextCheck(bytes, 7, 0x38, 0xaffc9660, 0x651f2550);
    NextCheck(bytes, 8, 0x39, 0x651f2550, 0x340bc6d9);
  }

  /** The checksum of these bytes, by which the variants of CRC-32 are told apart. */
  lemma CheckValue()
    ensures Crc32(CHECK) == 0xcbf43926
  {
    CheckRegister(CHECK);
    hide BitSerial;
  }

  // ---- The code ----

  /** The entries for all byte values. */
  ghost predicate IsTable(table: map<Byte, bv32>) {
    forall n: bv32 | n < 256 :: Byte(n) in table && table[Byte(n)] == Iterate(Step, n, BYTE)
  }

  /** One entry, as the inner loop computes it. */
  method MakeEntry(n: bv32) returns (crc: bv32)
    ensures crc == Iterate(Step, n, BYTE)
  {
    crc := n;
    for k := 0 to BYTE
      invariant Iterate(Step, crc, BYTE - k) == Iterate(Step, n, BYTE)
    {
      crc := Step(crc);
    }
  }

  ghost predicate FilledTo(table: map<Byte, bv32>, n: bv32) {
    forall i: bv32 | i < n :: Byte(i) in table && table[Byte(i)] == Iterate(Step, i, BYTE)
  }

  lemma {:induction false} FilledOneMore(table: map<Byte, bv32>, n: bv32, crc: bv32)
    requires n < 256 && FilledTo(table, n) && crc == Iterate(Step, n, BYTE)
    ensures FilledTo(table[Byte(n) := crc], n + 1)
  {
    hide Iterate;
    var t := table[Byte(n) := crc];
    forall i: bv32 | i < n + 1 ensures Byte(i) in t && t[Byte(i)] == Iterate(Step, i, BYTE) {
      NoneBetween(i, n);
    }
  }

  lemma NoneBetween(i: bv32, n: bv32)
    requires n < 256 && i < n + 1
    ensures (i < n && i != n) || i == n
  {
  }

  /** The 256 entries, as `generateCRC` fills them in. */
  method MakeTable() returns (table: map<Byte, bv32>)
    ensures IsTable(table)
  {
    table := map[];
    var n: bv32 := 0;
    while n < 256
      invariant n <= 256 && FilledTo(table, n)
      decreases 256 - n
    {
      var crc := MakeEntry(n);
      FilledOneMore(table, n, crc);
      table := table[Byte(n) := crc];
      n := n + 1;
    }
  }

  lemma LowByte(x: bv32)
    ensures x & 0xff < 256
  {
  }

  lemma LookUp(table: map<Byte, bv32>, crc: bv32, b: bv32, x: bv32)
    requires IsTable(table) && b & 0xff == b && x == Xor(crc, b)
    ensures Byte(x & 0xff) in table && Xor(crc >> 8, table[Byte(x & 0xff)]) == Bits(crc, b, BYTE)
  {
    LowByte(x);
    ByteByTable(crc, b, x);
  }

  /** `generateCRC`. */
  method GenerateCRC(table: map<Byte, bv32>, bytes: seq<Byte>) returns (crc: bv32)
    requires IsTable(table) && AreBytes(bytes)
    ensures crc == Crc32(bytes)
  {
    crc := ALL_ONES;
    for i := 0 to |bytes|
      invariant crc == BitSerial(bytes[..i])
    {
      var x := Xor(crc, bytes[i].bits);
      OneByteMore(bytes, i);
      LookUp(table, crc, bytes[i].bits, x);
      crc := Xor(crc >> 8, table[Byte(x & 0xff)]);
    }
    assert bytes[..|bytes|] == bytes;
    crc := crc ^ ALL_ONES;
  }
}

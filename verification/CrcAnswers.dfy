/**
  What the check codes of the options are.  The known answers of the four options for the nine
  digits pin polynomial, start value, reflections and final xor.  For every message, the xor of two
  codes is the code of the xor, and another final xor changes the code by just that much.
 */
module CrcAnswers {
  import opened Packets
  import opened Crc
  import opened CrcChoices

  // ----- laws for every message -----

  /** The xor of two messages. */
  function XorData(a: seq<byte>, b: seq<byte>): (c: seq<byte>)
    requires |a| == |b|
    ensures |c| == |a|
  {
    seq(|a|, i requires 0 <= i < |a| => XorByte(a[i], b[i]))
  }

  function XorByte(x: byte, y: byte): (z: byte)
    ensures NatBits(z, 8) == Sum(NatBits(x, 8), NatBits(y, 8))
  {
    var s := Sum(NatBits(x, 8), NatBits(y, 8));
    NatBitsOfToNat(s);
    ToNatBound(s);
    assert Power2(8) == 256 by { EightBits(); }
    ToNat(s)
  }

  lemma EightBits()
    ensures Power2(8) == 256
  {
    assert Power2(8) == 2 * Power2(7) == 4 * Power2(6) == 8 * Power2(5) == 16 * Power2(4) == 32 * Power2(3) == 256;
  }

  /** The same division without start value and final xor. */
  function Plain(p: Params): Params {
    p.(initial := WordOf(0), finalXor := WordOf(0))
  }

  lemma ByteBitsOfXor(p: Params, x: byte, y: byte)
    ensures ByteBits(p, XorByte(x, y)) == Sum(ByteBits(p, x), ByteBits(p, y))
  {
    hide NatBits, XorByte;
  }

  lemma {:induction false} DivideIsLinear(p: Params, q: Params, r1: Bits, a: seq<byte>, r2: Bits, b: seq<byte>)
    requires ValidParams(p) && |r1| == |r2| == p.width && |a| == |b| && q.(initial := p.initial, finalXor := p.finalXor) == p
    ensures Divide(q, Sum(r1, r2), XorData(a, b)) == Sum(Divide(p, r1, a), Divide(p, r2, b))
    decreases |a|
  {
    hide ByteBits, FeedAll, XorByte, Feed;
    if a != [] {
      var n := |a| - 1;
      DivideIsLinear(p, q, r1, a[..n], r2, b[..n]);
      assert XorData(a, b)[..n] == XorData(a[..n], b[..n]);
      ByteBitsOfXor(p, a[n], b[n]);
      FeedAllIsLinear(p, Divide(p, r1, a[..n]), ByteBits(p, a[n]), Divide(p, r2, b[..n]), ByteBits(p, b[n]));
      SameDivision(p, q, Sum(Divide(p, r1, a[..n]), Divide(p, r2, b[..n])), XorByte(a[n], b[n]));
    }
  }

  /** Start value and final xor play no part in the division. */
  lemma SameDivision(p: Params, q: Params, r: Bits, x: byte)
    requires ValidParams(p) && |r| == p.width && q.(initial := p.initial, finalXor := p.finalXor) == p
    ensures FeedAll(q, r, ByteBits(q, x)) == FeedAll(p, r, ByteBits(p, x))
  {
    hide NatBits;
    SameFeed(p, q, r, ByteBits(p, x));
  }

  lemma {:induction false} SameFeed(p: Params, q: Params, r: Bits, bs: Bits)
    requires ValidParams(p) && |r| == p.width && q.(initial := p.initial, finalXor := p.finalXor) == p
    ensures FeedAll(q, r, bs) == FeedAll(p, r, bs)
    decreases |bs|
  {
    if bs != [] {
      assert Feed(q, r, bs[0]) == Feed(p, r, bs[0]);
      SameFeed(p, q, Feed(p, r, bs[0]), bs[1..]);
    }
  }

  lemma ZeroWord()
    ensures forall i :: 0 <= i < 64 ==> !WordOf(0)[i]
  {
    ZeroRegister(32);
    assert Register(0) == Zeros(32);
    hide Register;
    assert forall i :: 0 <= i < 64 ==> WordOf(0)[i] == (Zeros(32) + seq(32, _ => false))[i];
  }

  /** Mirroring, or not, respects the xor. */
  lemma MirrorIsLinear(mirror: bool, a: Bits, b: Bits)
    requires |a| == |b|
    ensures (if mirror then Reverse(Sum(a, b)) else Sum(a, b)) ==
            Sum(if mirror then Reverse(a) else a, if mirror then Reverse(b) else b)
  {
  }

  /**
    For every width, polynomial and choice of reflections: the xor of the codes of two messages of
    equal length is the code of their xor, computed without start value and final xor.
   */
  lemma CodesAreLinear(p: Params, a: seq<byte>, b: seq<byte>)
    requires ValidParams(p) && |a| == |b|
    ensures Reference(Plain(p), XorData(a, b)) == Sum(Reference(p, a), Reference(p, b))
  {
    hide Divide, XorData, WordOf, Sum, Reverse;
    var r := p.initial[..p.width];
    ZeroWord();
    assert WordOf(0)[..p.width] == Zeros(p.width);
    SumSelf(r);
    DivideIsLinear(p, Plain(p), r, a, r, b);
    var da, db := Divide(p, r, a), Divide(p, r, b);
    MirrorIsLinear(p.refout, da, db);
    var oa, ob := if p.refout then Reverse(da) else da, if p.refout then Reverse(db) else db;
    assert Reference(Plain(p), XorData(a, b)) == Sum(oa, ob);
    FinalXorCancels(oa, ob, Reference(p, a), Reference(p, b), p.finalXor[..p.width]);
  }

  lemma SumSelf(r: Bits)
    ensures Sum(r, r) == Zeros(|r|)
  {
  }

  lemma FinalXorCancels(a: Bits, b: Bits, a': Bits, b': Bits, f: Bits)
    requires |a| == |b| == |a'| == |b'| == |f|
    requires forall i :: 0 <= i < |a| ==> a'[i] == (a[i] != f[i]) && b'[i] == (b[i] != f[i])
    ensures Sum(a', b') == Sum(a, b)
  {
  }

  /** With another final xor the code differs by exactly the xor of the two. */
  lemma FinalXorIsApplied(p: Params, finalXor: Word, data: seq<byte>)
    requires ValidParams(p)
    ensures
      Sum(Reference(p, data), Reference(p.(finalXor := finalXor), data)) ==
      Sum(p.finalXor[..p.width], finalXor[..p.width])
  {
    hide Divide;
    SameQuotient(p, p.(finalXor := finalXor), p.initial[..p.width], data);
  }

  lemma {:induction false} SameQuotient(p: Params, q: Params, r: Bits, data: seq<byte>)
    requires ValidParams(p) && |r| == p.width && q.(initial := p.initial, finalXor := p.finalXor) == p
    ensures Divide(q, r, data) == Divide(p, r, data)
    decreases |data|
  {
    hide ByteBits, FeedAll;
    if data != [] {
      var n := |data| - 1;
      SameQuotient(p, q, r, data[..n]);
      SameDivision(p, q, Divide(p, r, data[..n]), data[n]);
    }
  }

  // ----- division on 32-bit numbers; a narrower register stands in the upper bits -----

  /** What one message bit does to the number. */
  function Step(x: bv32, b: bool, polynom: bv32): bv32 {
    if Top(x) != b then Plus(Double(x), polynom) else Double(x)
  }

  function FourSteps(x: bv32, a: bool, b: bool, c: bool, d: bool, polynom: bv32): bv32 {
    Step(Step(Step(Step(x, a, polynom), b, polynom), c, polynom), d, polynom)
  }

  function Upper(x: bv32, w: nat): (r: Bits)
    ensures |r| == w
  {
    Reverse(High(x, w))
  }

  /** Nothing stands below the w highest bits. */
  predicate Clear(x: bv32, w: nat) {
    w == 32 || (w == 16 && x & 0xFFFF == 0)
  }

  lemma ClearStep(x: bv32, b: bool, polynom: bv32, w: nat)
    requires Clear(x, w) && Clear(polynom, w)
    ensures Clear(Step(x, b, polynom), w)
  {
  }

  lemma ShiftedOut(x: bv32)
    requires x & 0xFFFF == 0
    ensures x << 8 << 8 == 0
  {
  }

  lemma DoubledOut(x: bv32)
    requires x & 0xFFFF == 0
    ensures Doubled(x, 16) == 0
  {
    ShiftedOut(x);
    hide Doubled;
    DoubledTwice(x, 8, 8);
    DoubledByEight(x);
    DoubledByEight(x << 8);
  }

  lemma HighOfDoubled(x: bv32, n: nat)
    requires !Top(Doubled(x, n + 1))
    ensures High(Double(x), n + 1) == High(x, n + 1)[1..] + [false]
  {
    hide Double, Top, High, Doubled;
    HighLast(x, n + 1);
    HighPrefix(x, n + 1);
    HighCons(x, n + 1);
    assert High(Double(x), n + 1) == High(x, n + 2)[1..];
    assert High(x, n + 2) == High(x, n + 2)[..n + 1] + [High(x, n + 2)[n + 1]];
  }

  lemma UpperDouble(x: bv32, w: nat)
    requires Clear(x, w)
    ensures w > 0 && High(Double(x), w) == High(x, w)[1..] + [false]
  {
    hide Double, Top, High, Doubled;
    if w == 32 {
      HighOfDouble(x);
    } else {
      DoubledOut(x);
      ZeroTop();
      HighOfDoubled(x, 15);
    }
  }

  lemma FeedUpper(p: Params, w: nat, polynom: bv32, x: bv32, b: bool)
    requires Clear(x, w) && Clear(polynom, w) && p.width == w && p.polynom[..w] == Upper(polynom, w)
    ensures Feed(p, Upper(x, w), b) == Upper(Step(x, b, polynom), w)
  {
    hide Double, Top, High, Plus, Reverse, Feed;
    UpperDouble(x, w);
    HighPlus(Double(x), polynom, w);
    HighCons(x, w - 1);
    FeedMirrored(p, High(x, w), High(Double(x), w), High(polynom, w), b);
  }

  /** The same on lists of bits with the highest one first. */
  lemma FeedMirrored(p: Params, h: Bits, d: Bits, polynom: Bits, b: bool)
    requires 8 <= p.width == |h| == |d| == |polynom| <= 64 && p.polynom[..p.width] == Reverse(polynom)
    requires d == h[1..] + [false]
    ensures Feed(p, Reverse(h), b) == Reverse(if h[0] != b then Sum(d, polynom) else d)
  {
    assert forall i :: 0 <= i < p.width ==> p.polynom[i] == p.polynom[..p.width][i];
  }

  lemma {:induction false} FeedBits(p: Params, w: nat, polynom: bv32, x: bv32, bs: Bits) returns (y: bv32)
    requires Clear(x, w) && Clear(polynom, w) && p.width == w && p.polynom[..w] == Upper(polynom, w)
    ensures y == Steps(x, bs, polynom) && Clear(y, w) && FeedAll(p, Upper(x, w), bs) == Upper(y, w)
    decreases |bs|
  {
    hide Step, Upper, Clear, Feed;
    if bs == [] {
      y := x;
    } else {
      FeedUpper(p, w, polynom, x, bs[0]);
      ClearStep(x, bs[0], polynom, w);
      y := FeedBits(p, w, polynom, Step(x, bs[0], polynom), bs[1..]);
    }
  }

  function Steps(x: bv32, bs: Bits, polynom: bv32): bv32
    decreases |bs|
  {
    if bs == [] then x else Steps(Step(x, bs[0], polynom), bs[1..], polynom)
  }

  lemma StepsByFour(x: bv32, bs: Bits, polynom: bv32)
    requires |bs| >= 4
    ensures Steps(x, bs, polynom) == Steps(FourSteps(x, bs[0], bs[1], bs[2], bs[3], polynom), bs[4..], polynom)
  {
    hide Step;
    var x1 := Step(x, bs[0], polynom);
    var x2 := Step(x1, bs[1], polynom);
    var x3 := Step(x2, bs[2], polynom);
    assert bs[1..][1..] == bs[2..] && bs[2..][1..] == bs[3..] && bs[3..][1..] == bs[4..];
    assert Steps(x, bs, polynom) == Steps(x1, bs[1..], polynom) == Steps(x2, bs[2..], polynom);
    assert Steps(x2, bs[2..], polynom) == Steps(x3, bs[3..], polynom);
  }

  /** One byte of the division, on numbers. */
  lemma FeedByte(p: Params, w: nat, polynom: bv32, x: bv32, bs: Bits, y: bv32)
    requires Clear(x, w) && Clear(polynom, w) && p.width == w && p.polynom[..w] == Upper(polynom, w) && |bs| == 8
    requires
      y == FourSteps(FourSteps(x, bs[0], bs[1], bs[2], bs[3], polynom), bs[4], bs[5], bs[6], bs[7], polynom)
    ensures FeedAll(p, Upper(x, w), bs) == Upper(y, w) && Clear(y, w)
  {
    hide FeedAll, FourSteps, Upper, Clear;
    var z := FeedBits(p, w, polynom, x, bs);
    StepsByFour(x, bs, polynom);
    StepsByFour(FourSteps(x, bs[0], bs[1], bs[2], bs[3], polynom), bs[4..], polynom);
    assert bs[4..][4..] == [];
  }

  // ----- the nine digits -----

  const DIGITS: seq<byte> := [0x31, 0x32, 0x33, 0x34, 0x35, 0x36, 0x37, 0x38, 0x39]

  function Digit(a: bool, b: bool, c: bool, d: bool): (bs: Bits)
    ensures |bs| == 8
  {
    [a, b, c, d, true, true, false, false]
  }

  lemma FourBits(x: nat, n: nat, a: bool, b: bool, c: bool, d: bool)
    requires a == (x % 2 == 1) && b == (x / 2 % 2 == 1) && c == (x / 2 / 2 % 2 == 1) && d == (x / 2 / 2 / 2 % 2 == 1)
    ensures NatBits(x, n + 4) == [a, b, c, d] + NatBits(x / 2 / 2 / 2 / 2, n)
  {
    hide NatBits;
    OneBit(x, n + 3);
    OneBit(x / 2, n + 2);
    OneBit(x / 2 / 2, n + 1);
    OneBit(x / 2 / 2 / 2, n);
    FourInFront(a, b, c, d, NatBits(x / 2 / 2 / 2 / 2, n));
  }

  lemma FourInFront(a: bool, b: bool, c: bool, d: bool, rest: Bits)
    ensures [a] + ([b] + ([c] + ([d] + rest))) == [a, b, c, d] + rest
  {
  }

  lemma OneBit(x: nat, n: nat)
    ensures NatBits(x, n + 1) == [x % 2 == 1] + NatBits(x / 2, n)
  {
  }

  lemma DigitBits(x: byte, a: bool, b: bool, c: bool, d: bool)
    requires x / 2 / 2 / 2 / 2 == 3
    requires a == (x % 2 == 1) && b == (x / 2 % 2 == 1) && c == (x / 2 / 2 % 2 == 1) && d == (x / 2 / 2 / 2 % 2 == 1)
    ensures NatBits(x, 8) == Digit(a, b, c, d)
  {
    hide NatBits;
    FourBits(x, 4, a, b, c, d);
    FourBits(3, 0, true, true, false, false);
    assert NatBits(0, 0) == [];
  }

  lemma BitsOfDigits()
    ensures
      && NatBits(0x31, 8) == Digit(true, false, false, false)
      && NatBits(0x32, 8) == Digit(false, true, false, false)
      && NatBits(0x33, 8) == Digit(true, true, false, false)
      && NatBits(0x34, 8) == Digit(false, false, true, false)
      && NatBits(0x35, 8) == Digit(true, false, true, false)
      && NatBits(0x36, 8) == Digit(false, true, true, false)
      && NatBits(0x37, 8) == Digit(true, true, true, false)
      && NatBits(0x38, 8) == Digit(false, false, false, true)
      && NatBits(0x39, 8) == Digit(true, false, false, true)
  {
    hide NatBits, Digit;
    DigitBits(0x31, true, false, false, false);
    DigitBits(0x32, false, true, false, false);
    DigitBits(0x33, true, true, false, false);
    DigitBits(0x34, false, false, true, false);
    DigitBits(0x35, true, false, true, false);
    DigitBits(0x36, false, true, true, false);
    DigitBits(0x37, true, true, true, false);
    DigitBits(0x38, false, false, false, true);
    DigitBits(0x39, true, false, false, true);
  }

  function StepDigit(low: bool, x: bv32, a: bool, b: bool, c: bool, d: bool, polynom: bv32): bv32 {
    if low then FourSteps(FourSteps(x, a, b, c, d, polynom), true, true, false, false, polynom)
    else FourSteps(FourSteps(x, false, false, true, true, polynom), d, c, b, a, polynom)
  }

  /** The parameters are those of a division on w bits with this polynomial. */
  predicate Divides(p: Params, w: nat, polynom: bv32) {
    Clear(polynom, w) && p.width == w && p.polynom[..w] == Upper(polynom, w)
  }

  lemma FeedDigit(p: Params, w: nat, polynom: bv32, x: bv32, digit: byte, a: bool, b: bool, c: bool, d: bool)
    requires Divides(p, w, polynom) && Clear(x, w) && NatBits(digit, 8) == Digit(a, b, c, d)
    ensures
      var y := StepDigit(p.refin, x, a, b, c, d, polynom);
      FeedAll(p, Upper(x, w), ByteBits(p, digit)) == Upper(y, w) && Clear(y, w)
  {
    hide FeedAll, FourSteps, Upper, Clear, NatBits;
    FeedByte(p, w, polynom, x, ByteBits(p, digit), StepDigit(p.refin, x, a, b, c, d, polynom));
  }

  lemma DivideNext(p: Params, r: Bits, k: nat)
    requires ValidParams(p) && |r| == p.width && k < 9
    ensures Divide(p, r, DIGITS[..k + 1]) == FeedAll(p, Divide(p, r, DIGITS[..k]), ByteBits(p, DIGITS[k]))
  {
    hide FeedAll, ByteBits;
    assert DIGITS[..k + 1][..k] == DIGITS[..k];
  }

  /** The register behind each of the digits. */
  predicate Chain(low: bool, polynom: bv32, xs: seq<bv32>) {
    && |xs| == 10
    && xs[1] == StepDigit(low, xs[0], true, false, false, false, polynom)
    && xs[2] == StepDigit(low, xs[1], false, true, false, false, polynom)
    && xs[3] == StepDigit(low, xs[2], true, true, false, false, polynom)
    && xs[4] == StepDigit(low, xs[3], false, false, true, false, polynom)
    && xs[5] == StepDigit(low, xs[4], true, false, true, false, polynom)
    && xs[6] == StepDigit(low, xs[5], false, true, true, false, polynom)
    && xs[7] == StepDigit(low, xs[6], true, true, true, false, polynom)
    && xs[8] == StepDigit(low, xs[7], false, false, false, true, polynom)
    && xs[9] == StepDigit(low, xs[8], true, false, false, true, polynom)
  }

  lemma DigitsDivided(p: Params, w: nat, polynom: bv32, xs: seq<bv32>)
    requires Divides(p, w, polynom) && Chain(p.refin, polynom, xs) && Clear(xs[0], w)
    ensures Divide(p, Upper(xs[0], w), DIGITS) == Upper(xs[9], w)
  {
    hide Divides, Upper, Clear, StepDigit, Divide, FeedAll, ByteBits, NatBits, Digit;
    DividesIsValid(p, w, polynom);
    BitsOfDigits();
    FeedDigit(p, w, polynom, xs[0], 0x31, true, false, false, false);
    DivideNext(p, Upper(xs[0], w), 0);
    FeedDigit(p, w, polynom, xs[1], 0x32, false, true, false, false);
    DivideNext(p, Upper(xs[0], w), 1);
    FeedDigit(p, w, polynom, xs[2], 0x33, true, true, false, false);
    DivideNext(p, Upper(xs[0], w), 2);
    FeedDigit(p, w, polynom, xs[3], 0x34, false, false, true, false);
    DivideNext(p, Upper(xs[0], w), 3);
    FeedDigit(p, w, polynom, xs[4], 0x35, true, false, true, false);
    DivideNext(p, Upper(xs[0], w), 4);
    FeedDigit(p, w, polynom, xs[5], 0x36, false, true, true, false);
    DivideNext(p, Upper(xs[0], w), 5);
    FeedDigit(p, w, polynom, xs[6], 0x37, true, true, true, false);
    DivideNext(p, Upper(xs[0], w), 6);
    FeedDigit(p, w, polynom, xs[7], 0x38, false, false, false, true);
    DivideNext(p, Upper(xs[0], w), 7);
    FeedDigit(p, w, polynom, xs[8], 0x39, true, false, false, true);
    DivideNext(p, Upper(xs[0], w), 8);
    assert DIGITS[..9] == DIGITS && DIGITS[..0] == [];
    NothingDivided(p, Upper(xs[0], w));
  }

  lemma DividesIsValid(p: Params, w: nat, polynom: bv32)
    requires Divides(p, w, polynom)
    ensures ValidParams(p) && p.width == w
  {
  }

  lemma NothingDivided(p: Params, r: Bits)
    requires ValidParams(p) && |r| == p.width
    ensures Divide(p, r, []) == r
  {
  }

  function ChainB(): seq<bv32> {
    [0x0000_0000, 0x6504_CDB2, 0xCE1B_6AD8, 0xCF91_7D9B, 0x12B0_7792,
     0xFB70_6C7E, 0x2FC8_54D4, 0x7AD6_B2D9, 0xEED1_B7EE, 0x0E7C_650A]
  }

  lemma FirstDigitsOfB()
    ensures
      && StepDigit(false, 0x0000_0000, true, false, false, false, 0xEE5B_42FD) == 0x6504_CDB2
      && StepDigit(false, 0x6504_CDB2, false, true, false, false, 0xEE5B_42FD) == 0xCE1B_6AD8
      && StepDigit(false, 0xCE1B_6AD8, true, true, false, false, 0xEE5B_42FD) == 0xCF91_7D9B
  {
  }

  lemma MiddleDigitsOfB()
    ensures
      && StepDigit(false, 0xCF91_7D9B, false, false, true, false, 0xEE5B_42FD) == 0x12B0_7792
      && StepDigit(false, 0x12B0_7792, true, false, true, false, 0xEE5B_42FD) == 0xFB70_6C7E
      && StepDigit(false, 0xFB70_6C7E, false, true, true, false, 0xEE5B_42FD) == 0x2FC8_54D4
  {
  }

  lemma LastDigitsOfB()
    ensures
      && StepDigit(false, 0x2FC8_54D4, true, true, true, false, 0xEE5B_42FD) == 0x7AD6_B2D9
      && StepDigit(false, 0x7AD6_B2D9, false, false, false, true, 0xEE5B_42FD) == 0xEED1_B7EE
      && StepDigit(false, 0xEED1_B7EE, true, false, false, true, 0xEE5B_42FD) == 0x0E7C_650A
  {
  }

  lemma ChainBHolds()
    ensures Chain(false, 0xEE5B_42FD, ChainB())
  {
    hide StepDigit;
    FirstDigitsOfB();
    MiddleDigitsOfB();
    LastDigitsOfB();
  }

  function ChainC(): seq<bv32> {
    [0xFFFF_FFFF, 0x3866_50F6, 0xF9DC_5531, 0xB20B_21F7, 0x88D0_A390,
     0x533B_74E7, 0x9E71_537D, 0xA816_BDB7, 0xA6FE_1EF9, 0x3EB6_9F38]
  }

  lemma FirstDigitsOfC()
    ensures
      && StepDigit(true, 0xFFFF_FFFF, true, false, false, false, 0x1EDC_6F41) == 0x3866_50F6
      && StepDigit(true, 0x3866_50F6, false, true, false, false, 0x1EDC_6F41) == 0xF9DC_5531
      && StepDigit(true, 0xF9DC_5531, true, true, false, false, 0x1EDC_6F41) == 0xB20B_21F7
  {
  }

  lemma MiddleDigitsOfC()
    ensures
      && StepDigit(true, 0xB20B_21F7, false, false, true, false, 0x1EDC_6F41) == 0x88D0_A390
      && StepDigit(true, 0x88D0_A390, true, false, true, false, 0x1EDC_6F41) == 0x533B_74E7
      && StepDigit(true, 0x533B_74E7, false, true, true, false, 0x1EDC_6F41) == 0x9E71_537D
  {
  }

  lemma LastDigitsOfC()
    ensures
      && StepDigit(true, 0x9E71_537D, true, true, true, false, 0x1EDC_6F41) == 0xA816_BDB7
      && StepDigit(true, 0xA816_BDB7, false, false, false, true, 0x1EDC_6F41) == 0xA6FE_1EF9
      && StepDigit(true, 0xA6FE_1EF9, true, false, false, true, 0x1EDC_6F41) == 0x3EB6_9F38
  {
  }

  lemma ChainCHolds()
    ensures Chain(true, 0x1EDC_6F41, ChainC())
  {
    hide StepDigit;
    FirstDigitsOfC();
    MiddleDigitsOfC();
    LastDigitsOfC();
  }

  function ChainD(): seq<bv32> {
    [0x0000_0000, 0x5004_0000, 0xD7BD_0000, 0x1E5A_0000, 0x4C11_0000,
     0xEC2E_0000, 0xBF88_0000, 0xE296_0000, 0x98D1_0000, 0x9184_0000]
  }

  lemma FirstDigitsOfD()
    ensures
      && StepDigit(true, 0x0000_0000, true, false, false, false, 0x1021_0000) == 0x5004_0000
      && StepDigit(true, 0x5004_0000, false, true, false, false, 0x1021_0000) == 0xD7BD_0000
      && StepDigit(true, 0xD7BD_0000, true, true, false, false, 0x1021_0000) == 0x1E5A_0000
  {
  }

  lemma MiddleDigitsOfD()
    ensures
      && StepDigit(true, 0x1E5A_0000, false, false, true, false, 0x1021_0000) == 0x4C11_0000
      && StepDigit(true, 0x4C11_0000, true, false, true, false, 0x1021_0000) == 0xEC2E_0000
      && StepDigit(true, 0xEC2E_0000, false, true, true, false, 0x1021_0000) == 0xBF88_0000
  {
  }

  lemma LastDigitsOfD()
    ensures
      && StepDigit(true, 0xBF88_0000, true, true, true, false, 0x1021_0000) == 0xE296_0000
      && StepDigit(true, 0xE296_0000, false, false, false, true, 0x1021_0000) == 0x98D1_0000
      && StepDigit(true, 0x98D1_0000, true, false, false, true, 0x1021_0000) == 0x9184_0000
  {
  }

  lemma ChainDHolds()
    ensures Chain(true, 0x1021_0000, ChainD())
  {
    hide StepDigit;
    FirstDigitsOfD();
    MiddleDigitsOfD();
    LastDigitsOfD();
  }

  function ChainE(): seq<bv32> {
    [0x0000_0000, 0x832B_0000, 0x29A2_0000, 0x205D_0000, 0x5D28_0000,
     0xAA25_0000, 0x2794_0000, 0x16B9_0000, 0xB93C_0000, 0xBCDD_0000]
  }

  lemma FirstDigitsOfE()
    ensures
      && StepDigit(true, 0x0000_0000, true, false, false, false, 0x8005_0000) == 0x832B_0000
      && StepDigit(true, 0x832B_0000, false, true, false, false, 0x8005_0000) == 0x29A2_0000
      && StepDigit(true, 0x29A2_0000, true, true, false, false, 0x8005_0000) == 0x205D_0000
  {
  }

  lemma MiddleDigitsOfE()
    ensures
      && StepDigit(true, 0x205D_0000, false, false, true, false, 0x8005_0000) == 0x5D28_0000
      && StepDigit(true, 0x5D28_0000, true, false, true, false, 0x8005_0000) == 0xAA25_0000
      && StepDigit(true, 0xAA25_0000, false, true, true, false, 0x8005_0000) == 0x2794_0000
  {
  }

  lemma LastDigitsOfE()
    ensures
      && StepDigit(true, 0x2794_0000, true, true, true, false, 0x8005_0000) == 0x16B9_0000
      && StepDigit(true, 0x16B9_0000, false, false, false, true, 0x8005_0000) == 0xB93C_0000
      && StepDigit(true, 0xB93C_0000, true, false, false, true, 0x8005_0000) == 0xBCDD_0000
  {
  }

  lemma ChainEHolds()
    ensures Chain(true, 0x8005_0000, ChainE())
  {
    hide StepDigit;
    FirstDigitsOfE();
    MiddleDigitsOfE();
    LastDigitsOfE();
  }

  // ----- the value of a code -----

  lemma ToNatFour(a: bool, b: bool, c: bool, d: bool, rest: Bits)
    ensures ToNat([a, b, c, d] + rest) == Value(a, b, c, d) + 16 * ToNat(rest)
  {
    var r0, r1, r2, r3 := [a, b, c, d] + rest, [b, c, d] + rest, [c, d] + rest, [d] + rest;
    assert r0[1..] == r1 && r1[1..] == r2 && r2[1..] == r3 && r3[1..] == rest;
    assert ToNat(r0) == (if a then 1 else 0) + 2 * ToNat(r1);
    assert ToNat(r2) == (if c then 1 else 0) + 2 * ToNat(r3);
  }

  /** Four bits as a number, the lowest one first. */
  function Value(a: bool, b: bool, c: bool, d: bool): nat {
    (if a then 1 else 0) + (if b then 2 else 0) + (if c then 4 else 0) + (if d then 8 else 0)
  }

  lemma FourShifts(x: bv32)
    ensures Double(Double(Double(Double(x)))) == x << 4
  {
  }

  lemma HighFour(x: bv32, n: nat)
    ensures High(x, n + 4) ==
            [Top(x), Top(Double(x)), Top(Double(Double(x))), Top(Double(Double(Double(x))))] + High(x << 4, n)
  {
    FourShifts(x);
    hide Double, Top;
    var x1 := Double(x);
    var x2 := Double(x1);
    var x3 := Double(x2);
    assert High(x, n + 4) == [Top(x)] + High(x1, n + 3) && High(x1, n + 3) == [Top(x1)] + High(x2, n + 2);
    assert High(x2, n + 2) == [Top(x2)] + High(x3, n + 1) && High(x3, n + 1) == [Top(x3)] + High(Double(x3), n);
    hide High;
    FourInFront(Top(x), Top(x1), Top(x2), Top(x3), High(Double(x3), n));
  }

  /** The bits from the highest one on, read as a number whose lowest bit comes first. */
  lemma MirroredValue(x: bv32, y: bv32, n: nat, v: nat)
    requires y == x << 4 && v == Value(Top(x), Top(Double(x)), Top(Double(Double(x))), Top(Double(Double(Double(x)))))
    ensures ToNat(High(x, n + 4)) == v + 16 * ToNat(High(y, n))
  {
    hide Double, Top, ToNat, High;
    HighFour(x, n);
    ToNatFour(Top(x), Top(Double(x)), Top(Double(Double(x))), Top(Double(Double(Double(x)))), High(y, n));
  }

  lemma {:induction false} ToNatSnoc(b: Bits, t: bool)
    ensures ToNat(b + [t]) == ToNat(b) + (if t then Power2(|b|) else 0)
  {
    if b != [] {
      ToNatSnoc(b[1..], t);
      assert (b + [t])[1..] == b[1..] + [t];
    }
  }

  lemma Weighted(m: nat, d: bool, c: bool, b: bool, a: bool)
    ensures
      m * Value(d, c, b, a) ==
      (if d then m else 0) + (if c then 2 * m else 0) + (if b then 4 * m else 0) + (if a then 8 * m else 0)
  {
  }

  lemma Powers(n: nat)
    ensures Power2(n + 1) == 2 * Power2(n) && Power2(n + 2) == 4 * Power2(n) && Power2(n + 3) == 8 * Power2(n)
  {
    assert Power2(n + 2) == 2 * Power2(n + 1) && Power2(n + 3) == 2 * Power2(n + 2);
  }

  lemma ToNatSnocFour(r: Bits, d: bool, c: bool, b: bool, a: bool)
    ensures ToNat(r + [d] + [c] + [b] + [a]) == Power2(|r|) * Value(d, c, b, a) + ToNat(r)
  {
    hide ToNat, Power2, Value;
    Powers(|r|);
    Weighted(Power2(|r|), d, c, b, a);
    var r1 := r + [d];
    var r2 := r1 + [c];
    var r3 := r2 + [b];
    ToNatSnoc(r, d);
    ToNatSnoc(r1, c);
    ToNatSnoc(r2, b);
    ToNatSnoc(r3, a);
  }

  /** The bits from the highest one on, as the number that they are. */
  lemma TopValue(x: bv32, y: bv32, n: nat, v: nat)
    requires y == x << 4 && v == Value(Top(Double(Double(Double(x)))), Top(Double(Double(x))), Top(Double(x)), Top(x))
    ensures ToNat(Upper(x, n + 4)) == Power2(n) * v + ToNat(Upper(y, n))
  {
    hide Double, Top, ToNat, High, Power2, Value;
    HighFour(x, n);
    var a, b, c, d := Top(x), Top(Double(x)), Top(Double(Double(x))), Top(Double(Double(Double(x))));
    assert Upper(x, n + 4) == Upper(y, n) + [d] + [c] + [b] + [a];
    ToNatSnocFour(Upper(y, n), d, c, b, a);
  }

  lemma {:induction false} HighSplit(x: bv32, m: nat, n: nat)
    ensures High(x, m + n) == High(x, m) + High(Doubled(x, m), n)
    decreases m
  {
    hide Double, Top;
    if m > 0 {
      HighSplit(Double(x), m - 1, n);
    }
  }

  /** The lower half of a word, as a register of sixteen bits. */
  lemma LowerHalf(x: bv32)
    ensures WordOf(x)[..16] == Upper(x << 8 << 8, 16)
  {
    hide Double, Top, High, Doubled;
    HighSplit(x, 16, 16);
    DoubledTwice(x, 8, 8);
    DoubledByEight(x);
    DoubledByEight(x << 8);
    assert WordOf(x)[..16] == Register(x)[..16];
  }

  /** The code from the remainder. */
  lemma ReferenceOf(p: Params, data: seq<byte>, x: bv32)
    requires ValidParams(p) && Divide(p, p.initial[..p.width], data) == Upper(x, p.width)
    ensures Reference(p, data) == Sum(if p.refout then High(x, p.width) else Upper(x, p.width), p.finalXor[..p.width])
  {
    hide Divide, High;
    MirroredTwice(High(x, p.width));
  }

  lemma MirroredTwice(b: Bits)
    ensures Reverse(Reverse(b)) == b
  {
  }

  predicate Ones(b: Bits) {
    forall i :: 0 <= i < |b| ==> b[i]
  }

  lemma HighOnes(x: bv32, y: bv32, n: nat)
    requires y == x << 4 && Top(x) && Top(Double(x)) && Top(Double(Double(x))) && Top(Double(Double(Double(x))))
    requires Ones(High(y, n))
    ensures Ones(High(x, n + 4))
  {
    hide Double, Top, High;
    HighFour(x, n);
  }

  lemma NoBits(x: bv32)
    ensures Ones(High(x, 0))
  {
  }

  lemma AllOnes()
    ensures Ones(High(0xFFFF_FFFF, 32)) && Ones(WordOf(0xFFFF_FFFF)[..32])
  {
    hide High, Ones;
    NoBits(0);
    HighOnes(0xF000_0000, 0, 0);
    HighOnes(0xFF00_0000, 0xF000_0000, 4);
    HighOnes(0xFFF0_0000, 0xFF00_0000, 8);
    HighOnes(0xFFFF_0000, 0xFFF0_0000, 12);
    HighOnes(0xFFFF_F000, 0xFFFF_0000, 16);
    HighOnes(0xFFFF_FF00, 0xFFFF_F000, 20);
    HighOnes(0xFFFF_FFF0, 0xFFFF_FF00, 24);
    HighOnes(0xFFFF_FFFF, 0xFFFF_FFF0, 28);
    MirrorOfOnes(High(0xFFFF_FFFF, 32));
  }

  lemma MirrorOfOnes(b: Bits)
    requires Ones(b)
    ensures Ones(Reverse(b))
  {
  }

  // ----- the four values -----

  lemma ValueB()
    ensures ToNat(Upper(0x0E7C_650A, 32)) == 0x0E7C_650A
  {
    hide ToNat, Upper;
    PowersOf16();
    EmptyValue(0);
    TopValue(0x0E7C_650A, 0xE7C6_50A0, 28, 0);
    TopValue(0xE7C6_50A0, 0x7C65_0A00, 24, 14);
    TopValue(0x7C65_0A00, 0xC650_A000, 20, 7);
    TopValue(0xC650_A000, 0x650A_0000, 16, 12);
    TopValue(0x650A_0000, 0x50A0_0000, 12, 6);
    TopValue(0x50A0_0000, 0x0A00_0000, 8, 5);
    TopValue(0x0A00_0000, 0xA000_0000, 4, 0);
    TopValue(0xA000_0000, 0x0000_0000, 0, 10);
  }

  lemma PowersOf16()
    ensures Power2(0) == 1 && Power2(4) == 0x10 && Power2(8) == 0x100 && Power2(12) == 0x1000 && Power2(16) == 0x1_0000
    ensures Power2(20) == 0x10_0000 && Power2(24) == 0x100_0000 && Power2(28) == 0x1000_0000
  {
  }

  lemma EmptyValue(x: bv32)
    ensures ToNat(High(x, 0)) == 0 && ToNat(Upper(x, 0)) == 0
  {
  }

  lemma ValueC()
    ensures ToNat(High(0xC149_60C7, 32)) == 0xE306_9283
  {
    hide ToNat, High;
    EmptyValue(0x0000_0000);
    MirroredValue(0xC149_60C7, 0x1496_0C70, 28, 3);
    MirroredValue(0x1496_0C70, 0x4960_C700, 24, 8);
    MirroredValue(0x4960_C700, 0x960C_7000, 20, 2);
    MirroredValue(0x960C_7000, 0x60C7_0000, 16, 9);
    MirroredValue(0x60C7_0000, 0x0C70_0000, 12, 6);
    MirroredValue(0x0C70_0000, 0xC700_0000, 8, 0);
    MirroredValue(0xC700_0000, 0x7000_0000, 4, 3);
    MirroredValue(0x7000_0000, 0x0000_0000, 0, 14);
  }

  lemma ValueD()
    ensures ToNat(High(0x9184_0000, 16)) == 0x2189
  {
    hide ToNat, High;
    EmptyValue(0x0000_0000);
    MirroredValue(0x9184_0000, 0x1840_0000, 12, 9);
    MirroredValue(0x1840_0000, 0x8400_0000, 8, 8);
    MirroredValue(0x8400_0000, 0x4000_0000, 4, 1);
    MirroredValue(0x4000_0000, 0x0000_0000, 0, 2);
  }

  lemma ValueE()
    ensures ToNat(High(0xBCDD_0000, 16)) == 0xBB3D
  {
    hide ToNat, High;
    EmptyValue(0x0000_0000);
    MirroredValue(0xBCDD_0000, 0xCDD0_0000, 12, 13);
    MirroredValue(0xCDD0_0000, 0xDD00_0000, 8, 3);
    MirroredValue(0xDD00_0000, 0xD000_0000, 4, 11);
    MirroredValue(0xD000_0000, 0x0000_0000, 0, 11);
  }

  lemma AddsNothing(b: Bits)
    requires |b| <= 64
    ensures Sum(b, WordOf(0)[..|b|]) == b
  {
    ZeroWord();
    hide WordOf;
  }

  /** Option b: nothing is reflected and nothing added at the end. */
  lemma AnswerB()
    ensures ValidParams(ParamsOf(B)) && ToNat(Reference(ParamsOf(B), DIGITS)) == 0x0E7C_650A
  {
    hide High, ToNat, Reference, Chain, Sum, Divide;
    ChainBHolds();
    DigitsDivided(ParamsOf(B), 32, 0xEE5B_42FD, ChainB());
    ReferenceOf(ParamsOf(B), DIGITS, 0x0E7C_650A);
    AddsNothing(Upper(0x0E7C_650A, 32));
    ValueB();
  }

  /** Option c: both reflections, and every bit inverted at the start and at the end. */
  lemma AnswerC()
    ensures ValidParams(ParamsOf(C)) && ToNat(Reference(ParamsOf(C), DIGITS)) == 0xE306_9283
  {
    hide High, ToNat, Reference, Chain, Sum, Divide;
    ChainCHolds();
    DigitsDivided(ParamsOf(C), 32, C_POLYNOM, ChainC());
    ReferenceOf(ParamsOf(C), DIGITS, 0x3EB6_9F38);
    AllOnes();
    HighPlus(0x3EB6_9F38, 0xFFFF_FFFF, 32);
    assert Plus(0x3EB6_9F38, 0xFFFF_FFFF) == 0xC149_60C7;
    assert WordOf(0xFFFF_FFFF)[..32] == High(0xFFFF_FFFF, 32);
    ValueC();
  }

  lemma AnswerD()
    ensures ValidParams(ParamsOf(D)) && ToNat(Reference(ParamsOf(D), DIGITS)) == 0x2189
  {
    hide High, ToNat, Reference, Chain, Sum, Divide;
    ChainDHolds();
    LowerHalf(0x1021);
    LowerHalf(0);
    DigitsDivided(ParamsOf(D), 16, 0x1021_0000, ChainD());
    ReferenceOf(ParamsOf(D), DIGITS, 0x9184_0000);
    AddsNothing(High(0x9184_0000, 16));
    ValueD();
  }

  lemma AnswerE()
    ensures ValidParams(ParamsOf(E)) && ToNat(Reference(ParamsOf(E), DIGITS)) == 0xBB3D
  {
    hide High, ToNat, Reference, Chain, Sum, Divide;
    ChainEHolds();
    LowerHalf(0x8005);
    LowerHalf(0);
    DigitsDivided(ParamsOf(E), 16, 0x8005_0000, ChainE());
    ReferenceOf(ParamsOf(E), DIGITS, 0xBCDD_0000);
    AddsNothing(High(0xBCDD_0000, 16));
    ValueE();
  }

  /** What the repository expects of the four options for the nine digits. */
  function Answer(o: Option): nat {
    match o
    case B => 0x0E7C_650A
    case C => 0xE306_9283
    case D => 0x2189
    case E => 0xBB3D
  }

  lemma KnownAnswers(o: Option)
    ensures ValidParams(ParamsOf(o)) && ToNat(Reference(ParamsOf(o), DIGITS)) == Answer(o)
  {
    hide ParamsOf, Reference, ToNat;
    match o {
      case B => AnswerB();
      case C => AnswerC();
      case D => AnswerD();
      case E => AnswerE();
    }
  }
}

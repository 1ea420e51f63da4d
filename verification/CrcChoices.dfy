/**
  The options b to e of section 6.3.6 of the RaSTA standard.  The code computes with an optimised
  start value.  Here it is shown to be the configured one after as many zero bits as the code is wide,
  so that the result is the plain division of the message followed by that many zeros.
 */
module CrcChoices {
  import opened Packets
  import opened Crc
  import Codec

  // ----- division of the message followed by zeros -----

  /** Shifts a message bit in at the low end, where Feed adds it at the high end. */
  function Shift(p: Params, r: Bits, b: bool): (r': Bits)
    requires ValidParams(p) && |r| == p.width
    ensures |r'| == p.width
  {
    seq(p.width, i requires 0 <= i < p.width => (if i > 0 then r[i - 1] else b) != (r[p.width - 1] && p.polynom[i]))
  }

  function ShiftAll(p: Params, r: Bits, bs: Bits): (r': Bits)
    requires ValidParams(p) && |r| == p.width
    ensures |r'| == p.width
    decreases |bs|
  {
    if bs == [] then r else ShiftAll(p, Shift(p, r, bs[0]), bs[1..])
  }

  /** Zero bits do the same at either end. */
  lemma {:induction false} ShiftZeros(p: Params, r: Bits, n: nat)
    requires ValidParams(p) && |r| == p.width
    ensures ShiftAll(p, r, Zeros(n)) == FeedAll(p, r, Zeros(n))
    decreases n
  {
    if n > 0 {
      assert Shift(p, r, false) == Feed(p, r, false);
      assert Zeros(n)[1..] == Zeros(n - 1);
      ShiftZeros(p, Feed(p, r, false), n - 1);
    }
  }

  /** The register with b in its lowest bit. */
  function Unit(p: Params, b: bool): (r: Bits)
    ensures |r| == p.width
  {
    seq(p.width, i => i == 0 && b)
  }

  /** As many zero bits as the register is wide carry its lowest bit through the top. */
  lemma UnitThrough(p: Params, b: bool)
    requires ValidParams(p)
    ensures FeedAll(p, Unit(p, b), Zeros(p.width)) == Feed(p, Zeros(p.width), b)
  {
    var w, u := p.width, Unit(p, b);
    assert TopBits(u, w - 1) == Zeros(w - 1);
    FeedOwnTop(p, u, w - 1);
    FeedAllSnoc(p, u, Zeros(w - 1), false);
    assert Zeros(w - 1) + [false] == Zeros(w);
    assert Feed(p, Shifted(u, w - 1), false) == Feed(p, Zeros(w), b);
  }

  lemma ZerosMore(p: Params, r: Bits, n: nat)
    requires ValidParams(p) && |r| == p.width
    ensures FeedAll(p, Feed(p, r, false), Zeros(n)) == Feed(p, FeedAll(p, r, Zeros(n)), false)
  {
    FeedAllSnoc(p, r, Zeros(n), false);
    assert Zeros(n) + [false] == Zeros(n + 1) && Zeros(n + 1)[1..] == Zeros(n);
  }

  /** A bit shifted in at the low end is, behind the zeros, one added at the high end. */
  lemma ShiftThrough(p: Params, r: Bits, b: bool)
    requires ValidParams(p) && |r| == p.width
    ensures FeedAll(p, Shift(p, r, b), Zeros(p.width)) == Feed(p, FeedAll(p, r, Zeros(p.width)), b)
  {
    var w := p.width;
    var z := FeedAll(p, r, Zeros(w));
    assert Shift(p, r, b) == Sum(Feed(p, r, false), Unit(p, b));
    assert Sum(Zeros(w), Zeros(w)) == Zeros(w) && Sum(z, Zeros(w)) == z;
    hide FeedAll, Feed, Sum, Shift, Unit;
    FeedAllIsLinear(p, Feed(p, r, false), Zeros(w), Unit(p, b), Zeros(w));
    ZerosMore(p, r, w);
    UnitThrough(p, b);
    FeedIsLinear(p, z, false, Zeros(w), b);
  }

  /** Division of the message followed by zeros, and the division of module Crc from a start value so prepared. */
  lemma {:induction false} Augmented(p: Params, r: Bits, bs: Bits)
    requires ValidParams(p) && |r| == p.width
    ensures ShiftAll(p, r, bs + Zeros(p.width)) == FeedAll(p, FeedAll(p, r, Zeros(p.width)), bs)
    decreases |bs|
  {
    var w := p.width;
    if bs == [] {
      assert bs + Zeros(w) == Zeros(w);
      ShiftZeros(p, r, w);
    } else {
      assert (bs + Zeros(w))[1..] == bs[1..] + Zeros(w);
      Augmented(p, Shift(p, r, bs[0]), bs[1..]);
      ShiftThrough(p, r, bs[0]);
    }
  }

  function DataBits(p: Params, data: seq<byte>): Bits {
    if data == [] then [] else DataBits(p, data[..|data| - 1]) + ByteBits(p, data[|data| - 1])
  }

  lemma {:induction false} FeedJoin(p: Params, r: Bits, bs: Bits, cs: Bits)
    requires ValidParams(p) && |r| == p.width
    ensures FeedAll(p, r, bs + cs) == FeedAll(p, FeedAll(p, r, bs), cs)
    decreases |bs|
  {
    if bs == [] {
      assert bs + cs == cs;
    } else {
      assert (bs + cs)[1..] == bs[1..] + cs;
      FeedJoin(p, Feed(p, r, bs[0]), bs[1..], cs);
    }
  }

  lemma {:induction false} DivideIsFeedAll(p: Params, r: Bits, data: seq<byte>)
    requires ValidParams(p) && |r| == p.width
    ensures Divide(p, r, data) == FeedAll(p, r, DataBits(p, data))
  {
    if data != [] {
      var n := |data| - 1;
      DivideIsFeedAll(p, r, data[..n]);
      FeedJoin(p, r, DataBits(p, data[..n]), ByteBits(p, data[n]));
    }
  }

  // ----- 32-bit numbers as registers -----

  function Double(x: bv32): bv32 {
    x << 1
  }

  function Top(x: bv32): bool {
    x & 0x8000_0000 != 0
  }

  function Plus(x: bv32, y: bv32): bv32 {
    x ^ y
  }

  lemma DoublePlus(x: bv32, y: bv32)
    ensures Double(Plus(x, y)) == Plus(Double(x), Double(y))
  {
  }

  lemma TopPlus(x: bv32, y: bv32)
    ensures Top(Plus(x, y)) == (Top(x) != Top(y))
  {
    assert (x ^ y) & 0x8000_0000 == (x & 0x8000_0000) ^ (y & 0x8000_0000);
    assert x & 0x8000_0000 == 0 || x & 0x8000_0000 == 0x8000_0000;
    assert y & 0x8000_0000 == 0 || y & 0x8000_0000 == 0x8000_0000;
  }

  function Doubled(x: bv32, n: nat): bv32
    decreases n
  {
    if n == 0 then x else Doubled(Double(x), n - 1)
  }

  lemma ShiftedAway(x: bv32)
    ensures x << 8 << 8 << 8 << 8 == 0
  {
  }

  lemma EightDoubles(x: bv32)
    ensures Double(Double(Double(Double(Double(Double(Double(Double(x)))))))) == x << 8
  {
  }

  lemma DoubledByEight(x: bv32)
    ensures Doubled(x, 8) == x << 8
  {
    EightDoubles(x);
    hide Double;
    var x4 := Double(Double(Double(Double(x))));
    assert Doubled(x, 8) == Doubled(Double(x), 7) == Doubled(Double(Double(x)), 6);
    assert Doubled(Double(Double(x)), 6) == Doubled(Double(Double(Double(x))), 5) == Doubled(x4, 4);
    assert Doubled(x4, 4) == Doubled(Double(x4), 3) == Doubled(Double(Double(x4)), 2);
    assert Doubled(Double(Double(x4)), 2) == Doubled(Double(Double(Double(x4))), 1) == Double(Double(Double(Double(x4))));
  }

  lemma {:induction false} DoubledTwice(x: bv32, m: nat, n: nat)
    ensures Doubled(x, m + n) == Doubled(Doubled(x, m), n)
    decreases m
  {
    hide Double;
    if m > 0 {
      DoubledTwice(Double(x), m - 1, n);
    }
  }

  lemma DoubledAway(x: bv32)
    ensures Doubled(x, 32) == 0
  {
    hide Doubled;
    DoubledTwice(x, 8, 24);
    DoubledByEight(x);
    DoubledTwice(x << 8, 8, 16);
    DoubledByEight(x << 8);
    DoubledTwice(x << 8 << 8, 8, 8);
    DoubledByEight(x << 8 << 8);
    DoubledByEight(x << 8 << 8 << 8);
    ShiftedAway(x);
  }

  /** The n highest bits of a number, the highest one first. */
  function High(x: bv32, n: nat): (b: Bits)
    ensures |b| == n
    decreases n
  {
    if n == 0 then [] else [Top(x)] + High(Double(x), n - 1)
  }

  function Register(x: bv32): (r: Bits)
    ensures |r| == 32
  {
    Reverse(High(x, 32))
  }

  /** The word of a 32-bit number. */
  function WordOf(x: bv32): (w: Word)
    ensures w[..32] == Register(x)
  {
    Register(x) + seq(32, _ => false)
  }

  lemma {:induction false} HighPrefix(x: bv32, n: nat)
    ensures High(x, n + 1)[..n] == High(x, n)
    decreases n
  {
    hide Double, Top;
    if n > 0 {
      HighPrefix(Double(x), n - 1);
    }
  }

  lemma {:induction false} HighPlus(x: bv32, y: bv32, n: nat)
    ensures High(Plus(x, y), n) == Sum(High(x, n), High(y, n))
    decreases n
  {
    hide Double, Top, Plus;
    if n > 0 {
      DoublePlus(x, y);
      TopPlus(x, y);
      HighPlus(Double(x), Double(y), n - 1);
    }
  }

  lemma HighCons(x: bv32, n: nat)
    ensures High(x, n + 1)[0] == Top(x) && High(x, n + 1)[1..] == High(Double(x), n)
  {
    hide Double, Top;
  }

  lemma {:induction false} HighLast(x: bv32, n: nat)
    ensures High(x, n + 1)[n] == Top(Doubled(x, n))
    decreases n
  {
    hide Double, Top;
    if n > 0 {
      HighLast(Double(x), n - 1);
    }
  }

  lemma HighOfDouble(x: bv32)
    ensures High(Double(x), 32) == High(x, 32)[1..] + [false]
  {
    hide Double, Top, High, Doubled;
    HighPrefix(Double(x), 31);
    HighLast(Double(x), 31);
    DoubledAway(x);
    DoubledCons(x, 31);
    ZeroTop();
    HighCons(x, 31);
  }

  lemma DoubledCons(x: bv32, n: nat)
    ensures Doubled(x, n + 1) == Doubled(Double(x), n)
  {
    hide Double;
  }

  lemma ZeroTop()
    ensures !Top(0)
  {
  }

  /** What one zero bit does to a register of 32 bits, on numbers. */
  function Next(x: bv32, polynom: bv32): bv32 {
    if Top(x) then Plus(Double(x), polynom) else Double(x)
  }

  lemma FeedNumber(p: Params, x: bv32, polynom: bv32)
    requires p.width == 32 && p.polynom[..32] == Register(polynom)
    ensures Feed(p, Register(x), false) == Register(Next(x, polynom))
  {
    hide Double, Top, High, Plus, Reverse, Feed;
    HighOfDouble(x);
    HighPlus(Double(x), polynom, 32);
    HighCons(x, 31);
    FeedReversed(p, High(x, 32), High(Double(x), 32), High(polynom, 32));
  }

  /** The same on lists of bits with the highest one first. */
  lemma FeedReversed(p: Params, h: Bits, d: Bits, polynom: Bits)
    requires p.width == |h| == |d| == |polynom| == 32 && p.polynom[..32] == Reverse(polynom)
    requires d == h[1..] + [false]
    ensures Feed(p, Reverse(h), false) == Reverse(if h[0] then Sum(d, polynom) else d)
  {
    assert forall i :: 0 <= i < 32 ==> p.polynom[i] == p.polynom[..32][i];
  }

  // ----- the options -----

  const C_POLYNOM: bv32 := 0x1EDC_6F41

  datatype Option = B | C | D | E

  function ParamsOf(o: Option): Params {
    match o
    case B => Params(32, WordOf(0xEE5B_42FD), WordOf(0), false, false, WordOf(0))
    case C => Params(32, WordOf(C_POLYNOM), WordOf(0xFFFF_FFFF), true, true, WordOf(0xFFFF_FFFF))
    case D => Params(16, WordOf(0x1021), WordOf(0), true, true, WordOf(0))
    case E => Params(16, WordOf(0x8005), WordOf(0), true, true, WordOf(0))
  }

  /** The start value that the option configures; the code keeps it beside the optimised one. */
  function Configured(o: Option): Word {
    if o == C then WordOf(0x2A26_F826) else WordOf(0)
  }

  /** n zero bits from a number on, for option c. */
  function Forward(x: bv32, n: nat): bv32
    decreases n
  {
    if n == 0 then x else Forward(Next(x, C_POLYNOM), n - 1)
  }

  lemma {:induction false} ForwardFeeds(x: bv32, n: nat)
    ensures FeedAll(ParamsOf(C), Register(x), Zeros(n)) == Register(Forward(x, n))
    decreases n
  {
    hide Next, Register, Feed;
    if n > 0 {
      FeedNumber(ParamsOf(C), x, C_POLYNOM);
      ForwardFeeds(Next(x, C_POLYNOM), n - 1);
      assert Zeros(n)[1..] == Zeros(n - 1);
    }
  }

  lemma {:induction false} ForwardTwice(x: bv32, m: nat, n: nat)
    ensures Forward(x, m + n) == Forward(Forward(x, m), n)
    decreases m
  {
    hide Next;
    if m > 0 {
      ForwardTwice(Next(x, C_POLYNOM), m - 1, n);
    }
  }

  lemma ForwardEight(x0: bv32, x1: bv32, x2: bv32, x3: bv32, x4: bv32, x5: bv32, x6: bv32, x7: bv32, x8: bv32)
    requires x1 == Next(x0, C_POLYNOM) && x2 == Next(x1, C_POLYNOM) && x3 == Next(x2, C_POLYNOM)
    requires x4 == Next(x3, C_POLYNOM) && x5 == Next(x4, C_POLYNOM) && x6 == Next(x5, C_POLYNOM)
    requires x7 == Next(x6, C_POLYNOM) && x8 == Next(x7, C_POLYNOM)
    ensures Forward(x0, 8) == x8
  {
    hide Next;
    assert Forward(x0, 8) == Forward(x1, 7) == Forward(x2, 6) == Forward(x3, 5) == Forward(x4, 4);
    assert Forward(x4, 4) == Forward(x5, 3) == Forward(x6, 2) == Forward(x7, 1) == Forward(x8, 0);
  }

  lemma ZeroBits1()
    ensures Forward(0x2A26_F826, 8) == 0x154A_DB69
  {
    ForwardEight(0x2A26_F826, 0x544D_F04C, 0xA89B_E098, 0x4FEB_AE71, 0x9FD7_5CE2,
                 0x2172_D685, 0x42E5_AD0A, 0x85CB_5A14, 0x154A_DB69);
  }

  lemma ZeroBits2()
    ensures Forward(0x154A_DB69, 8) == 0xDC6C_2014
  {
    ForwardEight(0x154A_DB69, 0x2A95_B6D2, 0x552B_6DA4, 0xAA56_DB48, 0x4A71_D9D1,
                 0x94E3_B3A2, 0x371B_0805, 0x6E36_100A, 0xDC6C_2014);
  }

  lemma ZeroBits3()
    ensures Forward(0xDC6C_2014, 8) == 0x3D67_4295
  {
    ForwardEight(0xDC6C_2014, 0xA604_2F69, 0x52D4_3193, 0xA5A8_6326, 0x558C_A90D,
                 0xAB19_521A, 0x48EE_CB75, 0x91DD_96EA, 0x3D67_4295);
  }

  lemma ZeroBits4()
    ensures Forward(0x3D67_4295, 8) == 0xFFFF_FFFF
  {
    ForwardEight(0x3D67_4295, 0x7ACE_852A, 0xF59D_0A54, 0xF5E6_7BE9, 0xF510_9893,
                 0xF4FD_5E67, 0xF726_D38F, 0xF091_C85F, 0xFFFF_FFFF);
  }

  lemma ZeroBitsOfC()
    ensures Forward(0x2A26_F826, 32) == 0xFFFF_FFFF
  {
    hide Forward;
    ForwardTwice(0x2A26_F826, 8, 24);
    ForwardTwice(0x154A_DB69, 8, 16);
    ForwardTwice(0xDC6C_2014, 8, 8);
    ZeroBits1();
    ZeroBits2();
    ZeroBits3();
    ZeroBits4();
  }

  lemma {:induction false} ZeroRegister(n: nat)
    ensures High(0, n) == Zeros(n) && Reverse(Zeros(n)) == Zeros(n)
    decreases n
  {
    if n > 0 {
      ZeroTop();
      assert Double(0) == 0;
      hide Double, Top;
      ZeroRegister(n - 1);
    }
  }

  lemma ZeroStart(p: Params)
    requires ValidParams(p)
    ensures FeedAll(p, Zeros(p.width), Zeros(p.width)) == Zeros(p.width)
  {
    var z := Zeros(p.width);
    FeedOwnTop(p, z, p.width);
    assert TopBits(z, p.width) == z && Shifted(z, p.width) == z;
  }

  /** The optimised start value is the configured one after as many zero bits as the code is wide. */
  lemma OptimisedStart(o: Option)
    ensures
      var p := ParamsOf(o);
      && ValidParams(p) && Codec.ValidCrc(p)
      && FeedAll(p, Configured(o)[..p.width], Zeros(p.width)) == p.initial[..p.width]
  {
    var p := ParamsOf(o);
    if o == C {
      ForwardFeeds(0x2A26_F826, 32);
      ZeroBitsOfC();
    } else {
      ZeroRegister(32);
      assert WordOf(0)[..32] == Zeros(32) && WordOf(0)[..p.width] == Zeros(32)[..p.width] == Zeros(p.width);
      ZeroStart(p);
    }
  }

  /**
    For each of the options the remainder that the code computes is the division of the message
    followed by zeros, from the configured start value.
   */
  lemma RemainderAsConfigured(o: Option, data: seq<byte>)
    ensures
      var p := ParamsOf(o);
      && ValidParams(p)
      && Divide(p, p.initial[..p.width], data) ==
         ShiftAll(p, Configured(o)[..p.width], DataBits(p, data) + Zeros(p.width))
  {
    hide FeedAll, ShiftAll, Divide, DataBits, ParamsOf, Configured;
    var p := ParamsOf(o);
    OptimisedStart(o);
    DivideIsFeedAll(p, p.initial[..p.width], data);
    Augmented(p, Configured(o)[..p.width], DataBits(p, data));
  }
}

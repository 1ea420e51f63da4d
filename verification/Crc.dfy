/**
  The check code of the redundancy layer.  The table-driven computation is proved equal to
  bit-at-a-time polynomial division for every width from 8 to 64, every polynomial and every choice
  of reflections, and so for the options of the RaSTA standard in module CrcChoices.
  A machine word is the list of its 64 bits, the least significant one first.
 */
module Crc {
  import opened Packets

  type Bits = seq<bool>
  type Word = w: seq<bool> | |w| == 64 witness seq(64, _ => false)

  // ----- words -----

  const ZERO: Word := seq(64, _ => false)

  function Xor(a: Word, b: Word): Word {
    seq(64, i requires 0 <= i < 64 => a[i] != b[i])
  }

  function And(a: Word, b: Word): Word {
    seq(64, i requires 0 <= i < 64 => a[i] && b[i])
  }

  function Or(a: Word, b: Word): Word {
    seq(64, i requires 0 <= i < 64 => a[i] || b[i])
  }

  function Shl(a: Word, k: nat): Word {
    seq(64, i requires 0 <= i < 64 => i >= k && a[i - k])
  }

  function Shr(a: Word, k: nat): Word {
    seq(64, i requires 0 <= i < 64 => i + k < 64 && a[i + k])
  }

  /** The word with just bit k set; zero if there is no such bit. */
  function Single(k: int): Word {
    seq(64, i => i == k)
  }

  function LowMask(n: nat): Word {
    seq(64, i => i < n)
  }

  /** The lowest n bits of a number. */
  function NatBits(x: nat, n: nat): (b: Bits)
    ensures |b| == n
  {
    if n == 0 then [] else [x % 2 == 1] + NatBits(x / 2, n - 1)
  }

  function ToNat(b: Bits): nat {
    if b == [] then 0 else (if b[0] then 1 else 0) + 2 * ToNat(b[1..])
  }

  function ByteWord(x: nat): Word {
    NatBits(x, 8) + seq(56, _ => false)
  }

  lemma {:induction false} NatBitsOfToNat(b: Bits)
    ensures NatBits(ToNat(b), |b|) == b
  {
    if b != [] {
      NatBitsOfToNat(b[1..]);
    }
  }

  lemma {:induction false} ToNatOfZeros(b: Bits)
    requires forall i :: 0 <= i < |b| ==> !b[i]
    ensures ToNat(b) == 0
  {
    if b != [] {
      ToNatOfZeros(b[1..]);
    }
  }

  /** High zero bits do not count. */
  lemma {:induction false} ToNatOfLow(b: Bits, n: nat)
    requires n <= |b| && forall i :: n <= i < |b| ==> !b[i]
    ensures ToNat(b) == ToNat(b[..n])
  {
    if n == 0 {
      ToNatOfZeros(b);
    } else {
      ToNatOfLow(b[1..], n - 1);
      assert b[..n][1..] == b[1..][..n - 1];
    }
  }

  function Power2(n: nat): nat {
    if n == 0 then 1 else 2 * Power2(n - 1)
  }

  lemma {:induction false} ToNatBound(b: Bits)
    ensures ToNat(b) < Power2(|b|)
  {
    if b != [] {
      ToNatBound(b[1..]);
    }
  }

  /** A word below 256 is the word of a byte, and indexes the table. */
  lemma ByteIndex(x: Word)
    requires forall i :: 8 <= i < 64 ==> !x[i]
    ensures ToNat(x) < 256 && ByteWord(ToNat(x)) == x
  {
    ToNatOfLow(x, 8);
    ToNatBound(x[..8]);
    assert Power2(8) == 2 * Power2(7) == 4 * Power2(6) == 8 * Power2(5) == 16 * Power2(4) == 32 * Power2(3) == 256;
    NatBitsOfToNat(x[..8]);
  }

  // ----- the reference: one bit at a time -----

  datatype Params = Params(
    width: nat, polynom: Word, initial: Word, refin: bool, refout: bool, finalXor: Word)

  predicate ValidParams(p: Params) {
    8 <= p.width <= 64
  }

  /** Shifts one message bit into the division register. */
  function Feed(p: Params, r: Bits, b: bool): (r': Bits)
    requires ValidParams(p) && |r| == p.width
    ensures |r'| == p.width
  {
    var quotient := r[p.width - 1] != b;
    seq(p.width, i requires 0 <= i < p.width => (i > 0 && r[i - 1]) != (quotient && p.polynom[i]))
  }

  function FeedAll(p: Params, r: Bits, bs: Bits): (r': Bits)
    requires ValidParams(p) && |r| == p.width
    ensures |r'| == p.width
    decreases |bs|
  {
    if bs == [] then r else FeedAll(p, Feed(p, r, bs[0]), bs[1..])
  }

  function Reverse(b: Bits): (r: Bits)
    ensures |r| == |b|
  {
    seq(|b|, i requires 0 <= i < |b| => b[|b| - 1 - i])
  }

  /** The bits of a byte in the order in which they enter the division. */
  function ByteBits(p: Params, x: byte): (b: Bits)
    ensures |b| == 8
  {
    if p.refin then NatBits(x, 8) else Reverse(NatBits(x, 8))
  }

  function Divide(p: Params, r: Bits, data: seq<byte>): (r': Bits)
    requires ValidParams(p) && |r| == p.width
    ensures |r'| == p.width
  {
    if data == [] then r
    else FeedAll(p, Divide(p, r, data[..|data| - 1]), ByteBits(p, data[|data| - 1]))
  }

  /** The check code by definition: divide, reflect the remainder if configured, apply the final xor. */
  function Reference(p: Params, data: seq<byte>): (r: Bits)
    requires ValidParams(p)
    ensures |r| == p.width
  {
    var rem := Divide(p, p.initial[..p.width], data);
    var out := if p.refout then Reverse(rem) else rem;
    seq(p.width, i requires 0 <= i < p.width => out[i] != p.finalXor[i])
  }

  // ----- division is linear -----

  function Sum(a: Bits, b: Bits): (c: Bits)
    requires |a| == |b|
    ensures |c| == |a|
  {
    seq(|a|, i requires 0 <= i < |a| => a[i] != b[i])
  }

  function Zeros(n: nat): (b: Bits)
    ensures |b| == n
  {
    seq(n, _ => false)
  }

  /** The register moved up by n places. */
  function Shifted(r: Bits, n: nat): (s: Bits)
    ensures |s| == |r|
  {
    seq(|r|, i requires 0 <= i < |r| => i >= n && r[i - n])
  }

  /** The n highest bits of the register, the highest one first. */
  function TopBits(r: Bits, n: nat): (b: Bits)
    requires n <= |r|
    ensures |b| == n
  {
    seq(n, i requires 0 <= i < n => r[|r| - 1 - i])
  }

  lemma FeedIsLinear(p: Params, r1: Bits, b1: bool, r2: Bits, b2: bool)
    requires ValidParams(p) && |r1| == |r2| == p.width
    ensures Feed(p, Sum(r1, r2), b1 != b2) == Sum(Feed(p, r1, b1), Feed(p, r2, b2))
  {
  }

  lemma {:induction false} FeedAllIsLinear(p: Params, r1: Bits, bs1: Bits, r2: Bits, bs2: Bits)
    requires ValidParams(p) && |r1| == |r2| == p.width && |bs1| == |bs2|
    ensures FeedAll(p, Sum(r1, r2), Sum(bs1, bs2)) == Sum(FeedAll(p, r1, bs1), FeedAll(p, r2, bs2))
    decreases |bs1|
  {
    if bs1 != [] {
      FeedIsLinear(p, r1, bs1[0], r2, bs2[0]);
      assert Sum(bs1, bs2)[1..] == Sum(bs1[1..], bs2[1..]);
      FeedAllIsLinear(p, Feed(p, r1, bs1[0]), bs1[1..], Feed(p, r2, bs2[0]), bs2[1..]);
    }
  }

  lemma ShiftedTwice(r: Bits, m: nat, n: nat)
    ensures Shifted(Shifted(r, m), n) == Shifted(r, m + n)
  {
  }

  lemma FeedTopBit(p: Params, r: Bits, n: nat)
    requires ValidParams(p) && |r| == p.width && 0 < n <= p.width
    ensures Feed(p, r, TopBits(r, n)[0]) == Shifted(r, 1)
    ensures TopBits(r, n)[1..] == TopBits(Shifted(r, 1), n - 1)
  {
  }

  /** Feeding a register its own top bits cancels every feedback. */
  lemma {:induction false} FeedOwnTop(p: Params, r: Bits, n: nat)
    requires ValidParams(p) && |r| == p.width && n <= p.width
    ensures FeedAll(p, r, TopBits(r, n)) == Shifted(r, n)
    decreases n
  {
    if n == 0 {
      assert Shifted(r, 0) == r;
    } else {
      hide Feed, TopBits, Shifted;
      FeedTopBit(p, r, n);
      FeedOwnTop(p, Shifted(r, 1), n - 1);
      ShiftedTwice(r, 1, n - 1);
    }
  }

  /** Eight steps at once: a shift, and a term that depends on eight bits only. */
  lemma FeedEight(p: Params, r: Bits, bs: Bits)
    requires ValidParams(p) && |r| == p.width && |bs| == 8
    ensures FeedAll(p, r, bs) == Sum(Shifted(r, 8), FeedAll(p, Zeros(p.width), Sum(TopBits(r, 8), bs)))
  {
    var t := TopBits(r, 8);
    var c := Sum(t, bs);
    assert Sum(r, Zeros(p.width)) == r;
    assert Sum(t, c) == bs;
    FeedAllIsLinear(p, r, t, Zeros(p.width), c);
    FeedOwnTop(p, r, 8);
  }

  /** Eight zero bits fed to a register that is zero below its top byte: the term of that byte. */
  lemma FeedZeros(p: Params, r: Bits)
    requires ValidParams(p) && |r| == p.width && forall i :: 0 <= i < p.width - 8 ==> !r[i]
    ensures FeedAll(p, r, Zeros(8)) == FeedAll(p, Zeros(p.width), TopBits(r, 8))
  {
    FeedEight(p, r, Zeros(8));
    var s := FeedAll(p, Zeros(p.width), TopBits(r, 8));
    assert Sum(TopBits(r, 8), Zeros(8)) == TopBits(r, 8);
    assert Sum(Shifted(r, 8), s) == s;
  }

  // ----- the table -----

  /** The n lowest bits, mirrored. */
  function Reflected(x: Word, n: nat): Word
    requires n <= 64
  {
    seq(64, i requires 0 <= i < 64 => i < n && x[n - 1 - i])
  }

  lemma SingleIsZero(k: int)
    requires k < 64
    ensures Single(k) == ZERO <==> k < 0
  {
    if k >= 0 {
      assert Single(k)[k];
    }
  }

  method Reflect(crcIn: Word, n: nat) returns (crcOut: Word)
    requires 1 <= n <= 64
    ensures crcOut == Reflected(crcIn, n)
  {
    var j := Single(0);
    crcOut := ZERO;
    var i := Single(n - 1);
    ghost var k := 0;
    SingleIsZero(n - 1);
    while i != ZERO
      invariant 0 <= k <= n && i == Single(n - 1 - k) && j == Single(k) && (i == ZERO <==> k == n)
      invariant crcOut == seq(64, m requires 0 <= m < 64 => m < k && crcIn[n - 1 - m])
      decreases n - k
    {
      assert And(crcIn, i) != ZERO <==> crcIn[n - 1 - k] by {
        assert And(crcIn, i)[n - 1 - k] == crcIn[n - 1 - k];
        assert !crcIn[n - 1 - k] ==> And(crcIn, i) == ZERO;
      }
      if And(crcIn, i) != ZERO {
        crcOut := Or(crcOut, j);
      }
      j := Shl(j, 1);
      i := Shr(i, 1);
      k := k + 1;
      SingleIsZero(n - 1 - k);
    }
  }

  /** What the lowest bits of a table entry are: the term of an index in eight steps at once. */
  function Term(p: Params, x: nat): (t: Bits)
    requires ValidParams(p)
    ensures |t| == p.width
  {
    var t := FeedAll(p, Zeros(p.width), ByteBits(p, x % 256));
    if p.refin then Reverse(t) else t
  }

  predicate IsEntry(p: Params, x: nat, w: Word)
    requires ValidParams(p)
  {
    w[..p.width] == Term(p, x) && forall i :: p.width <= i < 64 ==> !w[i]
  }

  /** One step of the table generation on a word whose high bits are of no concern. */
  lemma WordStep(p: Params, x: Word, x': Word)
    requires ValidParams(p)
    requires x' == if x[p.width - 1] then Xor(Shl(x, 1), p.polynom) else Shl(x, 1)
    ensures x'[..p.width] == Feed(p, x[..p.width], false)
  {
  }

  lemma {:induction false} FeedAllSnoc(p: Params, r: Bits, bs: Bits, b: bool)
    requires ValidParams(p) && |r| == p.width
    ensures FeedAll(p, r, bs + [b]) == Feed(p, FeedAll(p, r, bs), b)
    decreases |bs|
  {
    if bs == [] {
      assert (bs + [b])[1..] == [];
    } else {
      assert (bs + [b])[1..] == bs[1..] + [b];
      FeedAllSnoc(p, Feed(p, r, bs[0]), bs[1..], b);
    }
  }

  /** The top byte of the shifted index, highest bit first, is the byte in feeding order. */
  lemma IndexBits(p: Params, x: nat, w: Word)
    requires ValidParams(p) && x < 256
    requires w == Shl(if p.refin then Reflected(ByteWord(x), 8) else ByteWord(x), p.width - 8)
    ensures TopBits(w[..p.width], 8) == ByteBits(p, x)
    ensures forall i :: 0 <= i < p.width - 8 ==> !w[i]
  {
  }

  method DivisionStep(p: Params, x: Word) returns (crc: Word)
    requires ValidParams(p)
    ensures crc[..p.width] == Feed(p, x[..p.width], false)
  {
    var bit := And(x, Single(p.width - 1));
    assert bit[p.width - 1] == x[p.width - 1];
    assert !x[p.width - 1] ==> bit == ZERO;
    crc := Shl(x, 1);
    if bit != ZERO {
      crc := Xor(crc, p.polynom);
    }
    WordStep(p, x, crc);
  }

  method EightSteps(p: Params, x: Word) returns (crc: Word)
    requires ValidParams(p)
    ensures crc[..p.width] == FeedAll(p, x[..p.width], Zeros(8))
  {
    hide Feed;
    crc := x;
    for j := 0 to 8
      invariant crc[..p.width] == FeedAll(p, x[..p.width], Zeros(j))
    {
      crc := DivisionStep(p, crc);
      FeedAllSnoc(p, x[..p.width], Zeros(j), false);
      assert Zeros(j) + [false] == Zeros(j + 1);
    }
  }

  /** The end of an entry: mirror it if configured, and clear what lies above the width. */
  method FinishEntry(p: Params, x: Word) returns (crc: Word)
    requires ValidParams(p)
    ensures crc[..p.width] == if p.refin then Reverse(x[..p.width]) else x[..p.width]
    ensures forall i :: p.width <= i < 64 ==> !crc[i]
  {
    crc := x;
    if p.refin {
      crc := Reflect(crc, p.width);
      assert crc[..p.width] == Reverse(x[..p.width]);
    }
    ghost var unmasked := crc;
    crc := And(crc, LowMask(p.width));
    assert crc[..p.width] == unmasked[..p.width];
  }

  method TableEntry(p: Params, x: nat) returns (crc: Word)
    requires ValidParams(p) && x < 256
    ensures IsEntry(p, x, crc)
  {
    hide FeedAll, NatBits, ByteBits, Single, Shl, Reverse, TopBits, Reflected;
    crc := ByteWord(x);
    if p.refin {
      crc := Reflect(crc, 8);
    }
    crc := Shl(crc, p.width - 8);
    IndexBits(p, x, crc);
    FeedZeros(p, crc[..p.width]);
    crc := EightSteps(p, crc);
    crc := FinishEntry(p, crc);
  }

  // ----- the computation -----

  /** Word crc stands for register r: directly, or mirrored when input is reflected. */
  predicate Represents(p: Params, crc: Word, r: Bits)
    requires ValidParams(p) && |r| == p.width
  {
    if p.refin then crc[..p.width] == Reverse(r) && (forall i :: p.width <= i < 64 ==> !crc[i])
    else crc[..p.width] == r
  }

  /** The table index for the next byte. */
  function Index(p: Params, crc: Word, x: byte): Word
    requires ValidParams(p)
  {
    if p.refin then Xor(And(crc, LowMask(8)), ByteWord(x))
    else Xor(And(Shr(crc, p.width - 8), LowMask(8)), ByteWord(x))
  }

  lemma IndexWord(p: Params, crc: Word, r: Bits, x: byte)
    requires ValidParams(p) && |r| == p.width && Represents(p, crc, r)
    ensures forall i :: 8 <= i < 64 ==> !Index(p, crc, x)[i]
    ensures forall i :: 0 <= i < 8 ==>
              Index(p, crc, x)[i] == (r[if p.refin then p.width - 1 - i else p.width - 8 + i] != NatBits(x, 8)[i])
  {
    hide NatBits;
    forall i | 0 <= i < 8
      ensures Index(p, crc, x)[i] == (r[if p.refin then p.width - 1 - i else p.width - 8 + i] != NatBits(x, 8)[i])
    {
      var k := if p.refin then i else p.width - 8 + i;
      assert crc[k] == crc[..p.width][k];
    }
  }

  lemma IndexIsByte(p: Params, crc: Word, r: Bits, x: byte)
    requires ValidParams(p) && |r| == p.width && Represents(p, crc, r)
    ensures
      var n := ToNat(Index(p, crc, x));
      n < 256 && ByteBits(p, n) == Sum(TopBits(r, 8), ByteBits(p, x))
  {
    hide NatBits, ToNat, Index, Represents;
    var w := Index(p, crc, x);
    IndexWord(p, crc, r, x);
    ByteIndex(w);
    var n := ToNat(w);
    assert forall i :: 0 <= i < 8 ==> NatBits(n, 8)[i] == w[i];
  }

  /** What the look-up does to the word, in terms of the registers that the words stand for. */
  lemma ShiftAndAdd(p: Params, crc: Word, r: Bits, entry: Word, t: Bits, crc': Word)
    requires ValidParams(p) && |r| == |t| == p.width && Represents(p, crc, r)
    requires entry[..p.width] == if p.refin then Reverse(t) else t
    requires forall i :: p.width <= i < 64 ==> !entry[i]
    requires crc' == Xor(if p.refin then Shr(crc, 8) else Shl(crc, 8), entry)
    ensures Represents(p, crc', Sum(Shifted(r, 8), t))
  {
    var w := p.width;
    var r' := Sum(Shifted(r, 8), t);
    var expected := if p.refin then Reverse(r') else r';
    forall i | 0 <= i < w
      ensures crc'[..w][i] == expected[i]
    {
      assert entry[i] == entry[..w][i];
      if p.refin {
        assert i + 8 < w ==> crc[i + 8] == crc[..w][i + 8];
      } else {
        assert i >= 8 ==> crc[i - 8] == crc[..w][i - 8];
      }
    }
    assert crc'[..w] == expected;
  }

  /** One table look-up does eight steps of the division. */
  lemma LookupStep(p: Params, crc: Word, r: Bits, x: byte, entry: Word, crc': Word)
    requires ValidParams(p) && |r| == p.width && Represents(p, crc, r)
    requires ToNat(Index(p, crc, x)) < 256 && IsEntry(p, ToNat(Index(p, crc, x)), entry)
    requires crc' == Xor(if p.refin then Shr(crc, 8) else Shl(crc, 8), entry)
    ensures Represents(p, crc', FeedAll(p, r, ByteBits(p, x)))
  {
    hide FeedAll, ToNat, NatBits, Represents, Index, ByteBits, Sum, Shifted, Xor, Shl, Shr, TopBits, Reverse;
    var n := ToNat(Index(p, crc, x));
    IndexIsByte(p, crc, r, x);
    FeedEight(p, r, ByteBits(p, x));
    ShiftAndAdd(p, crc, r, entry, FeedAll(p, Zeros(p.width), ByteBits(p, n)), crc');
  }

  class CrcOptions {
    const params: Params
    var isTableGenerated: bool
    const table: array<Word>

    ghost predicate Valid()
      reads this, table
    {
      && ValidParams(params) && table.Length == 256
      && (isTableGenerated ==> forall x :: 0 <= x < 256 ==> IsEntry(params, x, table[x]))
    }

    constructor (params: Params)
      requires ValidParams(params)
      ensures Valid() && this.params == params && !isTableGenerated && fresh(table)
    {
      this.params := params;
      isTableGenerated := false;
      table := new Word[256](_ => ZERO);
    }

    method GenerateTable()
      requires Valid()
      modifies this`isTableGenerated, table
      ensures Valid() && isTableGenerated
    {
      hide IsEntry;
      for i := 0 to 256
        invariant forall x :: 0 <= x < i ==> IsEntry(params, x, table[x])
      {
        var entry := TableEntry(params, i);
        table[i] := entry;
      }
      isTableGenerated := true;
    }

    method LookupByte(crc: Word, ghost r: Bits, x: byte) returns (crc': Word)
      requires Valid() && isTableGenerated && |r| == params.width && Represents(params, crc, r)
      ensures Represents(params, crc', FeedAll(params, r, ByteBits(params, x)))
    {
      hide FeedAll, ToNat, NatBits, IsEntry, Represents;
      IndexIsByte(params, crc, r, x);
      var entry: Word;
      if !params.refin {
        entry := table[ToNat(Xor(And(Shr(crc, params.width - 8), LowMask(8)), ByteWord(x)))];
        crc' := Xor(Shl(crc, 8), entry);
      } else {
        entry := table[ToNat(Xor(And(crc, LowMask(8)), ByteWord(x)))];
        crc' := Xor(Shr(crc, 8), entry);
      }
      LookupStep(params, crc, r, x, entry, crc');
    }

    /** The remainder of the division, in the representation of the look-up loop. */
    method Remainder(data: seq<byte>) returns (crc: Word)
      requires Valid() && isTableGenerated
      ensures Represents(params, crc, Divide(params, params.initial[..params.width], data))
    {
      hide FeedAll, ToNat, NatBits, IsEntry;
      ghost var r := params.initial[..params.width];
      crc := params.initial;
      if params.refin {
        crc := Reflect(crc, params.width);
        assert crc[..params.width] == Reverse(r);
      }
      for i := 0 to |data|
        invariant Represents(params, crc, Divide(params, r, data[..i]))
      {
        assert data[..i + 1][..i] == data[..i];
        crc := LookupByte(crc, Divide(params, r, data[..i]), data[i]);
      }
      assert data[..|data|] == data;
    }

    /** The table-driven check code is the check code by definition, with or without a ready table. */
    method Calculate(data: seq<byte>) returns (crc: Word)
      requires Valid()
      modifies this`isTableGenerated, table
      ensures Valid() && isTableGenerated
      ensures crc[..params.width] == Reference(params, data)
      ensures forall i :: params.width <= i < 64 ==> !crc[i]
    {
      hide Divide, IsEntry;
      if !isTableGenerated {
        GenerateTable();
      }
      crc := Remainder(data);
      ghost var before, rem := crc, Divide(params, params.initial[..params.width], data);
      if params.refin != params.refout {
        crc := Reflect(crc, params.width);
      }
      OutputForm(params, before, rem, crc);
      crc := Xor(crc, params.finalXor);
      crc := And(crc, LowMask(params.width));
    }
  }

  lemma OutputForm(p: Params, before: Word, rem: Bits, crc: Word)
    requires ValidParams(p) && |rem| == p.width && Represents(p, before, rem)
    requires crc == if p.refin != p.refout then Reflected(before, p.width) else before
    ensures crc[..p.width] == if p.refout then Reverse(rem) else rem
  {
    assert forall i :: 0 <= i < p.width ==> before[i] == before[..p.width][i];
    if p.refin != p.refout {
      assert crc[..p.width] == Reverse(before[..p.width]);
      assert Reverse(Reverse(rem)) == rem;
    }
  }
}

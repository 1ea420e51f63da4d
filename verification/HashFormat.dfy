/**
  What the block sequences of module Hashing are, byte by byte: nothing of the message is lost, added
  or moved before it reaches a compression function, and the counters and the length field hold the
  number of its bytes and bits.
 */
module HashFormat {
  import opened Packets
  import opened Hashing
  import W = WireFormat

  // ----- numbers -----

  function Power256(n: nat): nat {
    if n == 0 then 1 else 256 * Power256(n - 1)
  }

  lemma {:induction false} LeValue(v: nat, n: nat)
    requires v < Power256(n)
    ensures W.LittleValue(Le(v, n)) == v
  {
    if n > 0 {
      assert v / 256 < Power256(n - 1);
      LeValue(v / 256, n - 1);
      assert Le(v, n)[1..] == Le(v / 256, n - 1);
    }
  }

  lemma {:induction false} ValueOfJoined(a: seq<byte>, b: seq<byte>)
    ensures W.LittleValue(a + b) == W.LittleValue(a) + Power256(|a|) * W.LittleValue(b)
  {
    if a == [] {
      assert a + b == b;
    } else {
      ValueOfJoined(a[1..], b);
      assert (a + b)[1..] == a[1..] + b;
      Distribute(256, Power256(|a| - 1), W.LittleValue(b));
    }
  }

  lemma Distribute(a: nat, b: nat, c: nat)
    ensures a * (b * c) == a * b * c
  {
  }

  // ----- MD4 -----

  /** The length field is one number of eight bytes, lowest first: the length in bits modulo 2^64. */
  lemma LengthFieldValue(n: nat)
    ensures W.LittleValue(LengthField(n)) == 8 * n % 0x1_0000_0000_0000_0000
  {
    hide Le, W.LittleValue;
    var bits := 8 * n % TWO_64;
    assert Power256(4) == TWO_32;
    var low, high := bits % TWO_32, bits / TWO_32;
    assert bits == high * TWO_32 + low && high < TWO_32;
    LeValue(low, 4);
    LeValue(high, 4);
    ValueOfJoined(Le(low, 4), Le(high, 4));
  }

  /** The padded message: the message, a one bit, the fewest zeros that reach whole blocks, its length. */
  lemma PaddedFormat(m: seq<byte>)
    ensures
      var b := Padded(m);
      && |b| % 64 == 0 && |m| + 9 <= |b| < |m| + 9 + 64
      && b[..|m|] == m && b[|m|] == 0x80 && (forall i :: |m| < i < |b| - 8 ==> b[i] == 0)
      && W.LittleValue(b[|b| - 8..]) == 8 * |m| % 0x1_0000_0000_0000_0000
  {
    hide LengthField, W.LittleValue;
    LengthFieldValue(|m|);
    var b := Padded(m);
    assert b[|b| - 8..] == LengthField(|m|);
  }

  /** The blocks are the bytes, cut into pieces of 64. */
  lemma {:induction false} BlocksFormat(b: seq<byte>)
    requires |b| % 64 == 0
    ensures Flatten(Blocks(b)) == b && forall k :: 0 <= k < |Blocks(b)| ==> |Blocks(b)[k]| == 64
    decreases |b|
  {
    if b != [] {
      var front, last := b[..|b| - 64], b[|b| - 64..];
      BlocksFormat(front);
      var bs := Blocks(b);
      assert bs == Blocks(front) + [last] && bs[..|bs| - 1] == Blocks(front);
      assert b == front + last;
    }
  }

  // ----- BLAKE2b -----

  function BlocksOf(cs: seq<Call>): (bs: seq<seq<byte>>)
    ensures |bs| == |cs|
  {
    seq(|cs|, i requires 0 <= i < |cs| => cs[i].block)
  }

  lemma FlattenAppend(bs: seq<seq<byte>>, b: seq<byte>)
    ensures Flatten(bs + [b]) == Flatten(bs) + b
  {
    assert (bs + [b])[..|bs|] == bs;
  }

  lemma {:induction false} FullCallsFormat(input: seq<byte>, n: nat)
    requires n * BLOCK <= |input|
    ensures Flatten(BlocksOf(FullCalls(input, n))) == input[..n * BLOCK]
  {
    if n > 0 {
      FullCallsFormat(input, n - 1);
      FullCallsSnoc(input, n - 1);
      var before, block := BlocksOf(FullCalls(input, n - 1)), input[(n - 1) * BLOCK..n * BLOCK];
      assert BlocksOf(FullCalls(input, n)) == before + [block];
      FlattenAppend(before, block);
    }
  }

  /** The blocks of all calls are the input, filled up with zeros to whole blocks, and at least one block. */
  lemma CallsFormat(input: seq<byte>)
    ensures
      var all := Flatten(BlocksOf(AllCalls(input)));
      && |all| == BLOCK * |AllCalls(input)| && all[..|input|] == input
      && (forall i :: |input| <= i < |all| ==> all[i] == 0)
      && (|all| < |input| + BLOCK || (input == [] && |all| == BLOCK))
  {
    hide FullCalls, Flatten;
    BlockCountFits(input);
    var n := BlockCount(input) - 1;
    var last := BlockOf(input, n);
    FullCallsFormat(input, n);
    assert BlocksOf(AllCalls(input)) == BlocksOf(FullCalls(input, n)) + [last];
    FlattenAppend(BlocksOf(FullCalls(input, n)), last);
    var all := Flatten(BlocksOf(AllCalls(input)));
    assert all == input[..n * BLOCK] + last;
    assert last[..|input| - n * BLOCK] == input[n * BLOCK..];
    assert input == input[..n * BLOCK] + input[n * BLOCK..];
  }

  lemma TwoWords(count: nat)
    ensures count / TWO_64 % TWO_64 * TWO_64 + count % TWO_64 == count % (TWO_64 * TWO_64)
  {
    var q := count / TWO_64;
    var k, r := q / TWO_64, q % TWO_64 * TWO_64 + count % TWO_64;
    assert q == k * TWO_64 + q % TWO_64;
    assert count == q * TWO_64 + count % TWO_64;
    assert count == k * (TWO_64 * TWO_64) + r;
    ModUnique(count, TWO_64 * TWO_64, k, r);
  }

  /** Each call is told how much of the input it and those before it cover, and the last one that it is the last. */
  lemma CallsCount(input: seq<byte>, i: nat)
    requires i < |AllCalls(input)|
    ensures
      var c, covered := AllCalls(input)[i], if BLOCK * (i + 1) <= |input| then BLOCK * (i + 1) else |input|;
      && c.t1 * TWO_64 + c.t0 == covered % (TWO_64 * TWO_64)
      && (c.last <==> i == |AllCalls(input)| - 1)
  {
    BlockCountFits(input);
    var n := BlockCount(input) - 1;
    if i < n {
      BlockInside(input, n, i);
      CountOfCall(BlockOf(input, i), BLOCK * (i + 1), false);
    } else {
      CountOfCall(BlockOf(input, n), |input|, true);
    }
  }

  lemma BlockInside(input: seq<byte>, n: nat, i: nat)
    requires i < n && n * BLOCK <= |input|
    ensures BLOCK * (i + 1) <= |input| && i * BLOCK <= |input| && FullCalls(input, n)[i] == CallAt(BlockOf(input, i), BLOCK * (i + 1), false)
  {
  }

  lemma CountOfCall(block: seq<byte>, count: nat, last: bool)
    ensures
      var c := CallAt(block, count, last);
      c.t1 * TWO_64 + c.t0 == count % (TWO_64 * TWO_64) && c.last == last
  {
    TwoWords(count);
  }

  /** A key takes one block of its own, filled up with zeros, in front of the message. */
  lemma KeyFormat(key: seq<byte>, message: seq<byte>)
    requires |key| <= 64
    ensures
      var b, n := Input(key, message), if key == [] then 0 else 128;
      && |b| == n + |message| && b[n..] == message && b[..|key|] == key
      && forall i :: |key| <= i < n ==> b[i] == 0
  {
  }
}

/**
  The streaming side of the two hash functions behind the safety code.  The compression functions
  stay uninterpreted: what they are given, block by block, is recorded and compared with the block
  sequence of RFC 7693 (BLAKE2b) and RFC 1320 (MD4).
 */
module Hashing {
  import opened Packets

  function ZeroBytes(n: nat): (b: seq<byte>)
    ensures |b| == n
  {
    seq(n, _ => 0)
  }

  // ----- BLAKE2b -----

  const BLOCK: nat := 128
  const TWO_64: nat := 0x1_0000_0000_0000_0000

  /** One call of the compression function: block, byte counter in two words, flag of the last block. */
  datatype Call = Call(block: seq<byte>, t0: nat, t1: nat, last: bool)

  /** The call for a counter value, which is kept modulo 2^128. */
  function CallAt(block: seq<byte>, count: nat, last: bool): Call {
    Call(block, count % TWO_64, count / TWO_64 % TWO_64, last)
  }

  function Pad(b: seq<byte>): (p: seq<byte>)
    requires |b| <= BLOCK
    ensures |p| == BLOCK
  {
    b + ZeroBytes(BLOCK - |b|)
  }

  /** Section 3.3: a key takes the first block, padded with zeros. */
  function Input(key: seq<byte>, message: seq<byte>): seq<byte>
    requires |key| <= 64
  {
    if key == [] then message else Pad(key) + message
  }

  /** Section 3.3: the number of blocks; an empty input is one block of zeros. */
  function BlockCount(input: seq<byte>): nat {
    if input == [] then 1 else (|input| + BLOCK - 1) / BLOCK
  }

  function BlockOf(input: seq<byte>, i: nat): (b: seq<byte>)
    requires i * BLOCK <= |input|
    ensures |b| == BLOCK
  {
    if (i + 1) * BLOCK <= |input| then input[i * BLOCK..(i + 1) * BLOCK] else Pad(input[i * BLOCK..])
  }

  /** The first n blocks, each with the number of bytes consumed up to its end. */
  function FullCalls(input: seq<byte>, n: nat): (cs: seq<Call>)
    requires n * BLOCK <= |input|
    ensures |cs| == n
  {
    seq(n, i requires 0 <= i < n => CallAt(BlockOf(input, i), (i + 1) * BLOCK, false))
  }

  lemma BlockCountFits(input: seq<byte>)
    ensures BlockCount(input) >= 1 && (BlockCount(input) - 1) * BLOCK <= |input| <= BlockCount(input) * BLOCK
    ensures input != [] ==> (BlockCount(input) - 1) * BLOCK < |input|
  {
  }

  /** Section 3.3: what the compression function is given. */
  function AllCalls(input: seq<byte>): seq<Call> {
    BlockCountFits(input);
    var n := BlockCount(input) - 1;
    FullCalls(input, n) + [CallAt(BlockOf(input, n), |input|, true)]
  }

  lemma FullCallsPrefix(input: seq<byte>, more: seq<byte>, n: nat)
    requires n * BLOCK <= |input|
    ensures FullCalls(input + more, n) == FullCalls(input, n)
  {
    forall i | 0 <= i < n ensures BlockOf(input + more, i) == BlockOf(input, i) {
      assert (i + 1) * BLOCK <= n * BLOCK;
    }
  }

  lemma FullCallsSnoc(input: seq<byte>, n: nat)
    requires (n + 1) * BLOCK <= |input|
    ensures FullCalls(input, n + 1) == FullCalls(input, n) + [CallAt(input[n * BLOCK..(n + 1) * BLOCK], (n + 1) * BLOCK, false)]
  {
  }

  lemma CounterStep(t0: nat, t1: nat, count: nat, c: nat)
    requires t0 == count % TWO_64 && t1 == count / TWO_64 % TWO_64 && c <= BLOCK
    ensures
      var s := (t0 + c) % TWO_64;
      && s == (count + c) % TWO_64
      && (if s < c then (t1 + 1) % TWO_64 else t1) == (count + c) / TWO_64 % TWO_64
  {
    var q := count / TWO_64;
    assert count == q * TWO_64 + t0;
    if t0 + c >= TWO_64 {
      assert count + c == (q + 1) * TWO_64 + (t0 + c - TWO_64);
      assert (count + c) / TWO_64 == q + 1;
    } else {
      assert count + c == q * TWO_64 + (t0 + c);
      assert (count + c) / TWO_64 == q;
    }
  }

  class Blake2b {
    const b: array<byte>
    var c: nat
    var t0: nat
    var t1: nat
    /** The calls of the compression function so far. */
    var calls: seq<Call>
    /** Everything fed so far, the key block included. */
    ghost var input: seq<byte>

    ghost predicate Valid()
      reads this, b
    {
      && b.Length == BLOCK && c <= BLOCK && |calls| * BLOCK + c == |input|
      && (c == 0 ==> input == [])
      && calls == FullCalls(input, |calls|)
      && b[..c] == input[|calls| * BLOCK..]
      && t0 == |calls| * BLOCK % TWO_64 && t1 == |calls| * BLOCK / TWO_64 % TWO_64
    }

    constructor ()
      ensures Valid() && input == [] && calls == [] && fresh(b)
    {
      b := new byte[BLOCK](_ => 0);
      c, t0, t1, calls, input := 0, 0, 0, [], [];
    }

    method Compress(last: bool)
      requires b.Length == BLOCK
      modifies this`calls
      ensures calls == old(calls) + [Call(b[..], t0, t1, last)]
    {
      calls := calls + [Call(b[..], t0, t1, last)];
    }

    method AddToCounter()
      requires c <= BLOCK
      modifies this`t0, this`t1
      ensures t0 == (old(t0) + c) % TWO_64
      ensures t1 == if t0 < c then (old(t1) + 1) % TWO_64 else old(t1)
    {
      t0 := (t0 + c) % TWO_64;
      if t0 < c {
        t1 := (t1 + 1) % TWO_64;
      }
    }

    /** A full buffer goes to the compression function as soon as another byte arrives. */
    method FlushFull()
      requires Valid() && c == BLOCK
      modifies this`calls, this`t0, this`t1, this`c
      ensures b.Length == BLOCK && c == 0 && |calls| * BLOCK == |input| && calls == FullCalls(input, |calls|)
      ensures t0 == |calls| * BLOCK % TWO_64 && t1 == |calls| * BLOCK / TWO_64 % TWO_64
    {
      ghost var n := |calls|;
      CounterStep(t0, t1, n * BLOCK, c);
      FullCallsSnoc(input, n);
      assert b[..] == b[..c] == input[n * BLOCK..(n + 1) * BLOCK];
      AddToCounter();
      Compress(false);
      c := 0;
      assert calls[n] == CallAt(input[n * BLOCK..(n + 1) * BLOCK], (n + 1) * BLOCK, false);
    }

    method UpdateByte(x: byte)
      requires Valid()
      modifies this, b
      ensures Valid() && input == old(input) + [x]
    {
      if c == BLOCK {
        FlushFull();
      }
      FullCallsPrefix(input, [x], |calls|);
      b[c] := x;
      c := c + 1;
      input := input + [x];
    }

    method Update(data: seq<byte>)
      requires Valid()
      modifies this, b
      ensures Valid() && input == old(input) + data
    {
      for i := 0 to |data|
        invariant Valid() && input == old(input) + data[..i]
      {
        UpdateByte(data[i]);
      }
    }

    /** Illegal lengths are refused; a key is fed as a whole block. */
    method Init(outlen: nat, key: seq<byte>) returns (ok: bool)
      requires b.Length == BLOCK
      modifies this, b
      ensures ok == (1 <= outlen <= 64 && |key| <= 64)
      ensures ok ==> Valid() && input == Input(key, [])
    {
      if outlen == 0 || outlen > 64 || |key| > 64 {
        return false;
      }
      c, t0, t1, calls, input := 0, 0, 0, [], [];
      for i := |key| to BLOCK
        invariant forall k :: |key| <= k < i ==> b[k] == 0
        invariant c == 0 && t0 == 0 && t1 == 0 && calls == [] && input == []
      {
        b[i] := 0;
      }
      if |key| > 0 {
        for i := 0 to |key|
          invariant c == i && t0 == 0 && t1 == 0 && calls == [] && b[..i] == key[..i]
          invariant forall k :: |key| <= k < BLOCK ==> b[k] == 0
        {
          b[c] := key[i];
          c := c + 1;
        }
        c := BLOCK;
        input := Pad(key);
        assert b[..] == Pad(key);
      }
      return true;
    }

    method FillUp()
      requires b.Length == BLOCK && c <= BLOCK
      modifies this`c, b
      ensures b[..] == old(b[..c]) + ZeroBytes(BLOCK - old(c))
    {
      ghost var filled := b[..c];
      while c < BLOCK
        invariant |filled| <= c <= BLOCK && b[..c] == filled + ZeroBytes(c - |filled|)
      {
        b[c] := 0;
        c := c + 1;
      }
      assert b[..] == b[..c];
    }

    /** All calls together are those the RFC prescribes for the input. */
    method Final()
      requires Valid()
      modifies this, b
      ensures calls == AllCalls(old(input))
    {
      hide BlockOf, FullCalls, BlockCount;
      ghost var n, filled := |calls|, c;
      CounterStep(t0, t1, n * BLOCK, c);
      AddToCounter();
      FillUp();
      LastBlock(input, n, filled, b[..]);
      Compress(true);
      LastCall(input, n, b[..]);
    }
  }

  lemma LastCall(input: seq<byte>, n: nat, block: seq<byte>)
    requires n * BLOCK <= |input| && n == BlockCount(input) - 1 && block == BlockOf(input, n)
    ensures AllCalls(input) == FullCalls(input, n) + [Call(block, |input| % TWO_64, |input| / TWO_64 % TWO_64, true)]
  {
  }

  lemma LastBlock(input: seq<byte>, n: nat, filled: nat, block: seq<byte>)
    requires n * BLOCK + filled == |input| && filled <= BLOCK && (filled == 0 ==> input == [])
    requires block == input[n * BLOCK..] + ZeroBytes(BLOCK - filled)
    ensures n == BlockCount(input) - 1 && block == BlockOf(input, n)
  {
    BlockCountFits(input);
    if filled == BLOCK {
      assert block == input[n * BLOCK..];
    }
  }

  lemma ExtendInput(key: seq<byte>, chunks: seq<seq<byte>>, i: nat)
    requires |key| <= 64 && i < |chunks|
    ensures Input(key, Flatten(chunks[..i + 1])) == Input(key, Flatten(chunks[..i])) + chunks[i]
  {
    assert chunks[..i + 1][..i] == chunks[..i];
  }

  /** For every way of splitting the message into updates the calls are the same. */
  method HashBlake2b(outlen: nat, key: seq<byte>, chunks: seq<seq<byte>>) returns (ok: bool, calls: seq<Call>)
    ensures ok == (1 <= outlen <= 64 && |key| <= 64)
    ensures ok ==> calls == AllCalls(Input(key, Flatten(chunks)))
  {
    hide AllCalls, FullCalls;
    var ctx := new Blake2b();
    ok := ctx.Init(outlen, key);
    calls := [];
    if ok {
      for i := 0 to |chunks|
        invariant ctx.Valid() && fresh(ctx) && fresh(ctx.b) && ctx.input == Input(key, Flatten(chunks[..i]))
      {
        ExtendInput(key, chunks, i);
        ctx.Update(chunks[i]);
      }
      assert chunks[..|chunks|] == chunks;
      ctx.Final();
      calls := ctx.calls;
    }
  }

  // ----- MD4 -----

  const CHUNK: nat := 64
  const TWO_29: nat := 0x2000_0000
  const TWO_32: nat := 0x1_0000_0000
  const TWO_61: nat := TWO_29 * TWO_32

  /** The 64-byte blocks of a whole number of blocks. */
  function Blocks(b: seq<byte>): (bs: seq<seq<byte>>)
    requires |b| % CHUNK == 0
    ensures |bs| * CHUNK == |b|
    decreases |b|
  {
    if b == [] then [] else Blocks(b[..|b| - CHUNK]) + [b[|b| - CHUNK..]]
  }

  lemma {:induction false} BlocksOfSum(b: seq<byte>, d: seq<byte>)
    requires |b| % CHUNK == 0 && |d| % CHUNK == 0
    ensures Blocks(b + d) == Blocks(b) + Blocks(d)
    decreases |d|
  {
    if d == [] {
      assert b + d == b;
    } else {
      var d', last := d[..|d| - CHUNK], d[|d| - CHUNK..];
      BlocksOfSum(b, d');
      assert (b + d)[..|b + d| - CHUNK] == b + d' && (b + d)[|b + d| - CHUNK..] == last;
    }
  }

  lemma NoBlocks()
    ensures Blocks([]) == []
  {
  }

  lemma OneBlock(b: seq<byte>)
    requires |b| == CHUNK
    ensures Blocks(b) == [b]
  {
    assert b[..0] == [] && b[0..] == b;
  }

  function Le(v: nat, n: nat): (b: seq<byte>)
    ensures |b| == n
  {
    if n == 0 then [] else [v % 256] + Le(v / 256, n - 1)
  }

  /** Section 3.1 of RFC 1320: a one bit and zeros up to 56 bytes modulo 64. */
  function PaddingZeros(n: nat): nat {
    var used := n % CHUNK;
    if used <= 55 then 55 - used else 119 - used
  }

  lemma PaddingFits(n: nat)
    ensures (n + 1 + PaddingZeros(n) + 8) % CHUNK == 0
  {
    var k, used := n / CHUNK, n % CHUNK;
    assert n == CHUNK * k + used;
    ModUnique(n + 1 + PaddingZeros(n) + 8, CHUNK, if used <= 55 then k + 1 else k + 2, 0);
  }

  /** Section 3.2: the length in bits modulo 2^64, as two words, the low-order word first. */
  function LengthField(n: nat): (b: seq<byte>)
    ensures |b| == 8
  {
    var bits := 8 * n % TWO_64;
    Le(bits % TWO_32, 4) + Le(bits / TWO_32, 4)
  }

  function Padded(m: seq<byte>): (p: seq<byte>)
    ensures |p| % CHUNK == 0
  {
    PaddingFits(|m|);
    m + [0x80] + ZeroBytes(PaddingZeros(|m|)) + LengthField(|m|)
  }

  /** The two counter words give the byte count modulo 2^61. */
  predicate Counts(lo: nat, hi: nat, n: nat) {
    lo == n % TWO_29 && hi == n / TWO_29 % TWO_32
  }

  lemma CountsValue(lo: nat, hi: nat, n: nat)
    requires Counts(lo, hi, n)
    ensures hi * TWO_29 + lo == n % TWO_61
  {
    var q := n / TWO_29;
    assert n == q * TWO_29 + lo;
    var k := q / TWO_32;
    assert q == k * TWO_32 + hi;
    assert n == k * TWO_61 + (hi * TWO_29 + lo);
    assert hi * TWO_29 + lo < TWO_61;
    ModUnique(n, TWO_61, k, hi * TWO_29 + lo);
  }

  lemma ModUnique(n: nat, d: nat, k: nat, r: nat)
    requires d > 0 && n == k * d + r && r < d
    ensures n % d == r && n / d == k
  {
    var q, m := n / d, n % d;
    assert n == d * q + m;
    assert (q - k) * d == r - m;
    if q > k {
      Multiple(q - k, d);
    } else if q < k {
      Multiple(k - q, d);
    }
  }

  lemma Multiple(a: nat, d: nat)
    requires a >= 1
    ensures a * d >= d
  {
  }

  lemma ModShift(q: nat, a: nat, d: nat)
    requires d > 0
    ensures (q % d + a) % d == (q + a) % d
  {
    var k, r := q / d, q % d;
    var j, s := (r + a) / d, (r + a) % d;
    assert q + a == k * d + j * d + s;
    assert k * d + j * d == (k + j) * d;
    ModUnique(q + a, d, k + j, s);
  }

  /** One update moves the counter words by the size, carry included. */
  lemma CountsStep(lo: nat, hi: nat, n: nat, size: nat)
    requires Counts(lo, hi, n)
    ensures
      var lo' := (lo + size) % TWO_29;
      var hi' := if lo' < lo then hi + 1 else hi;
      Counts(lo', (hi' + size / TWO_29) % TWO_32, n + size)
  {
    var q, s, r := n / TWO_29, size / TWO_29, size % TWO_29;
    assert n == q * TWO_29 + lo && size == s * TWO_29 + r;
    if lo + r >= TWO_29 {
      assert n + size == (q + s + 1) * TWO_29 + (lo + r - TWO_29);
      ModUnique(n + size, TWO_29, q + s + 1, lo + r - TWO_29);
      ModUnique(lo + size, TWO_29, s + 1, lo + r - TWO_29);
      ModShift(q, s + 1, TWO_32);
    } else {
      assert n + size == (q + s) * TWO_29 + (lo + r);
      ModUnique(n + size, TWO_29, q + s, lo + r);
      ModUnique(lo + size, TWO_29, s, lo + r);
      ModShift(q, s, TWO_32);
    }
  }

  class Md4 {
    const buffer: array<byte>
    var lo: nat
    var hi: nat
    /** The blocks processed so far. */
    var blocks: seq<seq<byte>>
    /** Everything fed so far. */
    ghost var input: seq<byte>

    ghost predicate Valid()
      reads this, buffer
    {
      && buffer.Length == CHUNK && Counts(lo, hi, |input|)
      && blocks == Blocks(Done(input)) && buffer[..|input| % CHUNK] == Left(input)
    }

    constructor ()
      ensures Valid() && input == [] && blocks == [] && fresh(buffer)
    {
      buffer := new byte[CHUNK](_ => 0);
      lo, hi, blocks, input := 0, 0, [], [];
    }

    /** The buffer is completed from the data and processed; the rest of the data is returned. */
    method CompleteBuffer(used: nat, data: seq<byte>) returns (rest: seq<byte>)
      requires buffer.Length == CHUNK && 0 < used < CHUNK && |data| >= CHUNK - used
      modifies this`blocks, buffer
      ensures rest == data[CHUNK - used..]
      ensures blocks == old(blocks) + [old(buffer[..used]) + data[..CHUNK - used]]
    {
      var available := CHUNK - used;
      Copy(used, data[..available]);
      rest := data[available..];
      assert buffer[..] == buffer[..used + available];
      OneBlock(buffer[..]);
      Body(buffer[..]);
    }

    /** Whole blocks are processed from the data itself, what is left goes to the buffer. */
    method Absorb(data: seq<byte>)
      requires buffer.Length == CHUNK
      modifies this`blocks, buffer
      ensures blocks == old(blocks) + Blocks(Done(data)) && buffer[..|data| % CHUNK] == Left(data)
    {
      var n := |data| - |data| % CHUNK;
      assert data[..n] == Done(data) && data[n..] == Left(data);
      hide Blocks, Done, Left;
      if |data| >= CHUNK {
        Body(data[..n]);
        Copy(0, data[n..]);
      } else {
        NoBlocks();
        Copy(0, data);
      }
    }

    method AdvanceCounter(size: nat)
      requires Counts(lo, hi, |input|)
      modifies this`lo, this`hi
      ensures Counts(lo, hi, |input| + size)
    {
      CountsStep(lo, hi, |input|, size);
      var savedLo := lo;
      lo := (savedLo + size) % TWO_29;
      if lo < savedLo {
        hi := hi + 1;
      }
      hi := (hi + size / TWO_29) % TWO_32;
    }

    /** Moves data behind the `used` bytes of the buffer, processing every block that gets full. */
    method Feed(used: nat, data: seq<byte>)
      requires buffer.Length == CHUNK && used == |input| % CHUNK
      requires blocks == Blocks(Done(input)) && buffer[..used] == Left(input)
      modifies this`blocks, buffer
      ensures blocks == Blocks(Done(input + data)) && buffer[..|input + data| % CHUNK] == Left(input + data)
    {
      hide Blocks, Done, Left;
      var rest := data;
      if used > 0 {
        if |data| < CHUNK - used {
          StaysShort(input, data);
          Copy(used, data);
          return;
        }
        rest := CompleteBuffer(used, data);
      }
      Absorb(rest);
      Completed(input, data);
    }

    method Update(data: seq<byte>)
      requires Valid()
      modifies this, buffer
      ensures Valid() && input == old(input) + data
    {
      hide Blocks, Counts, Done, Left;
      UsedFromCounter(lo, hi, |input|);
      var used := lo % CHUNK;
      AdvanceCounter(|data|);
      Feed(used, data);
      input := input + data;
    }

    /** Marker and zeros up to the place of the length; an overfull buffer is processed first. */
    method PadBuffer(used: nat)
      requires buffer.Length == CHUNK && used < CHUNK
      modifies this`blocks, buffer
      ensures
        var l := old(buffer[..used]);
        if used + 9 <= CHUNK then
          blocks == old(blocks) && buffer[..CHUNK - 8] == l + [0x80] + ZeroBytes(CHUNK - used - 9)
        else
          && blocks == old(blocks) + [l + [0x80] + ZeroBytes(CHUNK - used - 1)]
          && buffer[..CHUNK - 8] == ZeroBytes(CHUNK - 8)
    {
      Copy(used, [0x80]);
      var next := used + 1;
      var available := CHUNK - next;
      if available < 8 {
        Copy(next, ZeroBytes(available));
        assert buffer[..] == buffer[..next + available];
        OneBlock(buffer[..]);
        Body(buffer[..]);
        next := 0;
        available := CHUNK;
      }
      Copy(next, ZeroBytes(available - 8));
    }

    /** Two words of length complete the last block. */
    method Seal(low: seq<byte>, high: seq<byte>)
      requires buffer.Length == CHUNK && |low| == |high| == 4
      modifies this`blocks, buffer
      ensures blocks == old(blocks) + [old(buffer[..CHUNK - 8]) + (low + high)]
    {
      hide Blocks;
      ghost var pad := buffer[..CHUNK - 8];
      Copy(CHUNK - 8, low);
      Copy(CHUNK - 4, high);
      assert buffer[..] == buffer[..CHUNK] == pad + (low + high);
      OneBlock(buffer[..]);
      Body(buffer[..]);
    }

    /** The length in bits goes behind the padding as two 32-bit words, low word first. */
    method Final()
      requires Valid()
      modifies this, buffer
      ensures blocks == Blocks(Padded(old(input)))
    {
      hide Blocks, Counts, Done, Left, Le, Padded;
      UsedFromCounter(lo, hi, |input|);
      PaddedBlocks(input, lo, hi);
      PadBuffer(lo % CHUNK);
      lo := lo * 8 % TWO_32;
      Seal(Le(lo, 4), Le(hi, 4));
    }

    /** Processes whole blocks. */
    method Body(data: seq<byte>)
      requires |data| % CHUNK == 0
      modifies this`blocks
      ensures blocks == old(blocks) + Blocks(data)
    {
      for i := 0 to |data| / CHUNK
        invariant blocks == old(blocks) + Blocks(data[..i * CHUNK])
      {
        ghost var next := data[..(i + 1) * CHUNK];
        assert next[..|next| - CHUNK] == data[..i * CHUNK] && next[|next| - CHUNK..] == data[i * CHUNK..(i + 1) * CHUNK];
        blocks := blocks + [data[i * CHUNK..(i + 1) * CHUNK]];
      }
      assert data[..|data| / CHUNK * CHUNK] == data;
    }

    method Copy(offset: nat, data: seq<byte>)
      requires offset + |data| <= buffer.Length
      modifies buffer
      ensures buffer[..offset + |data|] == old(buffer[..offset]) + data
    {
      for i := 0 to |data|
        invariant buffer[..offset + i] == old(buffer[..offset]) + data[..i]
      {
        buffer[offset + i] := data[i];
      }
    }
  }

  /** The part of the input that fills whole blocks, and what is left. */
  function Done(input: seq<byte>): (d: seq<byte>)
    ensures |d| % CHUNK == 0
  {
    input[..|input| - |input| % CHUNK]
  }

  function Left(input: seq<byte>): (l: seq<byte>)
    ensures |l| == |input| % CHUNK
  {
    input[|input| - |input| % CHUNK..]
  }

  lemma StaysShort(input: seq<byte>, data: seq<byte>)
    requires |data| < CHUNK - |input| % CHUNK
    ensures Done(input + data) == Done(input) && Left(input + data) == Left(input) + data
  {
    var u := |input| % CHUNK;
    assert |input + data| % CHUNK == u + |data| by {
      ModUnique(|input + data|, CHUNK, |input| / CHUNK, u + |data|);
    }
  }

  /** Whole blocks in front do not change what is left. */
  lemma SplitBehind(whole: seq<byte>, rest: seq<byte>)
    requires |whole| % CHUNK == 0
    ensures Done(whole + rest) == whole + Done(rest) && Left(whole + rest) == Left(rest)
  {
    var k := |whole| / CHUNK;
    assert |whole| == k * CHUNK;
    ModUnique(|whole + rest|, CHUNK, k + |rest| / CHUNK, |rest| % CHUNK);
  }

  lemma WholeSum(a: seq<byte>, b: seq<byte>)
    requires |a| % CHUNK == 0 && |b| % CHUNK == 0
    ensures |a + b| % CHUNK == 0
  {
    ModUnique(|a + b|, CHUNK, |a| / CHUNK + |b| / CHUNK, 0);
  }

  /** When the buffer overflows: one completed block, then whole blocks of the rest. */
  lemma Completed(input: seq<byte>, data: seq<byte>)
    requires |data| >= CHUNK - |input| % CHUNK || |input| % CHUNK == 0
    ensures
      var u := |input| % CHUNK;
      var rest := if u > 0 then data[CHUNK - u..] else data;
      && Blocks(Done(input + data)) ==
         Blocks(Done(input)) + (if u > 0 then [Left(input) + data[..CHUNK - u]] else []) + Blocks(Done(rest))
      && Left(input + data) == Left(rest)
  {
    hide Blocks;
    var u := |input| % CHUNK;
    if u > 0 {
      var middle, rest := Left(input) + data[..CHUNK - u], data[CHUNK - u..];
      assert input + data == Done(input) + middle + rest;
      hide Done, Left;
      WholeSum(Done(input), middle);
      SplitBehind(Done(input) + middle, rest);
      BlocksOfSum(Done(input) + middle, Done(rest));
      BlocksOfSum(Done(input), middle);
      OneBlock(middle);
    } else {
      assert Done(input) == input;
      SplitBehind(input, data);
      BlocksOfSum(input, Done(data));
      assert Blocks(input) + [] == Blocks(input);
    }
  }

  /** The two words hold the length in bits modulo 2^64. */
  lemma LengthWords(n: nat, lo: nat, hi: nat)
    requires Counts(lo, hi, n)
    ensures LengthField(n) == Le(lo * 8 % TWO_32, 4) + Le(hi, 4)
  {
    hide Le;
    CountsValue(lo, hi, n);
    var r, k := hi * TWO_29 + lo, n / TWO_61;
    assert n == TWO_61 * k + r;
    ModUnique(8 * n, TWO_64, k, 8 * r);
    ModUnique(8 * r, TWO_32, hi, lo * 8);
  }

  /** The tail of the padded message: one block, or two when the length does not fit behind the first. */
  function Tail(l: seq<byte>, length: seq<byte>): (bs: seq<seq<byte>>)
    requires |l| < CHUNK && |length| == 8
    ensures forall k :: 0 <= k < |bs| ==> |bs[k]| == CHUNK
  {
    if |l| + 9 <= CHUNK then [l + [0x80] + ZeroBytes(CHUNK - |l| - 9) + length]
    else [l + [0x80] + ZeroBytes(CHUNK - |l| - 1), ZeroBytes(CHUNK - 8) + length]
  }

  lemma PaddedShape(input: seq<byte>)
    ensures
      var t := Tail(Left(input), LengthField(|input|));
      Padded(input) == Done(input) + if |t| == 1 then t[0] else t[0] + t[1]
  {
    hide LengthField;
    var l := Left(input);
    assert input == Done(input) + l;
    if |l| > 55 {
      assert ZeroBytes(CHUNK - |l| - 1) + ZeroBytes(CHUNK - 8) == ZeroBytes(PaddingZeros(|input|));
    }
  }

  lemma PaddedBlocks(input: seq<byte>, lo: nat, hi: nat)
    requires Counts(lo, hi, |input|)
    ensures Blocks(Padded(input)) == Blocks(Done(input)) + Tail(Left(input), Le(lo * 8 % TWO_32, 4) + Le(hi, 4))
  {
    hide Le, LengthField, Padded, Blocks, Done, Left, Counts;
    LengthWords(|input|, lo, hi);
    PaddedShape(input);
    var t := Tail(Left(input), LengthField(|input|));
    OneBlock(t[0]);
    if |t| == 1 {
      BlocksOfSum(Done(input), t[0]);
    } else {
      OneBlock(t[1]);
      WholeSum(t[0], t[1]);
      BlocksOfSum(t[0], t[1]);
      BlocksOfSum(Done(input), t[0] + t[1]);
    }
  }

  lemma UsedFromCounter(lo: nat, hi: nat, n: nat)
    requires Counts(lo, hi, n)
    ensures lo % CHUNK == n % CHUNK
  {
    var q := n / TWO_29;
    assert n == q * TWO_29 + lo;
    var k := lo / CHUNK;
    assert n == (q * 0x80_0000 + k) * CHUNK + lo % CHUNK;
    ModUnique(n, CHUNK, q * 0x80_0000 + k, lo % CHUNK);
  }

  /** For every way of splitting the message the blocks are those of the padded message. */
  method HashMd4(chunks: seq<seq<byte>>) returns (blocks: seq<seq<byte>>)
    ensures blocks == Blocks(Padded(Flatten(chunks)))
  {
    hide Blocks, Counts, Done, Left, Padded;
    var ctx := new Md4();
    assert Flatten(chunks[..0]) == [];
    for i := 0 to |chunks|
      invariant ctx.Valid() && fresh(ctx) && fresh(ctx.buffer) && ctx.input == Flatten(chunks[..i])
    {
      assert chunks[..i + 1][..i] == chunks[..i];
      ctx.Update(chunks[i]);
    }
    assert chunks[..|chunks|] == chunks;
    ctx.Final();
    blocks := ctx.blocks;
  }
}

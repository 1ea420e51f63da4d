/**
  Encoding and decoding: the PDU of the safety layer with its safety code, the redundancy PDU around
  it with its check code, the messages inside a data PDU, and the PDUs inside a datagram.
 */
module Codec {
  import opened Packets
  import Crc

  type u16 = n: int | 0 <= n < 0x1_0000
  type u32 = n: int | 0 <= n < 0x1_0000_0000

  // ----- little-endian numbers -----

  function Le16(v: u16): (b: seq<byte>)
    ensures |b| == 2
  {
    [v % 0x100, v / 0x100]
  }

  function Le32(v: u32): (b: seq<byte>)
    ensures |b| == 4
  {
    [v % 0x100, v / 0x100 % 0x100, v / 0x1_0000 % 0x100, v / 0x100_0000]
  }

  function FromLe16(b: seq<byte>): (v: u16)
    requires |b| == 2
    ensures Le16(v) == b
  {
    b[0] as int + 0x100 * (b[1] as int)
  }

  function FromLe32(b: seq<byte>): u32
    requires |b| == 4
  {
    b[0] as int + 0x100 * (b[1] as int) + 0x1_0000 * (b[2] as int) + 0x100_0000 * (b[3] as int)
  }

  lemma Le32RoundTrip(v: u32)
    ensures FromLe32(Le32(v)) == v
  {
    assert v / 0x1_0000 == v / 0x100 / 0x100;
    assert v / 0x100_0000 == v / 0x1_0000 / 0x100;
  }

  lemma FromLe32RoundTrip(b: seq<byte>)
    requires |b| == 4
    ensures Le32(FromLe32(b)) == b
  {
    var v := FromLe32(b);
    var high := b[1] as int + 0x100 * (b[2] as int) + 0x1_0000 * (b[3] as int);
    var higher := b[2] as int + 0x100 * (b[3] as int);
    assert v == 0x100 * high + b[0] && high == 0x100 * higher + b[1];
    assert v / 0x100 == high && high / 0x100 == higher && v / 0x1_0000 == higher && v / 0x100_0000 == b[3];
  }

  lemma Le16RoundTrip(v: u16)
    ensures FromLe16(Le16(v)) == v
  {
  }

  // ----- the PDU of the safety layer -----

  datatype RawPacket = RawPacket(
    length: u16, kind: u16, receiver: u32, sender: u32, sn: u32, cs: u32, ts: u32, cts: u32, data: seq<byte>)

  datatype Decoded = Decoded(packet: RawPacket, safetyCode: seq<byte>, intact: bool)

  /** The configured hash; it always fills sixteen bytes, of which 8 * hashLength are used. */
  datatype HashContext = HashContext(hashLength: nat, hash: seq<byte> -> seq<byte>)

  ghost predicate ValidContext(ctx: HashContext) {
    ctx.hashLength <= 2 && forall d :: |ctx.hash(d)| == 16
  }

  const HEADER: nat := 28

  function CodeLength(ctx: HashContext): nat {
    8 * ctx.hashLength
  }

  function DataLength(length: u16, ctx: HashContext): nat {
    if length >= HEADER + CodeLength(ctx) then length - HEADER - CodeLength(ctx) else 0
  }

  /** As the factory makes it: the length field counts header, data and safety code. */
  predicate WellSized(p: RawPacket, ctx: HashContext) {
    p.length == HEADER + |p.data| + CodeLength(ctx)
  }

  /** The packet with the data that its length field asks for. */
  function Cut(p: RawPacket, ctx: HashContext): (q: RawPacket)
    requires |p.data| >= DataLength(p.length, ctx)
    ensures |p.data| == DataLength(p.length, ctx) ==> q == p
  {
    p.(data := p.data[..DataLength(p.length, ctx)])
  }

  function Header(p: RawPacket): (b: seq<byte>)
    ensures |b| == HEADER
  {
    Le16(p.length) + Le16(p.kind) + Le32(p.receiver) + Le32(p.sender) +
    Le32(p.sn) + Le32(p.cs) + Le32(p.ts) + Le32(p.cts)
  }

  function SafetyCode(covered: seq<byte>, ctx: HashContext): (b: seq<byte>)
    requires |ctx.hash(covered)| == 16 && ctx.hashLength <= 2
    ensures |b| == CodeLength(ctx)
  {
    ctx.hash(covered)[..CodeLength(ctx)]
  }

  ghost function Encode(p: RawPacket, ctx: HashContext): (b: seq<byte>)
    requires ValidContext(ctx) && WellSized(p, ctx)
    ensures |b| == p.length
  {
    Header(p) + p.data + SafetyCode(Header(p) + p.data, ctx)
  }

  /** What the decoder reads must lie inside the bytes it was given. */
  predicate Readable(b: seq<byte>, ctx: HashContext) {
    |b| >= HEADER + CodeLength(ctx) && CodeLength(ctx) <= FromLe16(b[..2]) <= |b|
  }

  /** The length field leaves room for header and safety code. */
  predicate Proper(b: seq<byte>, ctx: HashContext) {
    Readable(b, ctx) && FromLe16(b[..2]) >= HEADER + CodeLength(ctx)
  }

  ghost function Decode(b: seq<byte>, ctx: HashContext): Decoded
    requires ValidContext(ctx) && Readable(b, ctx)
  {
    var length := FromLe16(b[..2]);
    var n := HEADER + DataLength(length, ctx);
    var code := b[n..n + CodeLength(ctx)];
    Decoded(
      RawPacket(length, FromLe16(b[2..4]), FromLe32(b[4..8]), FromLe32(b[8..12]), FromLe32(b[12..16]),
                FromLe32(b[16..20]), FromLe32(b[20..24]), FromLe32(b[24..28]), b[HEADER..n]),
      code, code == SafetyCode(b[..length - CodeLength(ctx)], ctx))
  }

  lemma HeaderFields(p: RawPacket)
    ensures
      var b := Header(p);
      && b[..2] == Le16(p.length) && b[2..4] == Le16(p.kind)
      && b[4..8] == Le32(p.receiver) && b[8..12] == Le32(p.sender)
      && b[12..16] == Le32(p.sn) && b[16..20] == Le32(p.cs)
      && b[20..24] == Le32(p.ts) && b[24..28] == Le32(p.cts)
  {
  }

  /** Decoding undoes encoding, whatever follows, and finds the safety code correct. */
  lemma DecodeEncode(p: RawPacket, ctx: HashContext, rest: seq<byte>)
    requires ValidContext(ctx) && WellSized(p, ctx)
    ensures
      var b := Encode(p, ctx) + rest;
      Proper(b, ctx) && Decode(b, ctx).packet == p && Decode(b, ctx).intact
  {
    hide Le16, Le32, FromLe32, Header;
    var h, b := Header(p), Encode(p, ctx) + rest;
    var n := HEADER + |p.data|;
    HeaderFields(p);
    assert forall i, j :: 0 <= i <= j <= HEADER ==> b[i..j] == h[i..j];
    assert b[..2] == h[..2];
    Le16RoundTrip(p.length);
    Le16RoundTrip(p.kind);
    Le32RoundTrip(p.receiver);
    Le32RoundTrip(p.sender);
    Le32RoundTrip(p.sn);
    Le32RoundTrip(p.cs);
    Le32RoundTrip(p.ts);
    Le32RoundTrip(p.cts);
    assert b[..n] == h + p.data && b[HEADER..n] == p.data;
    assert b[n..n + CodeLength(ctx)] == SafetyCode(h + p.data, ctx);
  }

  lemma HeaderOfDecoded(b: seq<byte>, ctx: HashContext)
    requires ValidContext(ctx) && Readable(b, ctx)
    ensures Header(Decode(b, ctx).packet) == b[..HEADER]
  {
    hide Le16, Le32, FromLe32;
    FromLe32RoundTrip(b[4..8]);
    FromLe32RoundTrip(b[8..12]);
    FromLe32RoundTrip(b[12..16]);
    FromLe32RoundTrip(b[16..20]);
    FromLe32RoundTrip(b[20..24]);
    FromLe32RoundTrip(b[24..28]);
    assert b[..HEADER] == b[..2] + b[2..4] + b[4..8] + b[8..12] + b[12..16] + b[16..20] + b[20..24] + b[24..28];
  }

  /**
    Delivery encodes a decoded PDU again.  That keeps its fields and its data and makes its safety
    code correct; it gives back the very bytes received if and only if their code was correct.
   */
  lemma ReencodeDecoded(b: seq<byte>, ctx: HashContext)
    requires ValidContext(ctx) && Proper(b, ctx)
    ensures
      var d := Decode(b, ctx);
      && WellSized(d.packet, ctx)
      && var again := Encode(d.packet, ctx);
         && Proper(again, ctx) && Decode(again, ctx).packet == d.packet && Decode(again, ctx).intact
         && (again == b[..d.packet.length] <==> d.intact)
  {
    hide Header, SafetyCode, FromLe32;
    var d := Decode(b, ctx);
    var n := HEADER + |d.packet.data|;
    HeaderOfDecoded(b, ctx);
    var again := Encode(d.packet, ctx);
    DecodeEncode(d.packet, ctx, []);
    assert again + [] == again;
    assert b[..HEADER] + d.packet.data == b[..n];
    assert again == b[..n] + SafetyCode(b[..n], ctx);
    assert b[..d.packet.length] == b[..n] + d.safetyCode;
    assert again[n..] == SafetyCode(b[..n], ctx) && b[..d.packet.length][n..] == d.safetyCode;
  }

  // ----- writing into a buffer -----

  /** Copies bytes into a buffer and leaves everything before and behind them alone. */
  method WriteAt(buffer: array<byte>, offset: nat, bs: seq<byte>)
    requires offset + |bs| <= buffer.Length
    modifies buffer
    ensures buffer[..offset + |bs|] == old(buffer[..offset]) + bs
    ensures buffer[offset + |bs|..] == old(buffer[offset + |bs|..])
  {
    for i := 0 to |bs|
      invariant buffer[..offset + i] == old(buffer[..offset]) + bs[..i]
      invariant forall k :: offset + i <= k < buffer.Length ==> buffer[k] == old(buffer[k])
    {
      buffer[offset + i] := bs[i];
    }
  }

  method PackFields(buffer: array<byte>, p: RawPacket)
    requires buffer.Length >= HEADER
    modifies buffer
    ensures buffer[..HEADER] == Header(p)
  {
    hide Le16, Le32;
    WriteAt(buffer, 0, Le16(p.length));
    WriteAt(buffer, 2, Le16(p.kind));
    WriteAt(buffer, 4, Le32(p.receiver));
    WriteAt(buffer, 8, Le32(p.sender));
    WriteAt(buffer, 12, Le32(p.sn));
    WriteAt(buffer, 16, Le32(p.cs));
    WriteAt(buffer, 20, Le32(p.ts));
    WriteAt(buffer, 24, Le32(p.cts));
  }

  /** The outer fields of a redundancy PDU. */
  method WriteOuter(buffer: array<byte>, r: RawRedundancy)
    requires buffer.Length >= 8
    modifies buffer
    ensures buffer[..8] == Le16(r.length) + Le16(r.reserve) + Le32(r.seqNr) && buffer[8..] == old(buffer[8..])
  {
    hide Le16, Le32;
    WriteAt(buffer, 0, Le16(r.length));
    WriteAt(buffer, 2, Le16(r.reserve));
    WriteAt(buffer, 4, Le32(r.seqNr));
  }

  /** The payload behind the outer fields of a buffer that is zero behind them. */
  method FillIn(buffer: array<byte>, r: RawRedundancy, payload: seq<byte>)
    requires buffer.Length == r.length >= 8 + |payload|
    requires buffer[..8] == Le16(r.length) + Le16(r.reserve) + Le32(r.seqNr) && buffer[8..] == seq(r.length - 8, _ => 0)
    modifies buffer
    ensures buffer[..] == Base(r, payload)
  {
    hide Le16, Le32;
    ghost var rest := seq(r.length - 8 - |payload|, _ => 0);
    ghost var n := 8 + |payload|;
    assert buffer[n..] == buffer[8..][|payload|..] == rest;
    WriteAt(buffer, 8, payload);
    assert buffer[..] == buffer[..n] + buffer[n..];
  }

  /** The conversion routines share an error flag that stays set until it is read. */
  class RastaModule {
    var lengthInvalid: bool

    method GetLastError() returns (error: bool)
      modifies this
      ensures error == old(lengthInvalid) && !lengthInvalid
    {
      error := lengthInvalid;
      lengthInvalid := false;
    }

    /** With the flag set, by this call or an earlier one, the result is all zeros. */
    method ModuleToBytes(p: RawPacket, ctx: HashContext) returns (b: seq<byte>)
      requires ValidContext(ctx)
      requires !lengthInvalid && p.length >= HEADER + CodeLength(ctx) ==> |p.data| >= DataLength(p.length, ctx)
      modifies this
      ensures lengthInvalid == (old(lengthInvalid) || p.length < HEADER + CodeLength(ctx))
      ensures if lengthInvalid then b == seq(p.length, _ => 0)
              else WellSized(Cut(p, ctx), ctx) && b == Encode(Cut(p, ctx), ctx)
    {
      var result := new byte[p.length](_ => 0);
      if p.length < HEADER + CodeLength(ctx) {
        lengthInvalid := true;
      }
      if lengthInvalid {
        return result[..];
      }
      PackFields(result, p);
      var len := DataLength(p.length, ctx);
      WriteAt(result, HEADER, p.data[..len]);
      var n := HEADER + len;
      var code := ctx.hash(result[..n]);
      WriteAt(result, n, code[..CodeLength(ctx)]);
      b := result[..];
    }

    /** Too few bytes set the flag and yield no packet. */
    method BytesToPacket(b: seq<byte>, ctx: HashContext) returns (d: Decoded)
      requires ValidContext(ctx) && (|b| >= HEADER + CodeLength(ctx) ==> Readable(b, ctx))
      modifies this
      ensures lengthInvalid == (old(lengthInvalid) || |b| < HEADER + CodeLength(ctx))
      ensures if |b| < HEADER + CodeLength(ctx) then !d.intact && d.packet.length == 0 else d == Decode(b, ctx)
    {
      if |b| < HEADER + CodeLength(ctx) {
        lengthInvalid := true;
        return Decoded(RawPacket(0, 0, 0, 0, 0, 0, 0, 0, []), [], false);
      }
      var length := FromLe16(b[..2]);
      var n := DataLength(length, ctx);
      var data := new byte[n](_ => 0);
      for i := 0 to n
        invariant data[..i] == b[HEADER..HEADER + i] && lengthInvalid == old(lengthInvalid)
      {
        data[i] := b[HEADER + i];
      }
      assert data[..n] == data[..];
      var code := ctx.hash(b[..length - CodeLength(ctx)])[..CodeLength(ctx)];
      var received := b[HEADER + n..HEADER + n + CodeLength(ctx)];
      d := Decoded(
        RawPacket(length, FromLe16(b[2..4]), FromLe32(b[4..8]), FromLe32(b[8..12]), FromLe32(b[12..16]),
                  FromLe32(b[16..20]), FromLe32(b[20..24]), FromLe32(b[24..28]), data[..]),
        received, code == received);
    }

    /** The four-byte form of a computed check code, cut to its width. */
    method CodeBytes(data: seq<byte>, options: Crc.CrcOptions) returns (b: seq<byte>)
      requires options.Valid() && ValidCrc(options.params)
      modifies options`isTableGenerated, options.table
      ensures options.Valid() && b == CheckCode(options.params, data)
    {
      var word := options.Calculate(data);
      Crc.ToNatOfLow(word, options.params.width);
      b := Le32(Crc.ToNat(word) % 0x1_0000_0000)[..CrcLength(options.params)];
    }

    /** With the flag set the frame around the inner PDU is complete, but the inner PDU is all zeros. */
    method RedundancyToBytes(r: RawRedundancy, options: Crc.CrcOptions, ctx: HashContext) returns (b: seq<byte>)
      requires options.Valid() && ValidCrc(options.params) && ValidContext(ctx)
      requires !lengthInvalid && r.inner.length >= HEADER + CodeLength(ctx) ==>
                 |r.inner.data| >= DataLength(r.inner.length, ctx)
      requires r.length >= 8 + r.inner.length + CrcLength(options.params)
      modifies this, options`isTableGenerated, options.table
      ensures options.Valid()
      ensures lengthInvalid == (old(lengthInvalid) || r.inner.length < HEADER + CodeLength(ctx))
      ensures if lengthInvalid then b == Frame(r, seq(r.inner.length, _ => 0), options.params)
              else WellSized(Cut(r.inner, ctx), ctx) && b == Frame(r, Encode(Cut(r.inner, ctx), ctx), options.params)
    {
      hide Le16, Le32, CheckCode, Encode, Base, Frame;
      var result := new byte[r.length](_ => 0);
      WriteOuter(result, r);
      var inner := ModuleToBytes(r.inner, ctx);
      FillIn(result, r, inner);
      Seal(result, r, inner, options);
      b := result[..];
    }

    /** The check code goes behind the payload. */
    method Seal(buffer: array<byte>, r: RawRedundancy, payload: seq<byte>, options: Crc.CrcOptions)
      requires options.Valid() && ValidCrc(options.params)
      requires r.length >= 8 + |payload| + CrcLength(options.params) && buffer[..] == Base(r, payload)
      modifies buffer, options`isTableGenerated, options.table
      ensures options.Valid() && buffer[..] == Frame(r, payload, options.params)
    {
      hide CheckCode, Base;
      var n, m := r.length - CrcLength(options.params), 8 + |payload|;
      var code := CodeBytes(buffer[..n], options);
      WriteAt(buffer, m, code);
      assert buffer[..] == buffer[..m + |code|] + buffer[m + |code|..];
    }

    /** An inner PDU that is too short sets the flag; the outer fields are read all the same. */
    method BytesToRedundancy(b: seq<byte>, options: Crc.CrcOptions, ctx: HashContext) returns (d: DecodedRedundancy)
      requires options.Valid() && ValidCrc(options.params) && ValidContext(ctx)
      requires |b| >= 8 + CrcLength(options.params)
      requires |b| >= 8 + CrcLength(options.params) + HEADER + CodeLength(ctx) ==> RedundancyReadable(b, options.params, ctx)
      modifies this, options`isTableGenerated, options.table
      ensures options.Valid()
      ensures
        var short := |b| < 8 + CrcLength(options.params) + HEADER + CodeLength(ctx);
        && lengthInvalid == (old(lengthInvalid) || short)
        && if short then !d.inner.intact && OuterFields(b, options.params, d)
           else d == DecodeRedundancy(b, options.params, ctx)
    {
      hide CheckCode, Decode, FromLe32;
      var n := |b| - CrcLength(options.params);
      var inner := BytesToPacket(b[8..n], ctx);
      var code := CodeBytes(b[..n], options);
      d := DecodedRedundancy(
        RawRedundancy(FromLe16(b[..2]), FromLe16(b[2..4]), FromLe32(b[4..8]), inner.packet), inner, code == b[n..]);
    }
  }

  // ----- the redundancy PDU -----

  datatype RawRedundancy = RawRedundancy(length: u16, reserve: u16, seqNr: u32, inner: RawPacket)

  datatype DecodedRedundancy = DecodedRedundancy(pdu: RawRedundancy, inner: Decoded, intact: bool)

  /** The check code goes into four bytes at most. */
  predicate ValidCrc(crc: Crc.Params) {
    crc.width == 16 || crc.width == 32
  }

  function CrcLength(crc: Crc.Params): nat {
    crc.width / 8
  }

  function CheckCode(crc: Crc.Params, covered: seq<byte>): (b: seq<byte>)
    requires ValidCrc(crc)
    ensures |b| == CrcLength(crc)
  {
    Le32(Crc.ToNat(Crc.Reference(crc, covered)) % 0x1_0000_0000)[..CrcLength(crc)]
  }

  /** As the factory makes it. */
  function MakeRedundancy(seqNr: u32, inner: RawPacket, crc: Crc.Params): RawRedundancy
    requires ValidCrc(crc)
  {
    RawRedundancy((8 + inner.length + CrcLength(crc)) % 0x1_0000, 0, seqNr, inner)
  }

  predicate Fits(inner: RawPacket, crc: Crc.Params, ctx: HashContext) {
    WellSized(inner, ctx) && 8 + inner.length + CrcLength(crc) < 0x1_0000
  }

  function Covered(r: RawRedundancy, payload: seq<byte>): (b: seq<byte>)
    ensures |b| == 8 + |payload|
  {
    Le16(r.length) + Le16(r.reserve) + Le32(r.seqNr) + payload
  }

  /** The buffer before the check code is written: zeros behind the payload. */
  function Base(r: RawRedundancy, payload: seq<byte>): (b: seq<byte>)
    requires r.length >= 8 + |payload|
    ensures |b| == r.length
  {
    Covered(r, payload) + seq(r.length - 8 - |payload|, _ => 0)
  }

  /** A payload with the outer fields in front and the check code behind; the code covers all but its width. */
  function Frame(r: RawRedundancy, payload: seq<byte>, crc: Crc.Params): (b: seq<byte>)
    requires ValidCrc(crc) && r.length >= 8 + |payload| + CrcLength(crc)
    ensures |b| == r.length
  {
    var base, n := Base(r, payload), 8 + |payload|;
    base[..n] + CheckCode(crc, base[..r.length - CrcLength(crc)]) + base[n + CrcLength(crc)..]
  }

  ghost function EncodeRedundancy(r: RawRedundancy, crc: Crc.Params, ctx: HashContext): (b: seq<byte>)
    requires ValidContext(ctx) && ValidCrc(crc) && WellSized(r.inner, ctx)
    ensures |b| == 8 + r.inner.length + CrcLength(crc)
  {
    var covered := Covered(r, Encode(r.inner, ctx));
    covered + CheckCode(crc, covered)
  }

  /** With the length that the factory gives it, the frame is the encoding. */
  lemma FrameIsEncoding(r: RawRedundancy, crc: Crc.Params, ctx: HashContext)
    requires ValidContext(ctx) && ValidCrc(crc) && WellSized(r.inner, ctx)
    requires r.length == 8 + r.inner.length + CrcLength(crc)
    ensures Frame(r, Encode(r.inner, ctx), crc) == EncodeRedundancy(r, crc, ctx)
  {
    hide CheckCode, Encode;
    var payload := Encode(r.inner, ctx);
    var base, n := Base(r, payload), 8 + |payload|;
    assert base[..n] == Covered(r, payload) && n == r.length - CrcLength(crc) && base[n + CrcLength(crc)..] == [];
  }

  predicate OuterFields(b: seq<byte>, crc: Crc.Params, d: DecodedRedundancy)
    requires ValidCrc(crc) && |b| >= 8 + CrcLength(crc)
  {
    var n := |b| - CrcLength(crc);
    && d.pdu.length == FromLe16(b[..2]) && d.pdu.reserve == FromLe16(b[2..4]) && d.pdu.seqNr == FromLe32(b[4..8])
    && d.intact == (CheckCode(crc, b[..n]) == b[n..])
  }

  predicate RedundancyReadable(b: seq<byte>, crc: Crc.Params, ctx: HashContext)
    requires ValidCrc(crc)
  {
    |b| >= 8 + CrcLength(crc) && Readable(b[8..|b| - CrcLength(crc)], ctx)
  }

  ghost function DecodeRedundancy(b: seq<byte>, crc: Crc.Params, ctx: HashContext): DecodedRedundancy
    requires ValidContext(ctx) && ValidCrc(crc) && RedundancyReadable(b, crc, ctx)
  {
    var n := |b| - CrcLength(crc);
    var inner := Decode(b[8..n], ctx);
    DecodedRedundancy(
      RawRedundancy(FromLe16(b[..2]), FromLe16(b[2..4]), FromLe32(b[4..8]), inner.packet),
      inner, CheckCode(crc, b[..n]) == b[n..])
  }

  /** Both layers: every outer and inner field and the data come back, and both codes are correct. */
  lemma DecodeEncodeRedundancy(seqNr: u32, inner: RawPacket, crc: Crc.Params, ctx: HashContext)
    requires ValidContext(ctx) && ValidCrc(crc) && Fits(inner, crc, ctx)
    ensures
      var r := MakeRedundancy(seqNr, inner, crc);
      var b := EncodeRedundancy(r, crc, ctx);
      && RedundancyReadable(b, crc, ctx) && FromLe16(b[..2]) == |b|
      && var d := DecodeRedundancy(b, crc, ctx); d.pdu == r && d.inner.packet == inner && d.inner.intact && d.intact
  {
    hide Le16, Le32, FromLe32, CheckCode, Encode, Decode, Covered;
    var r := MakeRedundancy(seqNr, inner, crc);
    var payload := Encode(inner, ctx);
    DecodeEncode(inner, ctx, []);
    assert payload + [] == payload;
    Le16RoundTrip(r.length);
    Le16RoundTrip(r.reserve);
    Le32RoundTrip(seqNr);
    FrameParts(r, payload, CheckCode(crc, Covered(r, payload)));
  }

  /** Where the parts of a frame are found again. */
  lemma FrameParts(r: RawRedundancy, payload: seq<byte>, code: seq<byte>)
    ensures
      var b, n := Covered(r, payload) + code, 8 + |payload|;
      && b[..2] == Le16(r.length) && b[2..4] == Le16(r.reserve) && b[4..8] == Le32(r.seqNr)
      && b[8..n] == payload && b[..n] == Covered(r, payload) && b[n..] == code
  {
    hide Le16, Le32;
    var c := Covered(r, payload);
    assert c[..2] == Le16(r.length) && c[2..4] == Le16(r.reserve) && c[4..8] == Le32(r.seqNr) && c[8..] == payload;
  }

  // ----- messages inside a data PDU -----

  predicate ShortMessages(ms: seq<Message>) {
    forall k :: 0 <= k < |ms| ==> |ms[k]| < 0x1_0000
  }

  /** Every message preceded by its length. */
  function PackMessages(ms: seq<Message>): seq<byte>
    requires ShortMessages(ms)
  {
    if ms == [] then [] else PackMessages(ms[..|ms| - 1]) + Le16(|ms[|ms| - 1]|) + ms[|ms| - 1]
  }

  /** The bytes are a list of messages with their lengths. */
  predicate Packed(b: seq<byte>)
    decreases |b|
  {
    b == [] || (|b| >= 2 && |b| >= 2 + FromLe16(b[..2]) && Packed(b[2 + FromLe16(b[..2])..]))
  }

  function Unpack(b: seq<byte>): seq<Message>
    requires Packed(b)
    decreases |b|
  {
    if b == [] then []
    else
      var n := FromLe16(b[..2]);
      [b[2..2 + n]] + Unpack(b[2 + n..])
  }

  function PackedLength(ms: seq<Message>): nat {
    if ms == [] then 0 else PackedLength(ms[..|ms| - 1]) + |ms[|ms| - 1]| + 2
  }

  lemma {:induction false} PackCons(m: Message, ms: seq<Message>)
    requires |m| < 0x1_0000 && ShortMessages(ms)
    ensures ShortMessages([m] + ms) && PackMessages([m] + ms) == Le16(|m|) + m + PackMessages(ms)
    decreases |ms|
  {
    hide Le16;
    assert ShortMessages([m] + ms) by {
      assert forall k :: 0 <= k < |[m] + ms| ==> ([m] + ms)[k] == if k == 0 then m else ms[k - 1];
    }
    if ms == [] {
      assert [m] + ms == [m] && [m][..0] == [];
      assert PackMessages([m][..0]) == [];
    } else {
      var ms', last := ms[..|ms| - 1], ms[|ms| - 1];
      assert ([m] + ms)[..|ms|] == [m] + ms';
      PackCons(m, ms');
    }
  }

  /** Unpacking undoes packing, for every list of messages. */
  lemma {:induction false} UnpackPack(ms: seq<Message>)
    requires ShortMessages(ms)
    ensures Packed(PackMessages(ms)) && Unpack(PackMessages(ms)) == ms
  {
    if ms != [] {
      hide Le16;
      var m, rest := ms[0], ms[1..];
      assert ms == [m] + rest;
      PackCons(m, rest);
      UnpackPack(rest);
      var b := PackMessages(ms);
      Le16RoundTrip(|m|);
      assert b[..2] == Le16(|m|);
      assert b[2 + |m|..] == PackMessages(rest) && b[2..2 + |m|] == m;
    }
  }

  /** Packing undoes unpacking: a payload is the only one for its messages. */
  lemma {:induction false} PackUnpack(b: seq<byte>)
    requires Packed(b)
    ensures ShortMessages(Unpack(b)) && PackMessages(Unpack(b)) == b
    decreases |b|
  {
    hide Le16, FromLe16, PackMessages, ShortMessages, Packed, Unpack;
    if b == [] {
      PackEmpty(b);
    } else {
      var n, rest := UnpackHead(b);
      PackUnpack(rest);
      PackCons(b[2..2 + n], Unpack(rest));
    }
  }

  lemma PackEmpty(b: seq<byte>)
    requires b == []
    ensures Packed(b) && Unpack(b) == [] && ShortMessages([]) && PackMessages([]) == b
  {
  }

  /** The first message of a payload and what follows it. */
  lemma UnpackHead(b: seq<byte>) returns (n: u16, rest: seq<byte>)
    requires Packed(b) && b != []
    ensures 2 + n <= |b| && rest == b[2 + n..] && Packed(rest) && Unpack(b) == [b[2..2 + n]] + Unpack(rest)
    ensures b == Le16(n) + b[2..2 + n] + rest
  {
    n := FromLe16(b[..2]);
    rest := b[2 + n..];
    assert b == b[..2] + b[2..2 + n] + rest;
  }

  lemma PackNext(ms: seq<Message>, i: nat)
    requires ShortMessages(ms) && i < |ms|
    ensures ShortMessages(ms[..i]) && ShortMessages(ms[..i + 1])
    ensures PackMessages(ms[..i + 1]) == PackMessages(ms[..i]) + Le16(|ms[i]|) + ms[i]
    ensures PackedLength(ms[..i + 1]) == PackedLength(ms[..i]) + |ms[i]| + 2 <= PackedLength(ms)
  {
    assert ms[..i + 1][..i] == ms[..i];
    PackedLengthGrows(ms, i + 1);
  }

  method TotalLength(ms: seq<Message>) returns (length: nat)
    ensures length == PackedLength(ms)
  {
    length := 0;
    for i := 0 to |ms|
      invariant length + 2 * i == PackedLength(ms[..i])
    {
      assert ms[..i + 1][..i] == ms[..i];
      length := length + |ms[i]|;
    }
    assert ms[..|ms|] == ms;
    length := length + 2 * |ms|;
  }

  /** The payload of a data PDU: a first loop adds up the length, a second one fills the buffer. */
  method CreateData(ms: seq<Message>) returns (data: seq<byte>)
    requires ShortMessages(ms) && PackedLength(ms) < 0x1_0000
    ensures data == PackMessages(ms)
  {
    hide Le16, PackMessages, PackedLength;
    var length := TotalLength(ms);
    var buffer := new byte[length](_ => 0);
    var offset := 0;
    PackNothing(ms);
    for i := 0 to |ms|
      invariant offset == PackedLength(ms[..i]) <= length
      invariant ShortMessages(ms[..i]) && buffer[..offset] == PackMessages(ms[..i])
    {
      PackNext(ms, i);
      WriteAt(buffer, offset, Le16(|ms[i]|));
      WriteAt(buffer, offset + 2, ms[i]);
      offset := offset + |ms[i]| + 2;
    }
    assert ms[..|ms|] == ms;
    data := buffer[..];
  }

  lemma PackNothing(ms: seq<Message>)
    requires ShortMessages(ms)
    ensures PackedLength(ms[..0]) == 0 && PackMessages(ms[..0]) == []
  {
  }

  lemma {:induction false} PackedLengthGrows(ms: seq<Message>, i: nat)
    requires i <= |ms|
    ensures PackedLength(ms[..i]) <= PackedLength(ms)
    decreases |ms| - i
  {
    if i == |ms| {
      assert ms[..i] == ms;
    } else {
      PackedLengthGrows(ms, i + 1);
      assert ms[..i + 1][..i] == ms[..i];
    }
  }

  lemma UnpackStep(data: seq<byte>, current: nat)
    requires current < |data| && Packed(data[current..])
    ensures
      && current + 2 <= |data|
      && var n := FromLe16(data[current..current + 2]);
         && current + 2 + n <= |data| && Packed(data[current + 2 + n..])
         && Unpack(data[current..]) == [data[current + 2..current + 2 + n]] + Unpack(data[current + 2 + n..])
  {
    var rest := data[current..];
    assert rest[..2] == data[current..current + 2];
    var n := FromLe16(rest[..2]);
    assert rest[2 + n..] == data[current + 2 + n..] && rest[2..2 + n] == data[current + 2..current + 2 + n];
  }

  method CountMessages(data: seq<byte>) returns (counter: nat)
    requires Packed(data)
    ensures counter == |Unpack(data)|
  {
    hide FromLe16, Packed, Unpack;
    var current := 0;
    counter := 0;
    assert data[0..] == data;
    while current < |data|
      invariant 0 <= current <= |data| && Packed(data[current..])
      invariant counter + |Unpack(data[current..])| == |Unpack(data)|
    {
      UnpackStep(data, current);
      current := current + FromLe16(data[current..current + 2]) + 2;
      counter := counter + 1;
    }
    NoMessages(data[current..]);
  }

  lemma NoMessages(b: seq<byte>)
    requires Packed(b)
    ensures Unpack(b) == [] <==> b == []
  {
  }

  /** A first loop counts the messages, a second one copies them. */
  method ExtractMessages(data: seq<byte>) returns (ms: seq<Message>)
    requires Packed(data)
    ensures ms == Unpack(data)
  {
    hide FromLe16, Packed, Unpack;
    var counter := CountMessages(data);
    var current := 0;
    ms := [];
    assert data[0..] == data;
    for i := 0 to counter
      invariant 0 <= current <= |data| && Packed(data[current..])
      invariant ms + Unpack(data[current..]) == Unpack(data) && |ms| == i
    {
      NoMessages(data[current..]);
      UnpackStep(data, current);
      var length := FromLe16(data[current..current + 2]);
      ghost var m, rest := data[current + 2..current + 2 + length], Unpack(data[current + 2 + length..]);
      assert ms + ([m] + rest) == ms + [m] + rest;
      ms := ms + [data[current + 2..current + 2 + length]];
      current := current + length + 2;
    }
    assert |Unpack(data[current..])| == 0;
  }

  // ----- PDUs inside a datagram -----

  /** The PDUs that the length fields mark off. */
  predicate Framed(b: seq<byte>)
    decreases |b|
  {
    b == [] || (|b| >= 2 && 0 < FromLe16(b[..2]) <= |b| && Framed(b[FromLe16(b[..2])..]))
  }

  function Frames(b: seq<byte>): seq<seq<byte>>
    requires Framed(b)
    decreases |b|
  {
    if b == [] then [] else [b[..FromLe16(b[..2])]] + Frames(b[FromLe16(b[..2])..])
  }

  function Joined(fs: seq<seq<byte>>): seq<byte> {
    if fs == [] then [] else fs[0] + Joined(fs[1..])
  }

  predicate IsFrame(f: seq<byte>) {
    |f| >= 2 && FromLe16(f[..2]) == |f|
  }

  /** A datagram made of whole PDUs falls apart into exactly these, in order. */
  lemma {:induction false} FramesOfJoined(fs: seq<seq<byte>>)
    requires forall k :: 0 <= k < |fs| ==> IsFrame(fs[k])
    ensures Framed(Joined(fs)) && Frames(Joined(fs)) == fs
  {
    if fs != [] {
      FramesOfJoined(fs[1..]);
      var b := Joined(fs);
      assert IsFrame(fs[0]);
      assert b[..2] == fs[0][..2] && b[..|fs[0]|] == fs[0] && b[|fs[0]|..] == Joined(fs[1..]);
    }
  }

  lemma FrameStep(b: seq<byte>, offset: nat)
    requires offset < |b| && Framed(b[offset..])
    ensures
      && offset + 2 <= |b|
      && var n := FromLe16(b[offset..offset + 2]);
         && 0 < n && offset + n <= |b| && Framed(b[offset + n..])
         && Frames(b[offset..]) == [b[offset..offset + n]] + Frames(b[offset + n..])
  {
    hide FromLe16;
    var rest := b[offset..];
    assert rest[..2] == b[offset..offset + 2];
    var n := FromLe16(rest[..2]);
    assert rest[n..] == b[offset + n..] && rest[..n] == b[offset..offset + n];
  }

  lemma NoFrames()
    ensures Framed([]) && Frames([]) == []
  {
  }

  /** The framing loop; it ends with nothing remaining. */
  method SplitDatagram(b: seq<byte>) returns (fs: seq<seq<byte>>)
    requires Framed(b)
    ensures fs == Frames(b)
  {
    hide FromLe16, Framed, Frames;
    var remaining, offset := |b|, 0;
    fs := [];
    assert b[0..] == b;
    while remaining > 0
      invariant 0 <= offset <= |b| && offset + remaining == |b| && Framed(b[offset..])
      invariant fs + Frames(b[offset..]) == Frames(b)
    {
      FrameStep(b, offset);
      var size := FromLe16(b[offset..offset + 2]);
      ghost var f, rest := b[offset..offset + size], Frames(b[offset + size..]);
      assert fs + ([f] + rest) == fs + [f] + rest;
      fs := fs + [b[offset..offset + size]];
      remaining := remaining - size;
      offset := offset + size;
    }
    NoFrames();
    assert b[offset..] == [];
  }

  /** A PDU ready to be sent: its number and its content. */
  datatype Outgoing = Outgoing(seqNr: u32, inner: RawPacket)

  ghost function EncodeAll(os: seq<Outgoing>, crc: Crc.Params, ctx: HashContext): (fs: seq<seq<byte>>)
    requires ValidContext(ctx) && ValidCrc(crc) && forall k :: 0 <= k < |os| ==> Fits(os[k].inner, crc, ctx)
    ensures |fs| == |os|
  {
    seq(|os|, k requires 0 <= k < |os| && Fits(os[k].inner, crc, ctx) =>
      EncodeRedundancy(MakeRedundancy(os[k].seqNr, os[k].inner, crc), crc, ctx))
  }

  /** A datagram of encoded PDUs is received as exactly these PDUs, each once, in order, all intact. */
  lemma DatagramRoundTrip(os: seq<Outgoing>, crc: Crc.Params, ctx: HashContext)
    requires ValidContext(ctx) && ValidCrc(crc) && forall k :: 0 <= k < |os| ==> Fits(os[k].inner, crc, ctx)
    ensures
      var b := Joined(EncodeAll(os, crc, ctx));
      && Framed(b) && |Frames(b)| == |os|
      && forall k :: 0 <= k < |os| ==>
           && RedundancyReadable(Frames(b)[k], crc, ctx)
           && var d := DecodeRedundancy(Frames(b)[k], crc, ctx);
              d.pdu.seqNr == os[k].seqNr && d.inner.packet == os[k].inner && d.inner.intact && d.intact
  {
    hide EncodeRedundancy, DecodeRedundancy, RedundancyReadable, FromLe16;
    var fs := EncodeAll(os, crc, ctx);
    forall k | 0 <= k < |os|
      ensures IsFrame(fs[k]) && RedundancyReadable(fs[k], crc, ctx)
      ensures
        var d := DecodeRedundancy(fs[k], crc, ctx);
        d.pdu.seqNr == os[k].seqNr && d.inner.packet == os[k].inner && d.inner.intact && d.intact
    {
      DecodeEncodeRedundancy(os[k].seqNr, os[k].inner, crc, ctx);
    }
    FramesOfJoined(fs);
  }
}

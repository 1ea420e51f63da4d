/**
  Where every field stands in the bytes of a PDU, and what the two codes protect: the safety code is
  the hash of header and data, the check code the reference code of everything in front of it, and a
  PDU is found intact exactly if the received code is that of the received bytes.
 */
module WireFormat {
  import opened Packets
  import opened Codec
  import Crc

  /** A number written with its lowest byte first. */
  function LittleValue(b: seq<byte>): nat {
    if b == [] then 0 else b[0] as nat + 0x100 * LittleValue(b[1..])
  }

  lemma ValueOfTwo(b: seq<byte>)
    requires |b| == 2
    ensures LittleValue(b) == b[0] as nat + 0x100 * (b[1] as nat)
  {
    assert b[1..][1..] == [];
    assert LittleValue(b[1..]) == b[1] as nat + 0x100 * LittleValue(b[1..][1..]);
  }

  lemma ValueOfFour(b: seq<byte>)
    requires |b| == 4
    ensures
      LittleValue(b) == b[0] as nat + 0x100 * (b[1] as nat) + 0x1_0000 * (b[2] as nat) + 0x100_0000 * (b[3] as nat)
  {
    var c := b[2..];
    assert b[1..][1..] == c;
    ValueOfTwo(c);
  }

  lemma Le16Value(v: u16)
    ensures LittleValue(Le16(v)) == v
  {
    ValueOfTwo(Le16(v));
  }

  lemma Le32Value(v: u32)
    ensures LittleValue(Le32(v)) == v
  {
    ValueOfFour(Le32(v));
    Le32RoundTrip(v);
  }

  lemma FromLeValue(b: seq<byte>)
    ensures |b| == 2 ==> FromLe16(b) == LittleValue(b)
    ensures |b| == 4 ==> FromLe32(b) == LittleValue(b)
  {
    if |b| == 2 {
      ValueOfTwo(b);
    } else if |b| == 4 {
      ValueOfFour(b);
    }
  }

  // ----- the PDU of the safety layer -----

  /** The fields of p at their places in the first 28 bytes. */
  ghost predicate FieldsAt(b: seq<byte>, p: RawPacket)
    requires |b| >= 28
  {
    && LittleValue(b[..2]) == p.length && LittleValue(b[2..4]) == p.kind
    && LittleValue(b[4..8]) == p.receiver && LittleValue(b[8..12]) == p.sender
    && LittleValue(b[12..16]) == p.sn && LittleValue(b[16..20]) == p.cs
    && LittleValue(b[20..24]) == p.ts && LittleValue(b[24..28]) == p.cts
  }

  lemma HeaderFormat(p: RawPacket)
    ensures FieldsAt(Header(p), p)
  {
    hide Le16, Le32, LittleValue, Header;
    HeaderFields(p);
    Le16Value(p.length);
    Le16Value(p.kind);
    Le32Value(p.receiver);
    Le32Value(p.sender);
    Le32Value(p.sn);
    Le32Value(p.cs);
    Le32Value(p.ts);
    Le32Value(p.cts);
  }

  lemma FieldsBehind(h: seq<byte>, rest: seq<byte>, p: RawPacket)
    requires |h| == 28 && FieldsAt(h, p)
    ensures FieldsAt(h + rest, p)
  {
    hide LittleValue;
    var b := h + rest;
    assert b[..2] == h[..2] && b[2..4] == h[2..4] && b[4..8] == h[4..8] && b[8..12] == h[8..12];
    assert b[12..16] == h[12..16] && b[16..20] == h[16..20] && b[20..24] == h[20..24] && b[24..28] == h[24..28];
  }

  /**
    An encoded PDU: every field at its place, then the data, and behind them as many bytes as
    configured of the hash of everything in front.
   */
  lemma EncodedFormat(p: RawPacket, ctx: HashContext)
    requires ValidContext(ctx) && WellSized(p, ctx)
    ensures
      var b, n := Encode(p, ctx), 28 + |p.data|;
      && |b| == n + 8 * ctx.hashLength && FieldsAt(b, p) && b[28..n] == p.data
      && forall i :: 0 <= i < 8 * ctx.hashLength ==> b[n + i] == ctx.hash(b[..n])[i]
  {
    hide FieldsAt, Header;
    var h, b, n := Header(p), Encode(p, ctx), 28 + |p.data|;
    HeaderFormat(p);
    assert b == h + b[28..];
    FieldsBehind(h, b[28..], p);
    assert b[..n] == h + p.data;
  }

  /** The bytes behind the data, and the bytes that the code covers. */
  function Received(b: seq<byte>, ctx: HashContext): seq<byte>
    requires Proper(b, ctx)
  {
    var length := FromLe16(b[..2]);
    b[length - 8 * ctx.hashLength..length]
  }

  function Protected(b: seq<byte>, ctx: HashContext): seq<byte>
    requires Proper(b, ctx)
  {
    b[..FromLe16(b[..2]) - 8 * ctx.hashLength]
  }

  /** A decoded PDU: the fields are read from their places, and the verdict is that on the received bytes. */
  lemma IntactExactlyWhen(b: seq<byte>, ctx: HashContext)
    requires ValidContext(ctx) && Proper(b, ctx)
    ensures
      var d := Decode(b, ctx);
      && FieldsAt(b, d.packet) && Protected(b, ctx)[28..] == d.packet.data && Received(b, ctx) == d.safetyCode
      && (d.intact <==>
          forall i :: 0 <= i < 8 * ctx.hashLength ==> Received(b, ctx)[i] == ctx.hash(Protected(b, ctx))[i])
  {
    hide LittleValue, FromLe16, FromLe32;
    FromLeValue(b[..2]);
    FromLeValue(b[2..4]);
    FromLeValue(b[4..8]);
    FromLeValue(b[8..12]);
    FromLeValue(b[12..16]);
    FromLeValue(b[16..20]);
    FromLeValue(b[20..24]);
    FromLeValue(b[24..28]);
  }

  /** A length field that leaves no room for the header: a code is looked for behind the header all the same. */
  lemma ShortIntactExactlyWhen(b: seq<byte>, ctx: HashContext)
    requires ValidContext(ctx) && Readable(b, ctx) && !Proper(b, ctx)
    ensures
      var d, n := Decode(b, ctx), FromLe16(b[..2]) - 8 * ctx.hashLength;
      && d.packet.data == []
      && (d.intact <==> forall i :: 0 <= i < 8 * ctx.hashLength ==> b[28 + i] == ctx.hash(b[..n])[i])
  {
    hide FromLe16, FromLe32;
    var n := FromLe16(b[..2]) - 8 * ctx.hashLength;
    var code := b[28..28 + 8 * ctx.hashLength];
    assert forall i :: 0 <= i < 8 * ctx.hashLength ==> code[i] == b[28 + i];
  }

  /**
    Changed header or data with the code kept: if the original was intact, the change goes unnoticed
    exactly if the two hashes agree on the bytes that are sent.
   */
  lemma ChangeUnnoticedExactlyWhen(b: seq<byte>, b': seq<byte>, ctx: HashContext)
    requires ValidContext(ctx) && Proper(b, ctx) && Proper(b', ctx)
    requires Decode(b, ctx).intact && Received(b', ctx) == Received(b, ctx)
    ensures
      Decode(b', ctx).intact <==>
      forall i :: 0 <= i < 8 * ctx.hashLength ==> ctx.hash(Protected(b', ctx))[i] == ctx.hash(Protected(b, ctx))[i]
  {
    hide Decode, Protected, FieldsAt;
    IntactExactlyWhen(b, ctx);
    IntactExactlyWhen(b', ctx);
  }

  // ----- the redundancy PDU -----

  lemma TwoByteValue(v: u16)
    ensures LittleValue(Le32(v)[..2]) == v
  {
    ValueOfTwo(Le32(v)[..2]);
  }

  lemma CodeBound(crc: Crc.Params, covered: seq<byte>)
    requires ValidCrc(crc)
    ensures Crc.ToNat(Crc.Reference(crc, covered)) < if crc.width == 16 then 0x1_0000 else 0x1_0000_0000
  {
    hide Crc.Reference, Crc.ToNat;
    Crc.ToNatBound(Crc.Reference(crc, covered));
    BothPowers();
  }

  lemma BothPowers()
    ensures Crc.Power2(16) == 0x1_0000 && Crc.Power2(32) == 0x1_0000_0000
  {
    assert Crc.Power2(4) == 0x10 && Crc.Power2(8) == 0x100 && Crc.Power2(12) == 0x1000 && Crc.Power2(16) == 0x1_0000;
    assert Crc.Power2(20) == 0x10_0000 && Crc.Power2(24) == 0x100_0000 && Crc.Power2(28) == 0x1000_0000;
  }

  /** The check code is the reference code, lowest byte first. */
  lemma CheckCodeValue(crc: Crc.Params, covered: seq<byte>)
    requires ValidCrc(crc)
    ensures LittleValue(CheckCode(crc, covered)) == Crc.ToNat(Crc.Reference(crc, covered))
  {
    hide Le32, LittleValue, Crc.Reference, Crc.ToNat;
    CodeBound(crc, covered);
    var v := Crc.ToNat(Crc.Reference(crc, covered));
    Le32Value(v);
    if crc.width == 16 {
      TwoByteValue(v);
    } else {
      assert Le32(v)[..4] == Le32(v);
    }
  }

  /** Equal values of equally many bytes are equal bytes. */
  lemma {:induction false} SameValue(a: seq<byte>, b: seq<byte>)
    requires |a| == |b| && LittleValue(a) == LittleValue(b)
    ensures a == b
  {
    if a != [] {
      assert LittleValue(a) % 0x100 == a[0] as nat && LittleValue(b) % 0x100 == b[0] as nat;
      SameValue(a[1..], b[1..]);
      assert a == [a[0]] + a[1..] && b == [b[0]] + b[1..];
    }
  }

  /** As the factory makes it: length, two zero bytes, number, inner PDU, and the reference code of all this. */
  lemma RedundancyFormat(seqNr: u32, inner: RawPacket, crc: Crc.Params, ctx: HashContext)
    requires ValidContext(ctx) && ValidCrc(crc) && Fits(inner, crc, ctx)
    ensures
      var b, n := EncodeRedundancy(MakeRedundancy(seqNr, inner, crc), crc, ctx), 8 + inner.length;
      && |b| == n + crc.width / 8 && LittleValue(b[..2]) == |b| && LittleValue(b[2..4]) == 0
      && LittleValue(b[4..8]) == seqNr && b[8..n] == Encode(inner, ctx)
      && LittleValue(b[n..]) == Crc.ToNat(Crc.Reference(crc, b[..n]))
  {
    hide Le16, Le32, LittleValue, CheckCode, Encode, Covered, Crc.Reference, Crc.ToNat;
    var r := MakeRedundancy(seqNr, inner, crc);
    var payload := Encode(inner, ctx);
    FrameParts(r, payload, CheckCode(crc, Covered(r, payload)));
    Le16Value(r.length);
    Le16Value(0);
    Le32Value(seqNr);
    CheckCodeValue(crc, Covered(r, payload));
  }

  /** A redundancy PDU is found intact exactly if its last bytes are the reference code of the others. */
  lemma OuterIntactExactlyWhen(b: seq<byte>, crc: Crc.Params, ctx: HashContext)
    requires ValidContext(ctx) && ValidCrc(crc) && RedundancyReadable(b, crc, ctx)
    ensures
      var d, n := DecodeRedundancy(b, crc, ctx), |b| - crc.width / 8;
      && LittleValue(b[..2]) == d.pdu.length && LittleValue(b[2..4]) == d.pdu.reserve
      && LittleValue(b[4..8]) == d.pdu.seqNr && d.inner == Decode(b[8..n], ctx)
      && (d.intact <==> LittleValue(b[n..]) == Crc.ToNat(Crc.Reference(crc, b[..n])))
  {
    hide LittleValue, CheckCode, Decode, FromLe16, FromLe32, Crc.Reference, Crc.ToNat, Readable;
    var n := |b| - crc.width / 8;
    FromLeValue(b[..2]);
    FromLeValue(b[2..4]);
    FromLeValue(b[4..8]);
    CheckCodeValue(crc, b[..n]);
    if LittleValue(b[n..]) == Crc.ToNat(Crc.Reference(crc, b[..n])) {
      SameValue(CheckCode(crc, b[..n]), b[n..]);
    }
  }

  // ----- messages -----

  /** The first message of a payload: two bytes with its length, then its bytes, then the others. */
  lemma PackedFormat(ms: seq<Message>)
    requires ShortMessages(ms) && ms != []
    ensures
      var b, n := PackMessages(ms), 2 + |ms[0]|;
      |b| >= n && LittleValue(b[..2]) == |ms[0]| && b[2..n] == ms[0] && b[n..] == PackMessages(ms[1..])
  {
    hide Le16, LittleValue;
    assert ms == [ms[0]] + ms[1..];
    PackCons(ms[0], ms[1..]);
    Le16Value(|ms[0]|);
    assert PackMessages(ms)[..2] == Le16(|ms[0]|);
  }
}

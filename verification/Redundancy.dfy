/**
  The redundancy layer: the sender numbers its PDUs and copies each to every transport channel, the
  receiver merges what the channels bring, with loss, repetition and reordering, through a bounded
  defer queue.  The order inside the queue is a matter of module DeferQueues; here it is a multiset.
 */
module Redundancy {
  import opened Packets

  /** A decoded redundancy PDU; `intact` is the verdict on its check code, `arrived` the time of queueing. */
  datatype RedPdu = RedPdu(seqNr: nat, inner: Packet, intact: bool, arrived: nat)

  datatype Channel = Channel(peer: nat, capacity: nat, seqRx: nat, queue: multiset<RedPdu>)

  predicate Holds(q: multiset<RedPdu>, n: nat) {
    exists e :: e in q && e.seqNr == n
  }

  predicate Full(ch: Channel) {
    |ch.queue| == ch.capacity
  }

  /** Delivery encodes the inner PDU again, which gives it a fresh safety code. */
  function Reencoded(e: RedPdu): Packet {
    e.inner.(intact := true)
  }

  // ----- receiving -----

  /** Adds to the queue unless it is full. */
  function Add(ch: Channel, p: RedPdu, now: nat): Channel {
    if Full(ch) then ch else ch.(queue := ch.queue + multiset{p.(arrived := now)})
  }

  /** The second component says that the PDU expected next was seen. */
  function ReceiveData(ch: Channel, seqTx: nat, p: RedPdu, now: nat): (Channel, bool) {
    if !p.intact then (ch, false)
    else if ch.seqRx == 0 && seqTx == 0 && p.seqNr != 0 then (ch, false)
    else if p.seqNr < ch.seqRx then (ch, false)
    else if p.seqNr == ch.seqRx then (Add(ch, p, now), true)
    else if p.seqNr <= ch.seqRx + ch.capacity * 10 then
      if Holds(ch.queue, p.seqNr) then (ch, false) else (Add(ch, p, now), false)
    else (ch, false)
  }

  /** PDUs of strangers, and any PDU while the queue is full, are dropped beforehand. */
  function Admit(ch: Channel, seqTx: nat, p: RedPdu, now: nat): (Channel, bool) {
    if p.inner.sender != ch.peer || Full(ch) then (ch, false) else ReceiveData(ch, seqTx, p, now)
  }

  /** One transport datagram carries any number of PDUs. */
  function ReceiveAll(ch: Channel, seqTx: nat, ps: seq<RedPdu>, now: nat): (Channel, bool) {
    if ps == [] then (ch, false)
    else
      var (ch1, seen1) := ReceiveAll(ch, seqTx, ps[..|ps| - 1], now);
      var (ch2, seen2) := Admit(ch1, seqTx, ps[|ps| - 1], now);
      (ch2, seen1 || seen2)
  }

  /** Taking PDUs off the queue, each with the number expected at that point. */
  predicate Draining(ch: Channel, out: seq<RedPdu>, ch': Channel) {
    && ch' == ch.(seqRx := ch.seqRx + |out|, queue := ch.queue - multiset(out))
    && multiset(out) <= ch.queue
    && (forall k :: 0 <= k < |out| ==> out[k].seqNr == ch.seqRx + k)
  }

  /** `out` is a possible result of draining the queue: PDU after PDU, until the next one is missing. */
  predicate Drains(ch: Channel, out: seq<RedPdu>, ch': Channel) {
    Draining(ch, out, ch') && !Holds(ch'.queue, ch'.seqRx)
  }

  lemma DrainingStart(ch: Channel)
    ensures Draining(ch, [], ch) && Handed([]) == []
  {
    assert ch.queue - multiset([]) == ch.queue;
  }

  lemma DrainingStep(ch: Channel, out: seq<RedPdu>, ch': Channel, e: RedPdu)
    requires Draining(ch, out, ch') && e in ch'.queue && e.seqNr == ch'.seqRx
    ensures Draining(ch, out + [e], ch'.(seqRx := ch'.seqRx + 1, queue := ch'.queue - multiset{e}))
  {
    assert multiset(out + [e]) == multiset(out) + multiset{e};
  }

  /** One receive event: a datagram, then a drain if the PDU expected next was in it. */
  predicate Hears(ch: Channel, seqTx: nat, ps: seq<RedPdu>, now: nat, out: seq<RedPdu>, ch': Channel) {
    var (ch1, seen) := ReceiveAll(ch, seqTx, ps, now);
    if seen then Drains(ch1, out, ch') else out == [] && ch' == ch1
  }

  // ----- what the receiver makes of genuine PDUs -----

  /** An intact PDU is a copy of one that was sent; nothing is assumed of the others. */
  predicate GenuineCopy(sent: seq<Packet>, p: RedPdu) {
    p.intact ==> p.seqNr < |sent| && p.inner == sent[p.seqNr]
  }

  predicate AllCopies(sent: seq<Packet>, ps: seq<RedPdu>) {
    forall k :: 0 <= k < |ps| ==> GenuineCopy(sent, ps[k])
  }

  predicate QueueGenuine(sent: seq<Packet>, q: multiset<RedPdu>) {
    forall e :: e in q ==> e.intact && e.seqNr < |sent| && e.inner == sent[e.seqNr]
  }

  predicate ChannelInv(sent: seq<Packet>, ch: Channel) {
    && ch.seqRx <= |sent| && |ch.queue| <= ch.capacity
    && QueueGenuine(sent, ch.queue)
    && !Holds(ch.queue, ch.seqRx)
  }

  /** Receiving one PDU changes the queue by at most that PDU. */
  lemma AdmitKeeps(sent: seq<Packet>, ch: Channel, seqTx: nat, p: RedPdu, now: nat)
    requires QueueGenuine(sent, ch.queue) && |ch.queue| <= ch.capacity && GenuineCopy(sent, p)
    ensures
      var (ch', seen) := Admit(ch, seqTx, p, now);
      && QueueGenuine(sent, ch'.queue) && |ch'.queue| <= ch'.capacity
      && ch.(queue := ch'.queue) == ch' && ch.queue <= ch'.queue
      && (Holds(ch'.queue, ch.seqRx) ==> seen || Holds(ch.queue, ch.seqRx))
  {
  }

  lemma {:induction false} ReceiveAllKeeps(sent: seq<Packet>, ch: Channel, seqTx: nat, ps: seq<RedPdu>, now: nat)
    requires QueueGenuine(sent, ch.queue) && |ch.queue| <= ch.capacity && AllCopies(sent, ps)
    ensures
      var (ch', seen) := ReceiveAll(ch, seqTx, ps, now);
      && QueueGenuine(sent, ch'.queue) && |ch'.queue| <= ch'.capacity
      && ch.(queue := ch'.queue) == ch' && ch.queue <= ch'.queue
      && (Holds(ch'.queue, ch.seqRx) ==> seen || Holds(ch.queue, ch.seqRx))
  {
    if ps != [] {
      var ps' := ps[..|ps| - 1];
      ReceiveAllKeeps(sent, ch, seqTx, ps', now);
      AdmitKeeps(sent, ReceiveAll(ch, seqTx, ps', now).0, seqTx, ps[|ps| - 1], now);
    }
  }

  /** Whatever is drained are the next PDUs that were sent, in order. */
  lemma DrainedAreNext(sent: seq<Packet>, ch: Channel, out: seq<RedPdu>, ch': Channel)
    requires QueueGenuine(sent, ch.queue) && ch.seqRx <= |sent| && Drains(ch, out, ch')
    ensures ch'.seqRx <= |sent| && QueueGenuine(sent, ch'.queue) && |ch'.queue| <= |ch.queue|
    ensures forall k :: 0 <= k < |out| ==> Reencoded(out[k]) == sent[ch.seqRx + k].(intact := true)
  {
    forall k | 0 <= k < |out|
      ensures ch.seqRx + k < |sent| && out[k].inner == sent[ch.seqRx + k]
    {
      assert out[k] in multiset(out);
    }
    if out != [] {
      assert out[|out| - 1].seqNr == ch.seqRx + |out| - 1;
    }
  }

  lemma DrainedPosition(ch: Channel, out: seq<RedPdu>, ch': Channel)
    requires Draining(ch, out, ch')
    ensures ch'.seqRx == ch.seqRx + |out| && ch'.capacity == ch.capacity
  {
  }

  lemma HearsKeeps(sent: seq<Packet>, ch: Channel, seqTx: nat, ps: seq<RedPdu>, now: nat, out: seq<RedPdu>, ch': Channel)
    requires ChannelInv(sent, ch) && AllCopies(sent, ps) && Hears(ch, seqTx, ps, now, out, ch')
    ensures ChannelInv(sent, ch') && ch'.seqRx == ch.seqRx + |out|
    ensures forall k :: 0 <= k < |out| ==> Reencoded(out[k]) == sent[ch.seqRx + k].(intact := true)
  {
    hide ReceiveAll, QueueGenuine, Holds, Draining;
    ReceiveAllKeeps(sent, ch, seqTx, ps, now);
    var (ch1, seen) := ReceiveAll(ch, seqTx, ps, now);
    if seen {
      DrainedAreNext(sent, ch1, out, ch');
      DrainedPosition(ch1, out, ch');
    }
  }

  // ----- runs of a receiver -----

  /** A receiver and everything it handed to the safety layer. */
  datatype Receiver = Receiver(channel: Channel, handed: seq<Packet>)

  datatype Event = Event(seqTx: nat, datagram: seq<RedPdu>, now: nat, out: seq<RedPdu>)

  lemma HandedSnoc(out: seq<RedPdu>, e: RedPdu)
    ensures Handed(out + [e]) == Handed(out) + [Reencoded(e)]
  {
  }

  function Handed(out: seq<RedPdu>): (ps: seq<Packet>)
    ensures |ps| == |out|
  {
    seq(|out|, k requires 0 <= k < |out| => Reencoded(out[k]))
  }

  predicate IsReception(rs: seq<Receiver>, es: seq<Event>, sent: seq<Packet>) {
    && |rs| == |es| + 1
    && rs[0].channel.seqRx == 0 && rs[0].channel.queue == multiset{} && rs[0].handed == []
    && (forall m :: 0 <= m < |sent| ==> sent[m].intact)
    && (forall k :: 0 <= k < |es| ==>
          && AllCopies(sent, es[k].datagram)
          && Hears(rs[k].channel, es[k].seqTx, es[k].datagram, es[k].now, es[k].out, rs[k + 1].channel)
          && rs[k + 1].handed == rs[k].handed + Handed(es[k].out))
  }

  lemma HandedExtends(sent: seq<Packet>, rx: nat, out: seq<RedPdu>)
    requires rx + |out| <= |sent| && forall m :: 0 <= m < |sent| ==> sent[m].intact
    requires forall k :: 0 <= k < |out| ==> Reencoded(out[k]) == sent[rx + k].(intact := true)
    ensures sent[..rx] + Handed(out) == sent[..rx + |out|]
  {
    assert forall k :: 0 <= k < |out| ==> Handed(out)[k] == sent[rx + k];
  }

  predicate InStep(sent: seq<Packet>, r: Receiver) {
    ChannelInv(sent, r.channel) && r.handed == sent[..r.channel.seqRx]
  }

  lemma ReceptionStep(sent: seq<Packet>, r: Receiver, e: Event, r': Receiver)
    requires InStep(sent, r) && (forall m :: 0 <= m < |sent| ==> sent[m].intact) && AllCopies(sent, e.datagram)
    requires Hears(r.channel, e.seqTx, e.datagram, e.now, e.out, r'.channel)
    requires r'.handed == r.handed + Handed(e.out)
    ensures InStep(sent, r')
  {
    hide Hears, AllCopies, QueueGenuine, Holds, Handed;
    HearsKeeps(sent, r.channel, e.seqTx, e.datagram, e.now, e.out, r'.channel);
    HandedExtends(sent, r.channel.seqRx, e.out);
  }

  /**
    Any number of channels, any loss, repetition and reordering: what was handed up are the first
    seqRx PDUs that were sent, each once and in order, and the PDU expected next is never left queued.
   */
  lemma {:induction false} HandedIsPrefixOfSent(rs: seq<Receiver>, es: seq<Event>, sent: seq<Packet>, k: nat)
    requires IsReception(rs, es, sent) && k < |rs|
    ensures InStep(sent, rs[k])
  {
    hide Hears, AllCopies, InStep, Handed;
    if k == 0 {
      NothingHanded(sent, rs[0]);
    } else {
      HandedIsPrefixOfSent(rs, es, sent, k - 1);
      ReceptionStep(sent, rs[k - 1], es[k - 1], rs[k]);
    }
  }

  lemma NothingHanded(sent: seq<Packet>, r: Receiver)
    requires r.channel.seqRx == 0 && r.channel.queue == multiset{} && r.handed == []
    ensures InStep(sent, r)
  {
  }

  // ----- what one event delivers -----

  /** A copy of the expected PDU at position k of the datagram finds room in the queue. */
  predicate ExpectedFindsRoom(ch: Channel, seqTx: nat, ps: seq<RedPdu>, now: nat, k: nat)
    requires k < |ps|
  {
    && ps[k].intact && ps[k].seqNr == ch.seqRx && ps[k].inner.sender == ch.peer
    && !Full(ReceiveAll(ch, seqTx, ps[..k], now).0)
  }

  /** A datagram is reported exactly if an intact copy of the expected PDU in it met a queue with room. */
  lemma {:induction false} ReportedExactlyWhen(ch: Channel, seqTx: nat, ps: seq<RedPdu>, now: nat)
    ensures ReceiveAll(ch, seqTx, ps, now).1 <==> SomeFindsRoom(ch, seqTx, ps, now)
    ensures ReceiveAll(ch, seqTx, ps, now).1 ==> Holds(ReceiveAll(ch, seqTx, ps, now).0.queue, ch.seqRx)
    ensures Holds(ReceiveAll(ch, seqTx, ps, now).0.queue, ch.seqRx) ==>
              ReceiveAll(ch, seqTx, ps, now).1 || Holds(ch.queue, ch.seqRx)
  {
    if ps != [] {
      hide Holds, Admit, SomeFindsRoom;
      var n := |ps| - 1;
      var before := ps[..n];
      ReportedExactlyWhen(ch, seqTx, before, now);
      QueueOnlyGrows(ch, seqTx, before, now);
      var (ch1, seen1) := ReceiveAll(ch, seqTx, before, now);
      LastReported(ch1, seqTx, ps[n], now);
      RoomSnoc(ch, seqTx, ps, now);
    }
  }

  predicate SomeFindsRoom(ch: Channel, seqTx: nat, ps: seq<RedPdu>, now: nat) {
    exists k :: 0 <= k < |ps| && ExpectedFindsRoom(ch, seqTx, ps, now, k)
  }

  lemma RoomSnoc(ch: Channel, seqTx: nat, ps: seq<RedPdu>, now: nat)
    requires ps != []
    ensures
      var n := |ps| - 1;
      SomeFindsRoom(ch, seqTx, ps, now) <==> SomeFindsRoom(ch, seqTx, ps[..n], now) || ExpectedFindsRoom(ch, seqTx, ps, now, n)
  {
    hide ReceiveAll, Full;
    var n := |ps| - 1;
    var before := ps[..n];
    assert forall k :: 0 <= k < n ==> before[k] == ps[k] && before[..k] == ps[..k];
    if k :| 0 <= k < n && ExpectedFindsRoom(ch, seqTx, before, now, k) {
      assert ExpectedFindsRoom(ch, seqTx, ps, now, k);
    }
    if k :| 0 <= k < n && ExpectedFindsRoom(ch, seqTx, ps, now, k) {
      assert ExpectedFindsRoom(ch, seqTx, before, now, k);
    }
  }

  lemma LastReported(ch: Channel, seqTx: nat, p: RedPdu, now: nat)
    ensures
      var (ch', seen) := Admit(ch, seqTx, p, now);
      && (seen <==> p.intact && p.seqNr == ch.seqRx && p.inner.sender == ch.peer && !Full(ch))
      && ch'.seqRx == ch.seqRx && ch.queue <= ch'.queue
      && (seen ==> Holds(ch'.queue, ch.seqRx))
      && (Holds(ch'.queue, ch.seqRx) ==> seen || Holds(ch.queue, ch.seqRx))
      && (Holds(ch.queue, ch.seqRx) ==> Holds(ch'.queue, ch.seqRx))
  {
    if p.inner.sender == ch.peer && !Full(ch) && p.intact && p.seqNr == ch.seqRx {
      assert p.(arrived := now) in Add(ch, p, now).queue;
    }
    if e :| e in ch.queue && e.seqNr == ch.seqRx {
      assert e in Admit(ch, seqTx, p, now).0.queue;
    }
  }

  /**
    For every datagram: what a receive event hands up is exactly the maximal consecutive run, from
    the expected number on, in the queue after admission.
   */
  lemma MaximalRunIsDelivered(ch: Channel, seqTx: nat, ps: seq<RedPdu>, now: nat, out: seq<RedPdu>, ch': Channel)
    requires Hears(ch, seqTx, ps, now, out, ch') && !Holds(ch.queue, ch.seqRx)
    ensures
      var q := ReceiveAll(ch, seqTx, ps, now).0.queue;
      && ch'.seqRx == ch.seqRx + |out|
      && (forall k :: 0 <= k < |out| ==> out[k] in q && out[k].seqNr == ch.seqRx + k)
      && !Holds(q, ch'.seqRx)
    ensures out != [] <==> SomeFindsRoom(ch, seqTx, ps, now)
  {
    ReportedExactlyWhen(ch, seqTx, ps, now);
    QueueOnlyGrows(ch, seqTx, ps, now);
    var (ch1, seen) := ReceiveAll(ch, seqTx, ps, now);
    hide ReceiveAll, SomeFindsRoom;
    if seen {
      assert forall k :: 0 <= k < |out| ==> out[k] in multiset(out);
      assert forall e :: e in ch1.queue && e.seqNr == ch'.seqRx ==> e !in multiset(out);
    }
  }

  /** With room in the queue, the expected PDU alone delivers the run that was queued behind it. */
  lemma ExpectedPduDeliversRun(ch: Channel, seqTx: nat, p: RedPdu, now: nat, out: seq<RedPdu>, ch': Channel)
    requires !Full(ch) && p.intact && p.seqNr == ch.seqRx && p.inner.sender == ch.peer
    requires Hears(ch, seqTx, [p], now, out, ch')
    ensures |out| > 0
    ensures forall n :: ch.seqRx < n < ch'.seqRx ==> Holds(ch.queue, n)
    ensures !Holds(ch.queue, ch'.seqRx)
  {
    assert [p][..0] == [];
    var ch1 := ReceiveAll(ch, seqTx, [p], now).0;
    assert ReceiveAll(ch, seqTx, [], now) == (ch, false);
    assert ch1.queue == ch.queue + multiset{p.(arrived := now)};
    assert p.(arrived := now) in ch1.queue;
    assert Holds(ch1.queue, ch.seqRx);
    forall n | ch.seqRx < n < ch'.seqRx ensures Holds(ch.queue, n) {
      var e := out[n - ch.seqRx];
      assert e in multiset(out);
      assert e in ch1.queue;
    }
    assert forall e :: e in ch.queue && e.seqNr == ch'.seqRx ==> e in ch1.queue && e !in multiset(out);
  }

  /** A full queue takes nothing in and sees nothing: the receiver is stuck for good. */
  lemma {:induction false} FullQueueIsStuck(ch: Channel, seqTx: nat, ps: seq<RedPdu>, now: nat)
    requires Full(ch)
    ensures ReceiveAll(ch, seqTx, ps, now) == (ch, false)
  {
    if ps != [] {
      FullQueueIsStuck(ch, seqTx, ps[..|ps| - 1], now);
    }
  }

  lemma {:induction false} QueueOnlyGrows(ch: Channel, seqTx: nat, ps: seq<RedPdu>, now: nat)
    ensures ReceiveAll(ch, seqTx, ps, now).0 == ch.(queue := ReceiveAll(ch, seqTx, ps, now).0.queue)
    ensures ch.queue <= ReceiveAll(ch, seqTx, ps, now).0.queue
  {
    if ps != [] {
      QueueOnlyGrows(ch, seqTx, ps[..|ps| - 1], now);
    }
  }

  /** A copy left behind below the expected number keeps its place in the queue through every event. */
  lemma LeftoverStays(ch: Channel, seqTx: nat, ps: seq<RedPdu>, now: nat, out: seq<RedPdu>, ch': Channel, e: RedPdu)
    requires Hears(ch, seqTx, ps, now, out, ch') && e.seqNr < ch.seqRx
    ensures ch'.queue[e] >= ch.queue[e] && e.seqNr < ch'.seqRx
  {
    QueueOnlyGrows(ch, seqTx, ps, now);
    assert e !in multiset(out);
  }

  /** Two copies of the expected PDU in one datagram: one is delivered, the other stays for good. */
  lemma RepeatedPduLeavesCopy(ch: Channel, seqTx: nat, p: RedPdu, now: nat)
    requires |ch.queue| + 2 <= ch.capacity && p.intact && p.seqNr == ch.seqRx && p.inner.sender == ch.peer
    requires !Holds(ch.queue, ch.seqRx) && !Holds(ch.queue, ch.seqRx + 1) && p.arrived == now
    ensures Hears(ch, seqTx, [p, p], now, [p], ch.(seqRx := ch.seqRx + 1, queue := ch.queue + multiset{p}))
  {
    assert [p, p][..1] == [p] && [p][..0] == [];
    assert ReceiveAll(ch, seqTx, [], now) == (ch, false);
    assert ReceiveAll(ch, seqTx, [p], now) == (ch.(queue := ch.queue + multiset{p}), true);
    assert ReceiveAll(ch, seqTx, [p, p], now) == (ch.(queue := ch.queue + multiset{p} + multiset{p}), true);
    assert multiset([p]) == multiset{p};
    assert ch.queue + multiset{p} + multiset{p} - multiset{p} == ch.queue + multiset{p};
  }

  // ----- the defer timeout -----

  predicate IsMinimum(q: multiset<RedPdu>, n: nat) {
    Holds(q, n) && forall e :: e in q ==> n <= e.seqNr
  }

  /** The timeout on a full queue: jump to the smallest queued number and drain from there. */
  ghost predicate TimesOut(ch: Channel, out: seq<RedPdu>, ch': Channel) {
    Full(ch) && exists n :: IsMinimum(ch.queue, n) && Drains(ch.(seqRx := n), out, ch')
  }

  /** Nothing queued is below the expected number. */
  predicate NoLeftover(ch: Channel) {
    forall e :: e in ch.queue ==> e.seqNr >= ch.seqRx
  }

  /** A timeout delivers from the true minimum on, and moves forward if and only if no leftover is queued. */
  lemma TimeoutMovesForward(ch: Channel, out: seq<RedPdu>, ch': Channel)
    requires TimesOut(ch, out, ch')
    ensures out != [] && IsMinimum(ch.queue, out[0].seqNr) && Drains(ch.(seqRx := out[0].seqNr), out, ch')
    ensures out[0].seqNr >= ch.seqRx <==> NoLeftover(ch)
  {
    var n :| IsMinimum(ch.queue, n) && Drains(ch.(seqRx := n), out, ch');
    MinimumIsDrained(ch.(seqRx := n), out, ch');
    hide Drains;
    assert (exists e :: e in ch.queue && e.seqNr == n);
  }

  lemma MinimumIsDrained(ch: Channel, out: seq<RedPdu>, ch': Channel)
    requires Drains(ch, out, ch') && Holds(ch.queue, ch.seqRx)
    ensures out != [] && out[0].seqNr == ch.seqRx
  {
    assert out == [] ==> ch.queue - multiset(out) == ch.queue;
  }

  // ----- any mix of receptions and timeouts -----

  datatype Alarm = Hear(seqTx: nat, ps: seq<RedPdu>, now: nat, out: seq<RedPdu>) | Timeout(out: seq<RedPdu>)

  ghost predicate AlarmStep(sent: seq<Packet>, ch: Channel, a: Alarm, ch': Channel) {
    match a
    case Hear(seqTx, ps, now, out) => AllCopies(sent, ps) && Hears(ch, seqTx, ps, now, out, ch')
    case Timeout(out) => TimesOut(ch, out, ch')
  }

  ghost predicate IsMixedReception(sent: seq<Packet>, chs: seq<Channel>, alarms: seq<Alarm>) {
    && |chs| == |alarms| + 1
    && chs[0].seqRx == 0 && chs[0].queue == multiset{}
    && forall k :: 0 <= k < |alarms| ==> AlarmStep(sent, chs[k], alarms[k], chs[k + 1])
  }

  /** Everything handed up, in order. */
  function Delivered(alarms: seq<Alarm>): seq<RedPdu> {
    if alarms == [] then [] else Delivered(alarms[..|alarms| - 1]) + alarms[|alarms| - 1].out
  }

  predicate AllSent(sent: seq<Packet>, es: seq<RedPdu>) {
    forall k :: 0 <= k < |es| ==> es[k].seqNr < |sent| && es[k].inner == sent[es[k].seqNr]
  }

  predicate StrictlyIncreasing(es: seq<RedPdu>) {
    forall k, l :: 0 <= k < l < |es| ==> es[k].seqNr < es[l].seqNr
  }

  /** The expected number follows the last one delivered. */
  predicate UpTo(es: seq<RedPdu>, rx: nat) {
    if es == [] then rx == 0 else es[|es| - 1].seqNr + 1 == rx
  }

  lemma DrainIsRun(ch: Channel, out: seq<RedPdu>, ch': Channel)
    requires Draining(ch, out, ch')
    ensures forall e :: e in ch'.queue ==> e in ch.queue
    ensures forall k :: 0 <= k < |out| ==> out[k] in ch.queue && out[k].seqNr == ch.seqRx + k
    ensures ch'.seqRx == ch.seqRx + |out|
  {
    assert forall k :: 0 <= k < |out| ==> out[k] in multiset(out);
  }

  /** What an event hands up: a run of PDUs that were sent, and the number expected behind it. */
  ghost predicate DeliversRun(sent: seq<Packet>, ch: Channel, out: seq<RedPdu>, ch': Channel) {
    && QueueGenuine(sent, ch'.queue) && |ch'.queue| <= ch'.capacity && AllSent(sent, out)
    && ch'.seqRx == (if out == [] then ch.seqRx else out[0].seqNr + |out|)
    && forall k :: 0 <= k < |out| ==> out[k].seqNr == out[0].seqNr + k
  }

  lemma DrainDelivers(sent: seq<Packet>, ch: Channel, out: seq<RedPdu>, ch': Channel)
    requires Drains(ch, out, ch') && QueueGenuine(sent, ch.queue) && |ch.queue| <= ch.capacity
    ensures DeliversRun(sent, ch, out, ch') && (out != [] ==> out[0].seqNr == ch.seqRx)
  {
    DrainIsRun(ch, out, ch');
    DrainingShrinks(ch, out, ch');
  }

  lemma HearDelivers(sent: seq<Packet>, ch: Channel, a: Alarm, ch': Channel)
    requires a.Hear? && AlarmStep(sent, ch, a, ch') && QueueGenuine(sent, ch.queue) && |ch.queue| <= ch.capacity
    ensures DeliversRun(sent, ch, a.out, ch') && (a.out != [] ==> a.out[0].seqNr == ch.seqRx)
  {
    hide ReceiveAll, AllCopies, Holds, QueueGenuine, Drains;
    ReceiveAllKeeps(sent, ch, a.seqTx, a.ps, a.now);
    var (ch1, seen) := ReceiveAll(ch, a.seqTx, a.ps, a.now);
    if seen {
      DrainDelivers(sent, ch1, a.out, ch');
    }
  }

  lemma TimeoutDelivers(sent: seq<Packet>, ch: Channel, out: seq<RedPdu>, ch': Channel)
    requires TimesOut(ch, out, ch') && QueueGenuine(sent, ch.queue) && |ch.queue| <= ch.capacity
    ensures DeliversRun(sent, ch, out, ch') && out != [] && (out[0].seqNr >= ch.seqRx <==> NoLeftover(ch))
  {
    hide TimesOut, QueueGenuine, Drains, NoLeftover;
    TimeoutMovesForward(ch, out, ch');
    DrainDelivers(sent, ch.(seqRx := out[0].seqNr), out, ch');
  }

  lemma DrainingShrinks(ch: Channel, out: seq<RedPdu>, ch': Channel)
    requires Draining(ch, out, ch')
    ensures |ch'.queue| <= |ch.queue| && ch'.capacity == ch.capacity
  {
  }

  ghost predicate ForwardOnly(chs: seq<Channel>, alarms: seq<Alarm>)
    requires |chs| == |alarms| + 1
  {
    forall k :: 0 <= k < |alarms| && alarms[k].Timeout? ==> NoLeftover(chs[k])
  }

  /** A run that starts behind, or not behind, the last number delivered. */
  lemma JoinRuns(es: seq<RedPdu>, out: seq<RedPdu>, rx: nat)
    requires UpTo(es, rx) && forall k :: 0 <= k < |out| ==> out[k].seqNr == out[0].seqNr + k
    ensures out == [] || out[0].seqNr >= rx ==> (StrictlyIncreasing(es + out) <==> StrictlyIncreasing(es))
    ensures out != [] && out[0].seqNr < rx ==> !StrictlyIncreasing(es + out)
    ensures out != [] ==> UpTo(es + out, out[0].seqNr + |out|)
  {
    var both := es + out;
    if StrictlyIncreasing(both) {
      assert forall k :: 0 <= k < |es| ==> both[k] == es[k];
    }
    if out != [] && es != [] {
      assert both[|es| - 1] == es[|es| - 1] && both[|es|] == out[0];
    }
    if StrictlyIncreasing(es) && out != [] && out[0].seqNr >= rx {
      forall k, l | 0 <= k < l < |both| ensures both[k].seqNr < both[l].seqNr {
        if k < |es| <= l {
          assert es[k].seqNr <= es[|es| - 1].seqNr && both[l] == out[l - |es|];
        } else if k >= |es| {
          assert both[k] == out[k - |es|] && both[l] == out[l - |es|];
        }
      }
    }
    if out == [] {
      assert both == es;
    }
  }

  /**
    Over any mix of receptions and timeouts everything handed up is what was sent under its number.
    The numbers strictly increase if and only if no timeout found a leftover below the expected one.
   */
  lemma {:induction false} DeliveredNumbersIncrease(sent: seq<Packet>, chs: seq<Channel>, alarms: seq<Alarm>)
    requires IsMixedReception(sent, chs, alarms)
    ensures QueueGenuine(sent, chs[|alarms|].queue) && |chs[|alarms|].queue| <= chs[|alarms|].capacity
    ensures AllSent(sent, Delivered(alarms)) && UpTo(Delivered(alarms), chs[|alarms|].seqRx)
    ensures StrictlyIncreasing(Delivered(alarms)) <==> ForwardOnly(chs, alarms)
    decreases |alarms|
  {
    if alarms != [] {
      MixedPrefix(sent, chs, alarms);
      ForwardSnoc(chs, alarms);
      hide AlarmStep, QueueGenuine, NoLeftover, StrictlyIncreasing, UpTo, ForwardOnly, AllSent, IsMixedReception;
      var n := |alarms| - 1;
      DeliveredNumbersIncrease(sent, chs[..n + 1], alarms[..n]);
      MixedStep(sent, Delivered(alarms[..n]), chs[n], alarms[n], chs[n + 1]);
    }
  }

  lemma MixedStep(sent: seq<Packet>, es: seq<RedPdu>, ch: Channel, a: Alarm, ch': Channel)
    requires AlarmStep(sent, ch, a, ch') && QueueGenuine(sent, ch.queue) && |ch.queue| <= ch.capacity
    requires AllSent(sent, es) && UpTo(es, ch.seqRx)
    ensures QueueGenuine(sent, ch'.queue) && |ch'.queue| <= ch'.capacity
    ensures AllSent(sent, es + a.out) && UpTo(es + a.out, ch'.seqRx)
    ensures StrictlyIncreasing(es + a.out) <==> StrictlyIncreasing(es) && (a.Timeout? ==> NoLeftover(ch))
  {
    hide AlarmStep, QueueGenuine, NoLeftover, StrictlyIncreasing, UpTo, AllSent;
    AlarmDelivers(sent, ch, a, ch');
    JoinRuns(es, a.out, ch.seqRx);
    AllSentJoin(sent, es, a.out);
    if a.out == [] {
      assert es + a.out == es;
    }
  }

  lemma MixedPrefix(sent: seq<Packet>, chs: seq<Channel>, alarms: seq<Alarm>)
    requires IsMixedReception(sent, chs, alarms) && alarms != []
    ensures
      var n := |alarms| - 1;
      IsMixedReception(sent, chs[..n + 1], alarms[..n]) && AlarmStep(sent, chs[n], alarms[n], chs[n + 1])
  {
    hide AlarmStep;
  }

  lemma AlarmDelivers(sent: seq<Packet>, ch: Channel, a: Alarm, ch': Channel)
    requires AlarmStep(sent, ch, a, ch') && QueueGenuine(sent, ch.queue) && |ch.queue| <= ch.capacity
    ensures DeliversRun(sent, ch, a.out, ch')
    ensures a.out == [] || a.out[0].seqNr >= ch.seqRx <==> (a.Timeout? ==> NoLeftover(ch))
    ensures a.Hear? && a.out != [] ==> a.out[0].seqNr == ch.seqRx
  {
    hide QueueGenuine, TimesOut, Hears, AllCopies, DeliversRun, NoLeftover;
    if a.Hear? {
      HearDelivers(sent, ch, a, ch');
    } else {
      TimeoutDelivers(sent, ch, a.out, ch');
    }
  }

  lemma AllSentJoin(sent: seq<Packet>, es: seq<RedPdu>, out: seq<RedPdu>)
    requires AllSent(sent, es) && AllSent(sent, out)
    ensures AllSent(sent, es + out)
  {
  }

  lemma ForwardSnoc(chs: seq<Channel>, alarms: seq<Alarm>)
    requires |chs| == |alarms| + 1 && alarms != []
    ensures
      var n := |alarms| - 1;
      ForwardOnly(chs, alarms) <==> ForwardOnly(chs[..n + 1], alarms[..n]) && (alarms[n].Timeout? ==> NoLeftover(chs[n]))
  {
    hide NoLeftover;
    var n := |alarms| - 1;
    assert forall k :: 0 <= k < n ==> alarms[..n][k] == alarms[k] && chs[..n + 1][k] == chs[k];
  }

  // ----- a run in which a number comes twice -----

  /** Copy number n of what was sent, received at time 0. */
  function CopyOf(sent: seq<Packet>, n: nat): RedPdu
    requires n < |sent|
  {
    RedPdu(n, sent[n], true, 0)
  }

  lemma FirstDatagram(sent: seq<Packet>, ch: Channel)
    requires |sent| > 2 && ch == Channel(sent[0].sender, 2, 0, multiset{})
    ensures
      var p := CopyOf(sent, 0);
      Hears(ch, 0, [p, p], 0, [p], ch.(seqRx := 1, queue := multiset{p}))
  {
    RepeatedPduLeavesCopy(ch, 0, CopyOf(sent, 0), 0);
    assert ch.queue + multiset{CopyOf(sent, 0)} == multiset{CopyOf(sent, 0)};
  }

  lemma SecondDatagram(sent: seq<Packet>, ch: Channel)
    requires |sent| > 2 && sent[0].sender == sent[2].sender
    requires ch == Channel(sent[0].sender, 2, 1, multiset{CopyOf(sent, 0)})
    ensures Hears(ch, 0, [CopyOf(sent, 2)], 0, [], ch.(queue := multiset{CopyOf(sent, 0), CopyOf(sent, 2)}))
  {
    var p := CopyOf(sent, 2);
    assert [p][..0] == [] && ReceiveAll(ch, 0, [], 0) == (ch, false);
    assert !Holds(ch.queue, 2);
    assert ch.queue + multiset{p} == multiset{CopyOf(sent, 0), p};
  }

  lemma TimeoutGoesBack(sent: seq<Packet>, ch: Channel)
    requires |sent| > 2 && ch == Channel(sent[0].sender, 2, 1, multiset{CopyOf(sent, 0), CopyOf(sent, 2)})
    ensures TimesOut(ch, [CopyOf(sent, 0)], ch.(seqRx := 1, queue := multiset{CopyOf(sent, 2)}))
  {
    var p, q := CopyOf(sent, 0), CopyOf(sent, 2);
    assert |ch.queue| == 2;
    assert p in ch.queue && IsMinimum(ch.queue, 0);
    assert multiset([p]) == multiset{p} && ch.queue - multiset{p} == multiset{q};
    assert Drains(ch.(seqRx := 0), [p], ch.(seqRx := 1, queue := multiset{q}));
  }

  /**
    The numbers do not always increase: whatever the first three PDUs of a peer are, a channel with two
    slots can hand up the first of them again.  Two copies of it in one datagram leave one behind, a
    PDU out of sequence fills the queue, and the timeout goes back to the copy.
   */
  lemma DeliveredTwice(sent: seq<Packet>) returns (chs: seq<Channel>, alarms: seq<Alarm>)
    requires |sent| > 2 && sent[0].sender == sent[2].sender
    ensures IsMixedReception(sent, chs, alarms) && chs[0].capacity == 2
    ensures Delivered(alarms) == [CopyOf(sent, 0), CopyOf(sent, 0)] && !StrictlyIncreasing(Delivered(alarms))
  {
    hide Hears, TimesOut;
    var p, q := CopyOf(sent, 0), CopyOf(sent, 2);
    var ch := Channel(sent[0].sender, 2, 0, multiset{});
    chs := [ch, ch.(seqRx := 1, queue := multiset{p}), ch.(seqRx := 1, queue := multiset{p, q}),
            ch.(seqRx := 1, queue := multiset{q})];
    alarms := [Hear(0, [p, p], 0, [p]), Hear(0, [q], 0, []), Timeout([p])];
    FirstDatagram(sent, chs[0]);
    SecondDatagram(sent, chs[1]);
    TimeoutGoesBack(sent, chs[2]);
    ThreeAlarms(alarms[0], alarms[1], alarms[2]);
    assert Delivered(alarms) == [p, p] && [p, p][0].seqNr == [p, p][1].seqNr;
  }

  lemma ThreeAlarms(a: Alarm, b: Alarm, c: Alarm)
    ensures Delivered([a, b, c]) == a.out + b.out + c.out
  {
    assert [a, b, c][..2] == [a, b] && [a, b][..1] == [a] && [a][..0] == [];
    assert Delivered([a][..0]) == [] && Delivered([a]) == a.out && Delivered([a, b]) == a.out + b.out;
  }
}

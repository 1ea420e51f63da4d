/**
  Which PDUs the redundancy layer keeps.  The reception window is pinned from below: a number is held
  or has been handed up exactly if a copy of it arrived inside the window while the queue had room,
  so that the number of PDUs handed up is the first number of which no copy did.
 */
module Reception {
  import opened Packets
  import opened Redundancy

  // ----- one datagram -----

  /** An intact copy of PDU n from the peer, inside the window; the very first PDU must be number 0. */
  predicate Brings(ch: Channel, seqTx: nat, p: RedPdu, n: nat) {
    && p.intact && p.inner.sender == ch.peer && p.seqNr == n
    && ch.seqRx <= n <= ch.seqRx + 10 * ch.capacity
    && (ch.seqRx == 0 && seqTx == 0 ==> n == 0)
  }

  /** The k-th PDU of the datagram meets a queue with room. */
  predicate MeetsRoom(ch: Channel, seqTx: nat, ps: seq<RedPdu>, now: nat, k: nat)
    requires k < |ps|
  {
    !Full(ReceiveAll(ch, seqTx, ps[..k], now).0)
  }

  /** Some copy of PDU n in the datagram is inside the window and meets room. */
  predicate Enters(ch: Channel, seqTx: nat, ps: seq<RedPdu>, now: nat, n: nat) {
    exists k :: 0 <= k < |ps| && Brings(ch, seqTx, ps[k], n) && MeetsRoom(ch, seqTx, ps, now, k)
  }

  lemma HoldsMore(q: multiset<RedPdu>, e: RedPdu, n: nat)
    ensures Holds(q + multiset{e}, n) <==> Holds(q, n) || e.seqNr == n
  {
    if x :| x in q && x.seqNr == n {
      assert x in q + multiset{e};
    }
    assert e in q + multiset{e};
  }

  lemma HeldAfterOne(ch: Channel, seqTx: nat, p: RedPdu, now: nat, n: nat)
    ensures
      Holds(Admit(ch, seqTx, p, now).0.queue, n) <==> Holds(ch.queue, n) || (Brings(ch, seqTx, p, n) && !Full(ch))
  {
    hide Holds;
    HoldsMore(ch.queue, p.(arrived := now), n);
  }

  lemma EntersSnoc(ch: Channel, seqTx: nat, ps: seq<RedPdu>, now: nat, n: nat)
    requires ps != []
    ensures
      var l := |ps| - 1;
      Enters(ch, seqTx, ps, now, n) <==>
      Enters(ch, seqTx, ps[..l], now, n) || (Brings(ch, seqTx, ps[l], n) && MeetsRoom(ch, seqTx, ps, now, l))
  {
    hide Brings, ReceiveAll;
    var l := |ps| - 1;
    var before := ps[..l];
    assert forall k :: 0 <= k < l ==> before[k] == ps[k] && before[..k] == ps[..k];
    if k :| 0 <= k < l && Brings(ch, seqTx, before[k], n) && MeetsRoom(ch, seqTx, before, now, k) {
      assert Brings(ch, seqTx, ps[k], n) && MeetsRoom(ch, seqTx, ps, now, k);
    }
    if k :| 0 <= k < l && Brings(ch, seqTx, ps[k], n) && MeetsRoom(ch, seqTx, ps, now, k) {
      assert Brings(ch, seqTx, before[k], n) && MeetsRoom(ch, seqTx, before, now, k);
    }
  }

  /** Behind a datagram a number is held exactly if it was held or a copy inside the window met room. */
  lemma {:induction false} HeldExactlyWhen(ch: Channel, seqTx: nat, ps: seq<RedPdu>, now: nat, n: nat)
    ensures Holds(ReceiveAll(ch, seqTx, ps, now).0.queue, n) <==> Holds(ch.queue, n) || Enters(ch, seqTx, ps, now, n)
  {
    if ps != [] {
      hide Holds, Admit, Enters, Brings;
      var l := |ps| - 1;
      HeldExactlyWhen(ch, seqTx, ps[..l], now, n);
      EntersSnoc(ch, seqTx, ps, now, n);
      QueueOnlyGrows(ch, seqTx, ps[..l], now);
      var ch1 := ReceiveAll(ch, seqTx, ps[..l], now).0;
      HeldAfterOne(ch1, seqTx, ps[l], now, n);
      SameWindow(ch, ch1, seqTx, ps[l], n);
    }
  }

  /** The window depends on the numbers of the channel alone. */
  lemma SameWindow(ch: Channel, ch': Channel, seqTx: nat, p: RedPdu, n: nat)
    requires ch'.(queue := ch.queue) == ch
    ensures Brings(ch', seqTx, p, n) <==> Brings(ch, seqTx, p, n)
  {
  }

  predicate CameNow(ps: seq<RedPdu>, now: nat, e: RedPdu) {
    exists k :: 0 <= k < |ps| && e == ps[k].(arrived := now)
  }

  /** What is new in the queue is a PDU of the datagram with the time of its arrival. */
  lemma {:induction false} NewEntriesAreDated(ch: Channel, seqTx: nat, ps: seq<RedPdu>, now: nat, e: RedPdu)
    requires e in ReceiveAll(ch, seqTx, ps, now).0.queue
    ensures e in ch.queue || CameNow(ps, now, e)
  {
    if ps != [] {
      var l := |ps| - 1;
      if e in ReceiveAll(ch, seqTx, ps[..l], now).0.queue {
        NewEntriesAreDated(ch, seqTx, ps[..l], now, e);
        if k :| 0 <= k < l && e == ps[..l][k].(arrived := now) {
          assert e == ps[k].(arrived := now);
        }
      } else {
        assert e == ps[l].(arrived := now);
      }
    }
  }

  // ----- one receive event -----

  predicate PassedOrHeld(ch: Channel, n: nat) {
    n < ch.seqRx || Holds(ch.queue, n)
  }

  /** A drain hands up what it takes off the queue and keeps the rest. */
  lemma DrainLosesNothing(ch: Channel, out: seq<RedPdu>, ch': Channel, n: nat)
    requires Draining(ch, out, ch')
    ensures PassedOrHeld(ch', n) <==> PassedOrHeld(ch, n)
  {
    DrainIsRun(ch, out, ch');
    if ch.seqRx <= n < ch'.seqRx {
      assert out[n - ch.seqRx] in ch.queue;
    } else if n >= ch'.seqRx && Holds(ch.queue, n) {
      var e :| e in ch.queue && e.seqNr == n;
      assert e !in multiset(out);
      assert e in ch'.queue;
    }
  }

  lemma HearsExactly(ch: Channel, seqTx: nat, ps: seq<RedPdu>, now: nat, out: seq<RedPdu>, ch': Channel, n: nat)
    requires Hears(ch, seqTx, ps, now, out, ch')
    ensures PassedOrHeld(ch', n) <==> PassedOrHeld(ch, n) || Enters(ch, seqTx, ps, now, n)
  {
    hide Holds, Draining, Enters, ReceiveAll;
    HeldExactlyWhen(ch, seqTx, ps, now, n);
    QueueOnlyGrows(ch, seqTx, ps, now);
    var (ch1, seen) := ReceiveAll(ch, seqTx, ps, now);
    if seen {
      DrainLosesNothing(ch1, out, ch', n);
    }
  }

  // ----- a whole reception -----

  /** During event j of the reception a copy of PDU n entered the queue. */
  predicate EntersAt(rs: seq<Receiver>, es: seq<Event>, j: nat, n: nat) {
    j < |es| && j < |rs| && Enters(rs[j].channel, es[j].seqTx, es[j].datagram, es[j].now, n)
  }

  /** A copy of PDU n entered during one of the first k events. */
  predicate EnteredBy(rs: seq<Receiver>, es: seq<Event>, k: nat, n: nat) {
    exists j :: 0 <= j < k && EntersAt(rs, es, j, n)
  }

  lemma EnteredSnoc(rs: seq<Receiver>, es: seq<Event>, k: nat, n: nat)
    ensures EnteredBy(rs, es, k, n) <==> k > 0 && (EnteredBy(rs, es, k - 1, n) || EntersAt(rs, es, k - 1, n))
  {
    hide EntersAt;
  }

  /** A PDU was handed up or is held exactly if a copy of it entered at some event. */
  lemma {:induction false} PassedOrHeldExactlyWhen(rs: seq<Receiver>, es: seq<Event>, sent: seq<Packet>, k: nat, n: nat)
    requires IsReception(rs, es, sent) && k < |rs|
    ensures PassedOrHeld(rs[k].channel, n) <==> EnteredBy(rs, es, k, n)
  {
    hide Hears, AllCopies, Handed, Enters, EnteredBy;
    EnteredSnoc(rs, es, k, n);
    if k > 0 {
      hide PassedOrHeld;
      PassedOrHeldExactlyWhen(rs, es, sent, k - 1, n);
      var e := es[k - 1];
      HearsExactly(rs[k - 1].channel, e.seqTx, e.datagram, e.now, e.out, rs[k].channel, n);
    }
  }

  /**
    Over every reception the number of PDUs handed up is the first number of which no copy entered: of
    every smaller number a copy arrived inside the window and met room, of this one none did.
   */
  lemma HandedUpToFirstMissing(rs: seq<Receiver>, es: seq<Event>, sent: seq<Packet>, k: nat)
    requires IsReception(rs, es, sent) && k < |rs|
    ensures
      var rx := rs[k].channel.seqRx;
      && |rs[k].handed| == rx
      && (forall n :: 0 <= n < rx ==> EnteredBy(rs, es, k, n))
      && !EnteredBy(rs, es, k, rx)
  {
    hide Hears, AllCopies, Handed, EnteredBy;
    HandedIsPrefixOfSent(rs, es, sent, k);
    forall n | 0 <= n < rs[k].channel.seqRx ensures EnteredBy(rs, es, k, n) {
      PassedOrHeldExactlyWhen(rs, es, sent, k, n);
    }
    PassedOrHeldExactlyWhen(rs, es, sent, k, rs[k].channel.seqRx);
  }

  /** A copy of PDU n arrived inside the window during event j. */
  predicate ComesAt(rs: seq<Receiver>, es: seq<Event>, j: nat, n: nat) {
    && j < |es| && j < |rs|
    && exists i :: 0 <= i < |es[j].datagram| && Brings(rs[j].channel, es[j].seqTx, es[j].datagram[i], n)
  }

  predicate CameBy(rs: seq<Receiver>, es: seq<Event>, k: nat, n: nat) {
    exists j :: 0 <= j < k && ComesAt(rs, es, j, n)
  }

  /** No PDU of event j meets a full queue. */
  predicate RoomAt(rs: seq<Receiver>, es: seq<Event>, j: nat) {
    && j < |es| && j < |rs|
    && forall i :: 0 <= i < |es[j].datagram| ==> MeetsRoom(rs[j].channel, es[j].seqTx, es[j].datagram, es[j].now, i)
  }

  lemma ComesInto(rs: seq<Receiver>, es: seq<Event>, j: nat, n: nat)
    requires ComesAt(rs, es, j, n) && RoomAt(rs, es, j)
    ensures EntersAt(rs, es, j, n)
  {
    hide Brings, MeetsRoom;
  }

  /** While the queue never is full, PDUs 0 to n of which a copy came inside the window are handed up. */
  lemma WithRoomAllAreHandedUp(rs: seq<Receiver>, es: seq<Event>, sent: seq<Packet>, k: nat, n: nat)
    requires IsReception(rs, es, sent) && k < |rs|
    requires forall j :: 0 <= j < k ==> RoomAt(rs, es, j)
    requires forall m :: 0 <= m <= n ==> CameBy(rs, es, k, m)
    ensures rs[k].channel.seqRx > n && |rs[k].handed| > n
  {
    hide IsReception, EntersAt, ComesAt, RoomAt;
    HandedUpToFirstMissing(rs, es, sent, k);
    var rx := rs[k].channel.seqRx;
    if rx <= n {
      assert CameBy(rs, es, k, rx);
      var j :| 0 <= j < k && ComesAt(rs, es, j, rx);
      ComesInto(rs, es, j, rx);
      assert false;
    }
  }

  // ----- no PDU is queued twice, but the expected one -----

  /** Behind the expected number nothing is queued twice. */
  predicate LaterOnce(ch: Channel) {
    forall e, f :: e in ch.queue && f in ch.queue && e.seqNr == f.seqNr > ch.seqRx ==> e == f && ch.queue[e] == 1
  }

  lemma AdmitOnce(ch: Channel, seqTx: nat, p: RedPdu, now: nat)
    requires LaterOnce(ch)
    ensures LaterOnce(Admit(ch, seqTx, p, now).0)
  {
    if p.seqNr > ch.seqRx && !Holds(ch.queue, p.seqNr) {
      assert forall e :: e in ch.queue ==> e.seqNr != p.seqNr;
    }
  }

  lemma {:induction false} ReceiveAllOnce(ch: Channel, seqTx: nat, ps: seq<RedPdu>, now: nat)
    requires LaterOnce(ch)
    ensures LaterOnce(ReceiveAll(ch, seqTx, ps, now).0)
  {
    if ps != [] {
      hide Admit, LaterOnce;
      ReceiveAllOnce(ch, seqTx, ps[..|ps| - 1], now);
      AdmitOnce(ReceiveAll(ch, seqTx, ps[..|ps| - 1], now).0, seqTx, ps[|ps| - 1], now);
    }
  }

  lemma DrainOnce(ch: Channel, out: seq<RedPdu>, ch': Channel)
    requires LaterOnce(ch) && Draining(ch, out, ch')
    ensures LaterOnce(ch')
  {
    assert ch'.queue <= ch.queue;
  }

  /** Copies from other channels and repetitions do not fill the queue: in every reception a later PDU is queued once. */
  lemma {:induction false} LaterPdusQueuedOnce(rs: seq<Receiver>, es: seq<Event>, sent: seq<Packet>, k: nat)
    requires IsReception(rs, es, sent) && k < |rs|
    ensures LaterOnce(rs[k].channel)
  {
    if k > 0 {
      hide AllCopies, Handed, LaterOnce, ReceiveAll, Draining;
      LaterPdusQueuedOnce(rs, es, sent, k - 1);
      var e := es[k - 1];
      ReceiveAllOnce(rs[k - 1].channel, e.seqTx, e.datagram, e.now);
      var (ch1, seen) := ReceiveAll(rs[k - 1].channel, e.seqTx, e.datagram, e.now);
      if seen {
        DrainOnce(ch1, e.out, rs[k].channel);
      }
    }
  }

  // ----- the verdict on the inner PDU -----

  /** Handing up loses the verdict on the safety code: PDUs that differ in it alone come up alike, as intact. */
  lemma VerdictIsLost(out: seq<RedPdu>, other: seq<RedPdu>)
    requires |out| == |other|
    requires forall k :: 0 <= k < |out| ==> out[k].inner.(intact := true) == other[k].inner.(intact := true)
    ensures Handed(out) == Handed(other) && forall k :: 0 <= k < |out| ==> Handed(out)[k].intact
  {
    assert forall k :: 0 <= k < |out| ==> Handed(out)[k] == Handed(other)[k];
  }
}

/** The redundancy channel as the object it is, proved against module Redundancy. */
module RedundancyChannels {
  import opened Packets
  import opened Fifos
  import opened Redundancy
  import opened DeferQueues

  lemma HandedStep(before: seq<Packet>, out: seq<RedPdu>, e: RedPdu)
    ensures before + Handed(out) + [Reencoded(e)] == before + Handed(out + [e])
  {
    HandedSnoc(out, e);
  }

  class RedundancyChannel {
    const peer: nat
    const deferQ: DeferQueue
    var seqRx: nat
    var seqTx: nat
    /** What was handed to the safety layer. */
    var handed: seq<Packet>
    /** Per transport channel: is it connected, and what was sent over it. */
    var connected: seq<bool>
    var outbox: seq<seq<RedPdu>>

    ghost predicate Valid()
      reads this, deferQ
    {
      deferQ.Valid() && |connected| == |outbox|
    }

    ghost function View(): Channel
      requires Valid()
      reads this, deferQ, deferQ.elements
    {
      Channel(peer, deferQ.maxCount, seqRx, multiset(deferQ.Entries()))
    }

    constructor (peer: nat, queueSize: nat, transports: nat)
      ensures Valid() && View() == Channel(peer, queueSize, 0, multiset{}) && seqTx == 0 && handed == []
      ensures connected == seq(transports, _ => false) && outbox == seq(transports, _ => [])
      ensures fresh(deferQ) && fresh(deferQ.elements)
    {
      this.peer := peer;
      deferQ := new DeferQueue(queueSize);
      seqRx, seqTx, handed := 0, 0, [];
      connected := seq(transports, _ => false);
      outbox := seq(transports, _ => []);
    }

    // ----- receiving -----

    method Queue(p: RedPdu, now: nat) returns (ok: bool)
      requires Valid()
      modifies deferQ, deferQ.elements
      ensures Valid() && View() == Add(old(View()), p, now)
    {
      ok := deferQ.Add(p, now);
    }

    method IsQueued(n: nat) returns (b: bool)
      requires Valid()
      ensures b <==> Holds(View().queue, n)
    {
      b := deferQ.Contains(n);
    }

    method IsFull() returns (full: bool)
      requires Valid()
      ensures full <==> Full(View())
    {
      full := deferQ.IsFull();
    }

    method ReceiveData(p: RedPdu, now: nat) returns (result: bool)
      requires Valid()
      modifies deferQ, deferQ.elements
      ensures Valid() && (View(), result) == Redundancy.ReceiveData(old(View()), seqTx, p, now)
    {
      hide Holds, Full;
      if !p.intact {
        return false;
      }
      if seqRx == 0 && seqTx == 0 && p.seqNr != 0 {
        return false;
      }
      if p.seqNr < seqRx {
        return false;
      } else if p.seqNr == seqRx {
        var ok := Queue(p, now);
        return true;
      } else if p.seqNr <= seqRx + deferQ.maxCount * 10 {
        var present := IsQueued(p.seqNr);
        if present {
          return false;
        } else {
          var full := IsFull();
          if full {
            return false;
          }
          var ok := Queue(p, now);
        }
      }
      return false;
    }

    /** The PDUs of one datagram, in order. */
    method ReceivePacket(ps: seq<RedPdu>, now: nat) returns (result: bool)
      requires Valid()
      modifies deferQ, deferQ.elements
      ensures Valid() && (View(), result) == ReceiveAll(old(View()), seqTx, ps, now)
    {
      result := false;
      for i := 0 to |ps|
        invariant Valid() && (View(), result) == ReceiveAll(old(View()), seqTx, ps[..i], now)
      {
        assert ps[..i + 1][..i] == ps[..i];
        var full := IsFull();
        if ps[i].inner.sender == peer && !full {
          var seen := ReceiveData(ps[i], now);
          result := result || seen;
        }
      }
      assert ps[..|ps|] == ps;
    }

    /** Hands up one queued PDU with the expected number and takes it off the queue. */
    method DeliverOne() returns (ghost e: RedPdu)
      requires Valid() && Holds(View().queue, seqRx)
      modifies this`seqRx, this`handed, deferQ, deferQ.elements
      ensures Valid() && e in old(View()).queue && e.seqNr == old(seqRx) && handed == old(handed) + [Reencoded(e)]
      ensures View() == old(View()).(seqRx := old(seqRx) + 1, queue := old(View()).queue - multiset{e})
      ensures |View().queue| < old(|View().queue|)
    {
      var queued := deferQ.Get(seqRx);
      e := queued.value;
      assert e in multiset(deferQ.Entries());
      handed := handed + [Reencoded(queued.value)];
      deferQ.Remove(seqRx);
      seqRx := seqRx + 1;
    }

    /** So far `out` was taken off the queue and handed up. */
    ghost predicate Delivering(ch: Channel, before: seq<Packet>, out: seq<RedPdu>)
      reads this, deferQ, deferQ.elements
    {
      Valid() && Draining(ch, out, View()) && handed == before + Handed(out)
    }

    method DeliverNext(ghost ch: Channel, ghost before: seq<Packet>, ghost out: seq<RedPdu>) returns (ghost e: RedPdu)
      requires Delivering(ch, before, out) && Holds(View().queue, seqRx)
      modifies this`seqRx, this`handed, deferQ, deferQ.elements
      ensures Delivering(ch, before, out + [e]) && |View().queue| < old(|View().queue|)
    {
      hide Holds, Draining, Handed, DeferQueue.Entries, DeferQueue.Valid, Reencoded;
      ghost var v := View();
      e := DeliverOne();
      DrainingStep(ch, out, v, e);
      HandedStep(before, out, e);
    }

    method DeliverDeferQueue() returns (ghost out: seq<RedPdu>)
      requires Valid()
      modifies this`seqRx, this`handed, deferQ, deferQ.elements
      ensures Valid() && Drains(old(View()), out, View()) && handed == old(handed) + Handed(out)
    {
      out := [];
      DrainingStart(View());
      var more := IsQueued(seqRx);
      while more
        invariant Delivering(old(View()), old(handed), out)
        invariant more <==> Holds(View().queue, seqRx)
        decreases |View().queue|
      {
        hide Holds, Draining, Handed, DeferQueue.Entries, DeferQueue.Valid;
        ghost var e := DeliverNext(old(View()), old(handed), out);
        out := out + [e];
        more := IsQueued(seqRx);
      }
    }

    /** One receive event. */
    method Hear(ps: seq<RedPdu>, now: nat) returns (ghost out: seq<RedPdu>)
      requires Valid()
      modifies this`seqRx, this`handed, deferQ, deferQ.elements
      ensures Valid() && Hears(old(View()), seqTx, ps, now, out, View()) && handed == old(handed) + Handed(out)
    {
      out := [];
      var seen := ReceivePacket(ps, now);
      if seen {
        out := DeliverDeferQueue();
      }
    }

    /**
      A jump to some number and a drain from there; on a full queue of 32-bit numbers it is the
      smallest queued one.
     */
    method DeferTmo() returns (ghost out: seq<RedPdu>)
      requires Valid() && deferQ.maxCount > 0
      modifies this`seqRx, this`handed, deferQ, deferQ.elements
      ensures Valid() && handed == old(handed) + Handed(out)
      ensures exists n: nat :: Drains(old(View()).(seqRx := n), out, View())
      ensures Full(old(View())) && (forall e :: e in old(View()).queue ==> e.seqNr < TWO_32) ==>
                TimesOut(old(View()), out, View())
    {
      ghost var ch := View();
      var i := deferQ.SmallestSeqNr();
      seqRx := deferQ.elements[i].seqNr;
      ghost var n := seqRx;
      if Full(ch) && forall e :: e in ch.queue ==> e.seqNr < TWO_32 {
        assert deferQ.Entries() == deferQ.elements[..];
        assert forall k :: 0 <= k < deferQ.maxCount ==> deferQ.elements[k] in ch.queue;
        assert IsMinimum(ch.queue, n);
      }
      out := DeliverDeferQueue();
    }

    // ----- sending -----

    /**
      Numbers the PDU and sends it over every transport channel that is connected or, for a client,
      can be connected again; `redial` tells which attempts succeed.
     */
    method MuxSend(p: Packet, client: bool, redial: seq<bool>)
      requires Valid() && |redial| == |connected|
      modifies this`seqTx, this`connected, this`outbox
      ensures Valid() && seqTx == old(seqTx) + 1
      ensures |connected| == old(|connected|)
      ensures forall k :: 0 <= k < |connected| ==>
                && connected[k] == (old(connected[k]) || (client && redial[k]))
                && outbox[k] == old(outbox[k]) + if connected[k] then [RedPdu(old(seqTx), p, true, 0)] else []
    {
      var copy := RedPdu(seqTx, p, true, 0);
      seqTx := seqTx + 1;
      for i := 0 to |connected|
        invariant |connected| == |outbox| == old(|connected|) && seqTx == old(seqTx) + 1
        invariant forall k :: 0 <= k < i ==>
                    && connected[k] == (old(connected[k]) || (client && redial[k]))
                    && outbox[k] == old(outbox[k]) + if connected[k] then [copy] else []
        invariant forall k :: i <= k < |connected| ==> connected[k] == old(connected[k]) && outbox[k] == old(outbox[k])
      {
        if !connected[i] {
          if client {
            if !redial[i] {
              continue;
            }
            connected := connected[i := true];
          } else {
            continue;
          }
        }
        outbox := outbox[i := outbox[i] + [copy]];
      }
    }
  }
}

/**
  The connection as the object it is: fields updated in place, three linked-list queues, handlers
  that call one another.  Every method is proved against the function of module SafetyLayer that
  states its effect on the value of the connection.
 */
module SrConnection {
  import opened Packets
  import opened Fifos
  import opened SL = SafetyLayer

  class Connection {
    const cfg: Config
    var role: Role
    var state: State
    var hbLocked: bool
    var snT: nat
    var snR: nat
    var snI: nat
    var csT: nat
    var csR: nat
    var tsR: nat
    var ctsR: nat
    const fifoSend: Fifo<Message>
    const fifoRetr: Fifo<Packet>
    const fifoRecv: Fifo<Message>
    var errors: Errors
    /** `log.sent` is what was handed to the redundancy layer; the rest is a record for the proofs. */
    var log: Log

    ghost predicate Valid()
      reads this, fifoSend, fifoRetr, fifoRecv, fifoSend.Repr, fifoRetr.Repr, fifoRecv.Repr
    {
      && fifoSend.Valid() && fifoRetr.Valid() && fifoRecv.Valid()
      && this !in fifoSend.Repr && this !in fifoRetr.Repr && this !in fifoRecv.Repr
      && fifoSend.Repr !! fifoRetr.Repr && fifoSend.Repr !! fifoRecv.Repr && fifoRetr.Repr !! fifoRecv.Repr
      && fifoSend.maxSize == 2 * cfg.maxPacket
      && fifoRetr.maxSize == cfg.retrQueueSize && fifoRecv.maxSize == cfg.recvQueueSize
    }

    ghost function View(): Conn
      reads this, fifoSend, fifoRetr, fifoRecv
    {
      Conn(cfg, role, state, hbLocked, snT, snR, snI, csT, csR, tsR, ctsR,
           fifoSend.Contents(), fifoRetr.Contents(), fifoRecv.Contents(), errors, log)
    }

    /** Only new nodes have joined the queues. */
    twostate predicate Grown()
      reads fifoSend, fifoRetr, fifoRecv
    {
      && fresh(fifoSend.Repr - old(fifoSend.Repr))
      && fresh(fifoRetr.Repr - old(fifoRetr.Repr))
      && fresh(fifoRecv.Repr - old(fifoRecv.Repr))
    }

    constructor (cfg: Config)
      ensures Valid() && View() == SL.Fresh(cfg)
      ensures fresh(fifoSend.Repr) && fresh(fifoRetr.Repr) && fresh(fifoRecv.Repr)
    {
      this.cfg := cfg;
      role, state, hbLocked := Client, Closed, true;
      snT, snR, snI, csT, csR, tsR, ctsR := 0, 0, 0, 0, 0, 0, 0;
      fifoRetr := new Fifo(cfg.retrQueueSize);
      fifoSend := new Fifo(2 * cfg.maxPacket);
      fifoRecv := new Fifo(cfg.recvQueueSize);
      errors, log := NO_ERRORS, EMPTY_LOG;
    }

    // ----- sending -----

    method MuxSend(p: Packet)
      requires Valid()
      modifies this`log
      ensures Valid() && View() == SL.Emit(old(View()), p)
    {
      log := log.(sent := log.sent + [p]);
    }

    method MakePdu(kind: Kind, now: nat) returns (p: Packet)
      requires Valid()
      ensures p == SL.Control(View(), kind, now)
    {
      p := Packet(kind, cfg.remoteId, cfg.myId, snT, csT, now, tsR, [], true, |log.batches|);
    }

    method SendDiscReq(now: nat)
      requires Valid()
      modifies this`log
      ensures Valid() && View() == SL.SendDiscReq(old(View()), now)
    {
      var p := MakePdu(DiscReq, now);
      MuxSend(p);
    }

    method SendHeartbeat(now: nat)
      requires Valid()
      modifies this`log, this`snT
      ensures Valid() && View() == SL.SendHeartbeat(old(View()), now)
    {
      var p := MakePdu(Heartbeat, now);
      MuxSend(p);
      snT := snT + 1;
    }

    method SendRetrReq(now: nat)
      requires Valid()
      modifies this`log, this`snT
      ensures Valid() && View() == SL.SendRetrReq(old(View()), now)
    {
      var p := MakePdu(RetrReq, now);
      MuxSend(p);
      snT := snT + 1;
    }

    method SendRetrResp(now: nat)
      requires Valid()
      modifies this`log, this`snT
      ensures Valid() && View() == SL.SendRetrResp(old(View()), now)
    {
      var p := MakePdu(RetrResp, now);
      MuxSend(p);
      snT := snT + 1;
    }

    // ----- closing -----

    method Reset()
      requires Valid()
      modifies this`state, this`hbLocked, this`errors
      ensures Valid() && View() == SL.Reset(old(View()))
    {
      state := Closed;
      hbLocked := true;
      errors := NO_ERRORS;
    }

    method Close(now: nat)
      requires Valid()
      modifies this`state, this`hbLocked, this`errors, this`log
      ensures Valid() && View() == SL.Close(old(View()), now)
    {
      if state == Down || state == Closed {
        Reset();
      } else {
        Reset();
        SendDiscReq(now);
        state := Closed;
      }
    }

    // ----- queues -----

    /** Pops n messages off the send queue. */
    method TakeBatch(n: nat) returns (batch: seq<Message>)
      requires Valid() && n <= |fifoSend.Contents()|
      modifies fifoSend
      ensures Valid() && fifoSend.Repr == old(fifoSend.Repr)
      ensures batch == old(fifoSend.Contents())[..n]
      ensures View() == old(View()).(fifoSend := old(fifoSend.Contents())[n..])
    {
      ghost var queued := fifoSend.Contents();
      batch := [];
      for i := 0 to n
        invariant Valid() && fifoSend.Repr == old(fifoSend.Repr)
        invariant fifoSend.Contents() == queued[i..] && batch == queued[..i]
      {
        var m := fifoSend.Pop();
        batch := batch + [m.value];
      }
    }

    /** Queues a PDU for retransmission; tells whether there was room. */
    method KeepForRetransmission(p: Packet) returns (ok: bool)
      requires Valid()
      modifies fifoRetr.Repr
      ensures Valid() && Grown() && ok == (|old(fifoRetr.Contents())| < cfg.retrQueueSize)
      ensures View() == if ok then old(View()).(fifoRetr := old(fifoRetr.Contents()) + [p]) else old(View())
    {
      ok := fifoRetr.Push(Some(p));
    }

    /** Packs the first n queued messages into a data PDU, keeps a copy and sends it. */
    method SendBatch(n: nat, now: nat)
      requires Valid() && n <= |fifoSend.Contents()| && |fifoRetr.Contents()| < cfg.retrQueueSize
      modifies this`log, this`snT, fifoSend.Repr, fifoRetr.Repr
      ensures Valid() && Grown()
      ensures
        var c := old(View());
        var p := SL.Pdu(c, Data, c.tsR, c.fifoSend[..n], |c.log.batches|, now);
        View() == c.(snT := c.snT + 1, fifoSend := c.fifoSend[n..], fifoRetr := c.fifoRetr + [p],
                  log := c.log.(sent := c.log.sent + [p], batches := c.log.batches + [p.batch]))
    {
      hide Fifo.Valid, Fifo.Contents;
      var batch := TakeBatch(n);
      var p := Packet(Data, cfg.remoteId, cfg.myId, snT, csT, now, tsR, batch, true, |log.batches|);
      var ok := KeepForRetransmission(p);
      MuxSend(p);
      log := log.(batches := log.batches + [batch]);
      snT := p.sn + 1;
    }

    method DataSend(now: nat)
      requires Valid()
      modifies this`log, this`snT, fifoSend.Repr, fifoRetr.Repr
      ensures Valid() && Grown() && View() == SL.DataSend(old(View()), now)
    {
      var backlog := fifoRetr.size;
      if backlog < cfg.retrQueueSize {
        var available := cfg.retrQueueSize - backlog;
        var n := fifoSend.size;
        if available < n {
          n := available;
        }
        if n > 0 {
          if n >= cfg.maxPacket {
            n := cfg.maxPacket;
          }
          assert n == SL.BatchSize(View());
          SendBatch(n, now);
        }
      }
    }

    method RemoveConfirmed(now: nat)
      requires Valid()
      modifies this`log, this`snT, fifoSend.Repr, fifoRetr.Repr
      ensures Valid() && Grown() && View() == SL.RemoveConfirmed(old(View()), now)
    {
      PopConfirmed();
      var full := fifoSend.IsFull();
      if full {
        DataSend(now);
      }
    }

    method PopConfirmed()
      requires Valid()
      modifies fifoRetr
      ensures Valid() && fifoRetr.Repr == old(fifoRetr.Repr)
      ensures View() == old(View()).(fifoRetr := SL.PopConfirmed(old(fifoRetr.Contents()), csR))
    {
      var elem := fifoRetr.Pop();
      while elem.Some?
        invariant Valid() && fifoRetr.Repr == old(fifoRetr.Repr)
        invariant SL.PopConfirmed(old(fifoRetr.Contents()), csR) ==
                  if elem.None? then fifoRetr.Contents()
                  else SL.PopConfirmed([elem.value] + fifoRetr.Contents(), csR)
        decreases |fifoRetr.Contents()|, elem.Some?
      {
        if elem.value.sn == csR {
          break;
        }
        elem := fifoRetr.Pop();
      }
    }

    /** Empties the retransmission queue into a buffer. */
    method TakeUnconfirmed() returns (packets: seq<Packet>)
      requires Valid()
      modifies fifoRetr
      ensures Valid() && fifoRetr.Repr == old(fifoRetr.Repr)
      ensures packets == old(fifoRetr.Contents()) && View() == old(View()).(fifoRetr := [])
    {
      ghost var queued := fifoRetr.Contents();
      var n := fifoRetr.size;
      packets := [];
      for j := 0 to n
        invariant Valid() && fifoRetr.Repr == old(fifoRetr.Repr)
        invariant fifoRetr.Contents() == queued[j..] && packets == queued[..j]
      {
        var element := fifoRetr.Pop();
        packets := packets + [element.value];
      }
    }

    /** Sends one PDU of the buffer again, under the next number, and queues it again. */
    method RetransmitOne(old_: Packet, now: nat) returns (ok: bool)
      requires Valid()
      modifies this`log, this`snT, fifoRetr.Repr
      ensures Valid() && Grown() && ok == (|old(fifoRetr.Contents())| < cfg.retrQueueSize)
      ensures
        var c := old(View());
        var p := SL.Pdu(c, RetrData, c.tsR, old_.batch, old_.origin, now);
        View() == c.(snT := c.snT + 1, fifoRetr := if ok then c.fifoRetr + [p] else c.fifoRetr,
                  log := c.log.(sent := c.log.sent + [p]))
    {
      hide Fifo.Valid, Fifo.Contents;
      var p := Packet(RetrData, cfg.remoteId, cfg.myId, snT, csT, now, tsR, old_.batch, true, old_.origin);
      ok := KeepForRetransmission(p);
      MuxSend(p);
      snT := snT + 1;
    }

    /** The connection after k of its queued PDUs have been sent again. */
    static ghost function Retransmitting(c: Conn, k: nat, now: nat): Conn
      requires k <= |c.fifoRetr|
    {
      var b := SL.Burst(c, now)[..k];
      c.(fifoRetr := b, snT := c.snT + k, log := c.log.(sent := c.log.sent + b))
    }

    static lemma RetransmittingStep(c: Conn, k: nat, now: nat)
      requires k < |c.fifoRetr|
      ensures
        var d := Retransmitting(c, k, now);
        var p := SL.Pdu(d, RetrData, d.tsR, c.fifoRetr[k].batch, c.fifoRetr[k].origin, now);
        && |d.fifoRetr| == k && d.cfg == c.cfg
        && Retransmitting(c, k + 1, now) ==
           d.(snT := d.snT + 1, fifoRetr := d.fifoRetr + [p], log := d.log.(sent := d.log.sent + [p]))
    {
      var b := SL.Burst(c, now);
      assert b[..k + 1] == b[..k] + [b[k]] && b[k] == SL.Renumbered(c, k, now);
    }

    static lemma RetransmittingEnds(c: Conn, now: nat)
      ensures Retransmitting(c, 0, now) == c.(fifoRetr := [])
      ensures SL.SendHeartbeat(Retransmitting(c, |c.fifoRetr|, now), now) == SL.Retransmit(c, now)
    {
      var b := SL.Burst(c, now);
      assert b[..|c.fifoRetr|] == b && c.log.sent + [] == c.log.sent;
    }

    /** No push back into the queue fails: it never holds more PDUs than before. */
    method ResendAll(ghost c: Conn, packets: seq<Packet>, now: nat)
      requires Valid() && View() == Retransmitting(c, 0, now)
      requires packets == c.fifoRetr && |packets| <= cfg.retrQueueSize
      modifies this`log, this`snT, fifoRetr.Repr
      ensures Valid() && Grown() && View() == Retransmitting(c, |packets|, now)
    {
      hide Fifo.Valid, Fifo.Contents, Retransmitting;
      for i := 0 to |packets|
        invariant Valid() && Grown() && View() == Retransmitting(c, i, now)
      {
        RetransmittingStep(c, i, now);
        var ok := RetransmitOne(packets[i], now);
        assert ok;
      }
    }

    lemma QueuesWithinBounds()
      requires Valid()
      ensures |fifoRetr.Contents()| <= cfg.retrQueueSize && |fifoRecv.Contents()| <= cfg.recvQueueSize
    {
    }

    method Retransmit(now: nat)
      requires Valid()
      modifies this`log, this`snT, fifoRetr.Repr
      ensures Valid() && Grown() && View() == SL.Retransmit(old(View()), now)
    {
      hide Fifo.Valid, Fifo.Contents, Retransmitting;
      ghost var c := View();
      QueuesWithinBounds();
      RetransmittingEnds(c, now);
      var packets := TakeUnconfirmed();
      ResendAll(c, packets, now);
      SendHeartbeat(now);
    }

    /** Pushes as many messages as the receive queue takes. */
    method PushReceived(batch: seq<Message>) returns (k: nat)
      requires Valid()
      modifies fifoRecv.Repr
      ensures Valid() && Grown()
      ensures k == SL.Min(|batch|, SL.FreeRoom(cfg.recvQueueSize, |old(fifoRecv.Contents())|))
      ensures View() == old(View()).(fifoRecv := old(fifoRecv.Contents()) + batch[..k])
    {
      hide Fifo.Valid, Fifo.Contents;
      k := 0;
      ghost var queued := fifoRecv.Contents();
      QueuesWithinBounds();
      while k < |batch|
        invariant 0 <= k <= |batch| && Valid() && Grown()
        invariant fifoRecv.Contents() == queued + batch[..k]
        invariant |queued| + k <= cfg.recvQueueSize
      {
        var full := fifoRecv.IsFull();
        if full {
          break;
        }
        var ok := fifoRecv.Push(Some(batch[k]));
        assert queued + batch[..k] + [batch[k]] == queued + batch[..k + 1];
        k := k + 1;
      }
    }

    method AddAppMessages(p: Packet)
      requires Valid()
      modifies this`log, fifoRecv.Repr
      ensures Valid() && Grown() && View() == SL.AddAppMessages(old(View()), p)
    {
      hide Fifo.Valid, Fifo.Contents;
      var k := PushReceived(p.batch);
      log := log.(accepted := log.accepted + [p], delivered := log.delivered + p.batch[..k],
             dropped := log.dropped + |p.batch| - k);
    }

    // ----- handlers -----

    method UpdateConnection(p: Packet)
      requires Valid()
      modifies this`snR, this`csT, this`tsR
      ensures Valid() && View() == SL.UpdateConnection(old(View()), p)
    {
      hide Fifo.Valid, Fifo.Contents;
      snR := p.sn + 1;
      csT := p.sn;
      tsR := p.ts;
    }

    method UpdateConfirmed(p: Packet)
      requires Valid()
      modifies this`ctsR, this`csR
      ensures Valid() && View() == SL.UpdateConfirmed(old(View()), p)
    {
      hide Fifo.Valid, Fifo.Contents;
      ctsR := p.cts;
      csR := p.cs;
    }

    method SnInSeq(p: Packet) returns (b: bool)
      ensures b == SL.SnInSeq(View(), p)
    {
      if p.kind == ConnReq || p.kind == ConnResp || p.kind == RetrResp || p.kind == DiscReq {
        b := true;
      } else {
        b := snR == p.sn;
      }
    }

    method CtsInSeq(p: Packet) returns (b: bool)
      ensures b == SL.CtsInSeq(View(), p)
    {
      if p.kind == Heartbeat || p.kind == Data || p.kind == RetrData {
        if ctsR == 0 {
          return true;
        }
        if p.cts < ctsR {
          return false;
        }
        return p.cts - ctsR < cfg.tMax;
      } else {
        return true;
      }
    }

    method AskForRetransmission(now: nat)
      requires Valid()
      modifies this`log, this`snT, this`state
      ensures Valid() && View() == SL.SendRetrReq(old(View()), now).(state := RetrRequested)
    {
      hide Fifo.Valid, Fifo.Contents;
      SendRetrReq(now);
      state := RetrRequested;
    }

    method HandleDiscReq()
      requires Valid()
      modifies this`state, this`hbLocked, this`errors
      ensures Valid() && View() == SL.HandleDiscReq(old(View()))
    {
      hide Fifo.Valid, Fifo.Contents;
      state := Closed;
      Reset();
    }

    /** Buffers a data PDU, records its numbers and drops what it confirms. */
    method Accept(p: Packet, now: nat)
      requires Valid()
      modifies this, fifoSend.Repr, fifoRetr.Repr, fifoRecv.Repr
      ensures Valid() && Grown()
      ensures View() ==
              SL.RemoveConfirmed(SL.UpdateConfirmed(SL.UpdateConnection(SL.AddAppMessages(old(View()), p), p), p), now)
    {
      hide Fifo.Valid, Fifo.Contents;
      hide SL.RemoveConfirmed, SL.AddAppMessages;
      AddAppMessages(p);
      UpdateConnection(p);
      UpdateConfirmed(p);
      RemoveConfirmed(now);
    }

    method HandleData(p: Packet, now: nat)
      requires Valid() && p.kind == Data
      modifies this, fifoSend.Repr, fifoRetr.Repr, fifoRecv.Repr
      ensures Valid() && Grown() && View() == SL.HandleData(old(View()), p, now)
    {
      hide Fifo.Valid, Fifo.Contents, SL.SnInSeq, SL.HandleData;
      var inSeq := SnInSeq(p);
      if inSeq {
        DataInSequence(p, now);
      } else {
        DataOutOfSequence(p, now);
      }
    }

    method DataInSequence(p: Packet, now: nat)
      requires Valid() && p.kind == Data && SL.SnInSeq(View(), p)
      modifies this, fifoSend.Repr, fifoRetr.Repr, fifoRecv.Repr
      ensures Valid() && Grown() && View() == SL.HandleData(old(View()), p, now)
    {
      hide Fifo.Valid, Fifo.Contents;
      hide SL.RemoveConfirmed, SL.AddAppMessages, SL.Close, SL.SnInSeq, SL.CtsInSeq;
      hide SL.UpdateConnection, SL.UpdateConfirmed;
      var ctsOk := CtsInSeq(p);
      if state == Start {
        Close(now);
      } else if state == Up {
        if ctsOk {
          Accept(p, now);
        } else {
          errors := errors.(cs := errors.cs + 1);
          Close(now);
        }
      } else if state == RetrRunning {
        if ctsOk {
          UpdateConnection(p);
        } else {
          Close(now);
        }
      }
    }

    method DataOutOfSequence(p: Packet, now: nat)
      requires Valid() && p.kind == Data && !SL.SnInSeq(View(), p)
      modifies this
      ensures Valid() && View() == SL.HandleData(old(View()), p, now)
    {
      hide Fifo.Valid, Fifo.Contents;
      hide SL.Close, SL.SnInSeq, SL.SendRetrReq;
      if state == Start {
        Close(now);
      } else if state == RetrRunning || state == Up {
        errors := errors.(sn := errors.sn + 1);
        AskForRetransmission(now);
      }
    }

    method Respond(p: Packet, now: nat)
      requires Valid()
      modifies this, fifoSend.Repr, fifoRetr.Repr, fifoRecv.Repr
      ensures Valid() && Grown() && View() == SL.Respond(old(View()), p, now)
    {
      hide Fifo.Valid, Fifo.Contents;
      hide SL.RemoveConfirmed, SL.Retransmit;
      csR := p.cs;
      RemoveConfirmed(now);
      SendRetrResp(now);
      Retransmit(now);
    }

    method HandleRetrReq(p: Packet, now: nat)
      requires Valid() && p.kind == RetrReq
      modifies this, fifoSend.Repr, fifoRetr.Repr, fifoRecv.Repr
      ensures Valid() && Grown() && View() == SL.HandleRetrReq(old(View()), p, now)
    {
      hide Fifo.Valid, Fifo.Contents;
      hide SL.Respond, SL.Close;
      var inSeq := SnInSeq(p);
      if inSeq {
        if state == RetrRunning {
          Close(now);
        }
        UpdateConnection(p);
        Respond(p, now);
      } else {
        Respond(p, now);
        state := RetrRequested;
      }
    }

    method HandleRetrResp(p: Packet, now: nat)
      requires Valid() && p.kind == RetrResp
      modifies this
      ensures Valid() && View() == SL.HandleRetrResp(old(View()), p, now)
    {
      hide Fifo.Valid, Fifo.Contents;
      if state == RetrRequested {
        state := RetrRunning;
        UpdateConnection(p);
        UpdateConfirmed(p);
      } else {
        Close(now);
      }
    }

    /** Buffers a retransmitted PDU and records its numbers. */
    method TakeRetransmitted(p: Packet)
      requires Valid()
      modifies this, fifoRecv.Repr
      ensures Valid() && Grown()
      ensures View() == SL.UpdateConnection(SL.AddAppMessages(old(View()), p), p).(csR := p.cs)
    {
      hide Fifo.Valid, Fifo.Contents;
      hide SL.AddAppMessages;
      AddAppMessages(p);
      UpdateConnection(p);
      csR := p.cs;
    }

    method HandleRetrData(p: Packet, now: nat)
      requires Valid() && p.kind == RetrData
      modifies this, fifoRecv.Repr
      ensures Valid() && Grown() && View() == SL.HandleRetrData(old(View()), p, now)
    {
      hide Fifo.Valid, Fifo.Contents;
      hide SL.AddAppMessages, SL.Close, SL.SnInSeq, SL.CtsInSeq, SL.UpdateConnection, SL.SendRetrReq;
      var inSeq := SnInSeq(p);
      var ctsOk := CtsInSeq(p);
      if inSeq {
        if state == Up {
          Close(now);
        } else if state == RetrRunning {
          if !ctsOk {
            Close(now);
          } else {
            TakeRetransmitted(p);
          }
        }
      } else {
        if state == Up {
          Close(now);
        } else if state == RetrRunning {
          AskForRetransmission(now);
        }
      }
    }

    method Establish(p: Packet)
      requires Valid()
      modifies this
      ensures Valid()
      ensures View() == SL.UpdateConnection(old(View()), p).(csR := p.cs, state := Up, hbLocked := false)
    {
      hide Fifo.Valid, Fifo.Contents;
      UpdateConnection(p);
      csR := p.cs;
      state := Up;
      hbLocked := false;
    }

    /** The handshake goes on even after the closing branches. */
    method HandleFirstHeartbeat(p: Packet, now: nat)
      requires Valid() && p.kind == Heartbeat && state == Start
      modifies this
      ensures Valid() && View() == SL.HandleFirstHeartbeat(old(View()), p, now)
    {
      hide Fifo.Valid, Fifo.Contents;
      hide SL.Close;
      var inSeq := SnInSeq(p);
      if !inSeq {
        Close(now);
      }
      if role == Client {
        Close(now);
      }
      var ctsOk := CtsInSeq(p);
      if ctsOk {
        Establish(p);
      } else {
        Close(now);
      }
    }

    /** Records a heartbeat, drops what it confirms and ends a retransmission. */
    method Confirm(p: Packet, now: nat)
      requires Valid() && (state == Up || state == RetrRunning)
      modifies this, fifoSend.Repr, fifoRetr.Repr, fifoRecv.Repr
      ensures Valid() && Grown()
      ensures View() ==
              SL.RemoveConfirmed(SL.UpdateConfirmed(SL.UpdateConnection(old(View()), p), p), now).(state := Up)
    {
      hide Fifo.Valid, Fifo.Contents;
      hide SL.RemoveConfirmed;
      UpdateConnection(p);
      UpdateConfirmed(p);
      ghost var c := View();
      RemoveConfirmed(now);
      RemovalKeepsState(c, now);
      if state == RetrRunning {
        state := Up;
      }
    }

    method HandleHeartbeat(p: Packet, now: nat)
      requires Valid() && p.kind == Heartbeat
      modifies this, fifoSend.Repr, fifoRetr.Repr, fifoRecv.Repr
      ensures Valid() && Grown() && View() == SL.HandleHeartbeat(old(View()), p, now)
    {
      hide Fifo.Valid, Fifo.Contents;
      hide SL.RemoveConfirmed, SL.Close, SL.HandleFirstHeartbeat, SL.SnInSeq, SL.CtsInSeq;
      hide SL.UpdateConnection, SL.UpdateConfirmed;
      if state == Start {
        HandleFirstHeartbeat(p, now);
        return;
      }
      var inSeq := SnInSeq(p);
      var ctsOk := CtsInSeq(p);
      if inSeq {
        if state == Up || state == RetrRunning {
          if ctsOk {
            Confirm(p, now);
          } else {
            Close(now);
          }
        }
      } else {
        if state == Up || state == RetrRunning {
          state := RetrRequested;
        }
      }
    }

    static lemma RemovalKeepsState(c: Conn, now: nat)
      ensures SL.RemoveConfirmed(c, now).state == c.state
    {
    }

    method Check(p: Packet) returns (ok: bool)
      ensures ok == SL.CheckPacket(View(), p)
    {
      var inSeq := SnInSeq(p);
      var ctsOk := CtsInSeq(p);
      var inRange := SnRangeValid(p);
      var csOk := CsValid(p);
      ok := p.intact && p.sender == cfg.remoteId && p.receiver == cfg.myId && inRange && csOk && inSeq && ctsOk;
    }

    method SnRangeValid(p: Packet) returns (b: bool)
      ensures b == SL.SnRangeValid(View(), p)
    {
      if p.kind == ConnReq || p.kind == ConnResp || p.kind == RetrResp {
        return true;
      }
      return p.sn >= snR && p.sn - snR <= cfg.sendMax * 10;
    }

    method CsValid(p: Packet) returns (b: bool)
      ensures b == SL.CsValid(View(), p)
    {
      if p.kind == ConnReq {
        return p.cs == 0;
      } else if p.kind == ConnResp {
        return p.cs == snT - 1;
      } else {
        return p.cs >= csR && p.cs - csR < snT - csR;
      }
    }

    /** Records a connection request and answers it. */
    method Answer(p: Packet, now: nat)
      requires Valid()
      modifies this
      ensures Valid()
      ensures
        var c := SL.UpdateConfirmed(SL.UpdateConnection(old(View()), p), p);
        View() == SL.EmitNumbered(c, SL.Control(c, ConnResp, now).(cts := c.ctsR)).(state := Start)
    {
      hide Fifo.Valid, Fifo.Contents;
      UpdateConnection(p);
      UpdateConfirmed(p);
      var resp := MakePdu(ConnResp, now);
      resp := resp.(cts := ctsR);
      snT := snT + 1;
      state := Start;
      MuxSend(resp);
    }

    method HandleConnReq(p: Packet, env: Env)
      requires Valid() && p.kind == ConnReq
      modifies this
      ensures Valid() && View() == SL.HandleConnReq(old(View()), p, env)
    {
      hide Fifo.Valid, Fifo.Contents;
      hide SL.CheckPacket, SL.Close, SL.UpdateConnection, SL.UpdateConfirmed, SL.EmitNumbered, SL.Control;
      if state == Closed || state == Down {
        PrepareServer();
        var ok := Check(p);
        if !ok {
          Close(env.now);
          return;
        }
        if env.versionOk {
          Answer(p, env.now);
        } else {
          Close(env.now);
        }
      } else {
        Close(env.now);
      }
    }

    /** Takes the role of a server with fresh numbers. */
    method PrepareServer()
      requires Valid()
      modifies this
      ensures Valid()
      ensures
        var c := old(View());
        View() == SL.Reset(c).(role := Server, snT := c.cfg.initialSn, snI := c.cfg.initialSn, state := Down)
    {
      hide Fifo.Valid, Fifo.Contents;
      Reset();
      role, snI, snT, state := Server, cfg.initialSn, cfg.initialSn, Down;
    }

    /** Records a connection response and sends the heartbeat that completes the handshake. */
    method CompleteHandshake(p: Packet, now: nat)
      requires Valid()
      modifies this
      ensures Valid()
      ensures View() == SL.SendHeartbeat(SL.UpdateConnection(old(View()), p).(csR := p.cs, state := Up), now)
                        .(hbLocked := false)
    {
      hide Fifo.Valid, Fifo.Contents;
      UpdateConnection(p);
      csR := p.cs;
      state := Up;
      SendHeartbeat(now);
      hbLocked := false;
    }

    method HandleConnResp(p: Packet, env: Env)
      requires Valid() && p.kind == ConnResp
      modifies this
      ensures Valid() && View() == SL.HandleConnResp(old(View()), p, env)
    {
      hide Fifo.Valid, Fifo.Contents;
      hide SL.CheckPacket, SL.Close, SL.SendHeartbeat;
      var ok := Check(p);
      if !ok {
        Close(env.now);
        return;
      }
      if state == Start {
        if role == Client {
          if env.versionOk {
            CompleteHandshake(p, env.now);
          } else {
            Close(env.now);
          }
        } else {
          Close(env.now);
        }
      } else if state == RetrRequested || state == RetrRunning || state == Up {
        Close(env.now);
      }
    }

    method HandleChecked(p: Packet, now: nat)
      requires Valid()
      modifies this, fifoSend.Repr, fifoRetr.Repr, fifoRecv.Repr
      ensures Valid() && Grown() && View() == SL.HandleChecked(old(View()), p, now)
    {
      hide Fifo.Valid, Fifo.Contents;
      hide SL.HandleRetrData, SL.HandleData, SL.HandleRetrReq, SL.HandleRetrResp, SL.HandleHeartbeat;
      match p.kind {
        case RetrData => HandleRetrData(p, now);
        case Data => HandleData(p, now);
        case RetrReq => HandleRetrReq(p, now);
        case RetrResp => HandleRetrResp(p, now);
        case DiscReq => HandleDiscReq();
        case Heartbeat => HandleHeartbeat(p, now);
        case _ => errors := errors.(kind := errors.kind + 1);
      }
    }

    method Receive(p: Packet, env: Env)
      requires Valid()
      modifies this, fifoSend.Repr, fifoRetr.Repr, fifoRecv.Repr
      ensures Valid() && Grown() && View() == SL.Receive(old(View()), p, env)
    {
      hide Fifo.Valid, Fifo.Contents;
      hide SL.HandleConnReq, SL.HandleConnResp, SL.HandleChecked, SL.SnRangeValid, SL.CsValid;
      if p.kind == ConnReq {
        HandleConnReq(p, env);
        return;
      }
      if p.kind == ConnResp {
        HandleConnResp(p, env);
        return;
      }
      if !p.intact {
        errors := errors.(safety := errors.safety + 1);
        return;
      }
      if p.sender != cfg.remoteId || p.receiver != cfg.myId {
        errors := errors.(address := errors.address + 1);
        return;
      }
      var inRange := SnRangeValid(p);
      if !inRange {
        errors := errors.(sn := errors.sn + 1);
        return;
      }
      var csOk := CsValid(p);
      if !csOk {
        errors := errors.(cs := errors.cs + 1);
        return;
      }
      HandleChecked(p, env.now);
    }

    // ----- operations of the application and of the timers -----

    /** Queues one message, flushing first when the queue is full. */
    method EnqueueOne(m: Message, now: nat) returns (ok: bool)
      requires Valid()
      modifies this, fifoSend.Repr, fifoRetr.Repr, fifoRecv.Repr
      ensures Valid() && Grown()
      ensures
        var c := if SL.SendQueueFull(old(View())) then SL.DataSend(old(View()), now) else old(View());
        && ok == !SL.SendQueueFull(c) && c.log.submitted == old(log.submitted)
        && View() == if ok then c.(fifoSend := c.fifoSend + [m], log := c.log.(submitted := c.log.submitted + [m]))
                     else c
    {
      hide Fifo.Valid, Fifo.Contents, SL.DataSend, SL.SendQueueFull;
      FlushKeepsSubmitted(View(), now);
      var full := SendQueueIsFull();
      if full {
        DataSend(now);
      }
      ok := PushToSend(m);
    }

    static lemma FlushKeepsSubmitted(c: Conn, now: nat)
      ensures SL.DataSend(c, now).log.submitted == c.log.submitted
    {
    }

    method SendQueueIsFull() returns (full: bool)
      requires Valid()
      ensures full <==> SL.SendQueueFull(View())
    {
      full := fifoSend.IsFull();
    }

    method PushToSend(m: Message) returns (ok: bool)
      requires Valid()
      modifies this`log, fifoSend.Repr
      ensures Valid() && Grown() && ok == !SL.SendQueueFull(old(View()))
      ensures
        var c := old(View());
        View() == if ok then c.(fifoSend := c.fifoSend + [m], log := c.log.(submitted := c.log.submitted + [m]))
                  else c
    {
      ok := fifoSend.Push(Some(m));
      if ok {
        log := log.(submitted := log.submitted + [m]);
      }
    }

    method Submit(ms: seq<Message>, now: nat) returns (result: int)
      requires Valid()
      modifies this, fifoSend.Repr, fifoRetr.Repr, fifoRecv.Repr
      ensures Valid() && Grown() && View() == SL.Submit(old(View()), ms, now)
      ensures result == 0 || result == -1
      ensures old(state) == Up && |ms| <= cfg.maxPacket ==>
                (result == 0 <==> log.submitted == old(log.submitted) + ms)
      ensures old(state) != Up || |ms| > cfg.maxPacket ==>
                (result == 0 <==> old(state) == Closed || old(state) == Down)
    {
      if state == Up {
        if |ms| > cfg.maxPacket {
          return -1;
        }
        result := Enqueue(ms, now);
      } else if state == Closed || state == Down {
        state := Closed;
        result := 0;
      } else {
        SendDiscReq(now);
        state := Closed;
        result := -1;
      }
    }

    /** The queueing loop of sr_send; it gives up at the first message there is no room for. */
    method Enqueue(ms: seq<Message>, now: nat) returns (result: int)
      requires Valid()
      modifies this, fifoSend.Repr, fifoRetr.Repr, fifoRecv.Repr
      ensures Valid() && Grown() && View() == SL.Enqueue(old(View()), ms, now)
      ensures result == 0 || result == -1
      ensures result == 0 <==> log.submitted == old(log.submitted) + ms
    {
      hide Fifo.Valid, Fifo.Contents;
      hide SL.DataSend, SL.SendQueueFull;
      for i := 0 to |ms|
        invariant Valid() && Grown() && log.submitted == old(log.submitted) + ms[..i]
        invariant SL.Enqueue(View(), ms[i..], now) == SL.Enqueue(old(View()), ms, now)
      {
        assert ms[i..][0] == ms[i] && ms[i..][1..] == ms[i + 1..];
        var ok := EnqueueOne(ms[i], now);
        if !ok {
          return -1;
        }
      }
      assert ms[|ms|..] == [];
      result := 0;
    }

    method HeartbeatTick(now: nat)
      requires Valid()
      modifies this
      ensures Valid() && View() == SL.HeartbeatTick(old(View()), now)
    {
      hide Fifo.Valid, Fifo.Contents;
      if hbLocked {
        return;
      }
      if state == Up || state == RetrRequested || state == RetrRunning {
        SendHeartbeat(now);
      }
    }

    method Expire(now: nat)
      requires Valid()
      modifies this
      ensures Valid() && View() == SL.Expire(old(View()), now)
    {
      hide Fifo.Valid, Fifo.Contents;
      if hbLocked {
        return;
      }
      if state == Up || state == RetrRequested || state == RetrRunning {
        Close(now);
      }
    }

    method Fetch() returns (m: Option<Message>)
      requires Valid()
      modifies this`log, fifoRecv
      ensures Valid() && Grown() && View() == SL.Fetch(old(View()))
      ensures m == if old(View()).state == Up && old(fifoRecv.Contents()) != [] then Some(old(fifoRecv.Contents())[0])
                   else None
    {
      m := None;
      if state == Up && fifoRecv.size > 0 {
        m := fifoRecv.Pop();
        log := log.(fetched := log.fetched + [m.value]);
      }
    }

    /** Takes the role of a client with fresh numbers. */
    method PrepareClient(now: nat)
      requires Valid()
      modifies this
      ensures Valid()
      ensures
        var c := old(View());
        View() == SL.Reset(c).(role := Client, snT := c.cfg.initialSn, csT := 0, ctsR := now, snI := c.cfg.initialSn)
    {
      hide Fifo.Valid, Fifo.Contents;
      Reset();
      role, snT, snI, csT, ctsR := Client, cfg.initialSn, cfg.initialSn, 0, now;
    }

    method Connect(now: nat)
      requires Valid()
      modifies this
      ensures Valid() && View() == SL.Connected(old(View()), now)
    {
      hide Fifo.Valid, Fifo.Contents, SL.Reset;
      PrepareClient(now);
      var req := MakePdu(ConnReq, now);
      MuxSend(req.(cs := 0, cts := 0));
      snT, state := snT + 1, Start;
    }
  }
}

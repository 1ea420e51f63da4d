/**
  A connection on top of its redundancy channel, as one object: what the connection sends is numbered
  and copied by the channel, and what the channel drains is handled by the connection.  Its methods
  are the acts of module EndToEnd.
 */
module Stations {
  import opened Packets
  import opened SL = SafetyLayer
  import opened Fifos
  import opened SrConnection
  import opened Redundancy
  import opened RedundancyChannels
  import opened DeferQueues
  import Sessions
  import E = Endpoint
  import EndToEnd

  /** The copies of PDUs number i to j that a transport channel carries. */
  function Copies(sent: seq<Packet>, i: nat, j: nat): (ps: seq<RedPdu>)
    requires i <= j <= |sent|
    ensures |ps| == j - i
  {
    seq(j - i, k requires 0 <= k < j - i => RedPdu(i + k, sent[i + k], true, 0))
  }

  lemma CopiesGrow(sent: seq<Packet>, i: nat, j: nat)
    requires i <= j < |sent|
    ensures Copies(sent, i, j + 1) == Copies(sent, i, j) + [RedPdu(j, sent[j], true, 0)]
  {
  }

  class Station {
    const conn: Connection
    const channel: RedundancyChannel

    /** The objects of the two layers are apart. */
    ghost predicate Apart()
      reads this, conn, conn.fifoSend, conn.fifoRetr, conn.fifoRecv, channel
    {
      {channel, channel.deferQ, channel.deferQ.elements, conn} !!
      conn.fifoSend.Repr + conn.fifoRetr.Repr + conn.fifoRecv.Repr
    }

    /** Whatever is on a transport channel is a copy of what the connection sent, under its number. */
    ghost predicate Faithful()
      reads this, conn, channel
    {
      forall t :: 0 <= t < |channel.outbox| ==> AllCopies(conn.log.sent, channel.outbox[t])
    }

    /** The channel's number counts every PDU of the connection, disconnection requests included. */
    ghost predicate Valid()
      reads this, conn, conn.fifoSend, conn.fifoRetr, conn.fifoRecv, channel, channel.deferQ
      reads conn.fifoSend.Repr, conn.fifoRetr.Repr, conn.fifoRecv.Repr
    {
      conn.Valid() && channel.Valid() && Apart() && Faithful() && channel.seqTx == |conn.log.sent|
    }

    constructor (cfg: Config, queueSize: nat, transports: nat)
      ensures Valid() && conn.View() == SL.Fresh(cfg)
      ensures channel.View() == Channel(cfg.remoteId, queueSize, 0, multiset{}) && |channel.connected| == transports
      ensures fresh(conn) && fresh(channel) && fresh(channel.deferQ) && fresh(channel.deferQ.elements)
      ensures fresh(conn.fifoSend.Repr) && fresh(conn.fifoRetr.Repr) && fresh(conn.fifoRecv.Repr)
    {
      var c := new Connection(cfg);
      var ch := new RedundancyChannel(cfg.remoteId, queueSize, transports);
      conn, channel := c, ch;
    }

    /** Passes everything on that the connection has sent since; `redial` tells which attempts to reconnect succeed. */
    method Transmit(redial: (nat, nat) -> bool)
      requires conn.Valid() && channel.Valid() && Apart() && Faithful() && channel.seqTx <= |conn.log.sent|
      modifies channel`seqTx, channel`connected, channel`outbox
      ensures Valid() && |channel.connected| == old(|channel.connected|)
      ensures forall t :: 0 <= t < |channel.connected| && old(channel.connected[t]) ==>
                && channel.connected[t]
                && channel.outbox[t] == old(channel.outbox[t]) + Copies(conn.log.sent, old(channel.seqTx), |conn.log.sent|)
    {
      hide Fifo.Valid, Fifo.Contents;
      ghost var from := channel.seqTx;
      while channel.seqTx < |conn.log.sent|
        invariant channel.Valid() && Faithful() && from <= channel.seqTx <= |conn.log.sent|
        invariant |channel.connected| == old(|channel.connected|)
        invariant forall t :: 0 <= t < |channel.connected| && old(channel.connected[t]) ==>
                    && channel.connected[t]
                    && channel.outbox[t] == old(channel.outbox[t]) + Copies(conn.log.sent, from, channel.seqTx)
      {
        var n := channel.seqTx;
        CopiesGrow(conn.log.sent, from, n);
        var attempts := seq(|channel.connected|, t requires 0 <= t => redial(n, t));
        channel.MuxSend(conn.log.sent[n], conn.role == Client, attempts);
      }
    }

    /** Every transport channel that was connected carries everything that was sent since, in order. */
    twostate predicate PassedOn()
      reads conn, channel
    {
      && |channel.connected| == |channel.outbox| == |old(channel.connected)| == |old(channel.outbox)|
      && old(|conn.log.sent|) <= |conn.log.sent|
      && forall t :: 0 <= t < |channel.connected| && old(channel.connected)[t] ==>
           && channel.connected[t]
           && channel.outbox[t] ==
              old(channel.outbox)[t] + Copies(conn.log.sent, old(|conn.log.sent|), |conn.log.sent|)
    }

    /** The client dials. */
    method Dial(now: nat, redial: (nat, nat) -> bool)
      requires Valid()
      modifies conn, channel`seqTx, channel`connected, channel`outbox
      ensures Valid() && PassedOn() && conn.View() == SL.Connected(old(conn.View()), now)
      ensures channel.View() == old(channel.View())
    {
      hide Fifo.Valid, Fifo.Contents;
      conn.Connect(now);
      Transmit(redial);
    }

    /** The application or a timer acts. */
    method Act(l: Local, now: nat, redial: (nat, nat) -> bool)
      requires Valid()
      modifies conn, conn.fifoSend.Repr, conn.fifoRetr.Repr, conn.fifoRecv.Repr
      modifies channel`seqTx, channel`connected, channel`outbox
      ensures Valid() && PassedOn() && conn.View() == SL.LocalStep(old(conn.View()), l, now)
      ensures channel.View() == old(channel.View())
    {
      hide Fifo.Valid, Fifo.Contents, SL.LocalStep;
      E.LocalGrows(conn.View(), l, now);
      Sessions.Handle(conn, E.Happens(l, now));
      Transmit(redial);
    }

    /** The connection handles what the channel has just handed up, one PDU after the other. */
    method HandleDrained(ps: seq<Packet>, ghost out: seq<RedPdu>, envs: seq<Env>)
      requires conn.Valid() && channel.Valid() && Apart() && ps == Handed(out) && |envs| == |out|
      modifies conn, conn.fifoSend.Repr, conn.fifoRetr.Repr, conn.fifoRecv.Repr
      ensures conn.Valid() && conn.Grown() && conn.View() == EndToEnd.HandleAll(old(conn.View()), out, envs)
    {
      hide Fifo.Valid, Fifo.Contents, SL.Receive;
      for i := 0 to |ps|
        invariant conn.Valid() && conn.Grown()
        invariant conn.View() == EndToEnd.HandleAll(old(conn.View()), out[..i], envs[..i])
      {
        assert out[..i + 1][..i] == out[..i] && envs[..i + 1][..i] == envs[..i];
        conn.Receive(ps[i], envs[i]);
      }
      assert out[..|out|] == out && envs[..|envs|] == envs;
    }

    /** One receive event; `env` gives the surroundings of every PDU that is handed up. */
    method Hear(ps: seq<RedPdu>, now: nat, env: nat -> Env, redial: (nat, nat) -> bool)
      returns (ghost out: seq<RedPdu>, ghost envs: seq<Env>)
      requires Valid()
      modifies conn, conn.fifoSend.Repr, conn.fifoRetr.Repr, conn.fifoRecv.Repr
      modifies channel, channel.deferQ, channel.deferQ.elements
      ensures Valid() && PassedOn() && |envs| == |out|
      ensures Hears(old(channel.View()), EndToEnd.SeqTx(old(conn.View())), ps, now, out, channel.View())
      ensures conn.View() == EndToEnd.HandleAll(old(conn.View()), out, envs)
    {
      hide Fifo.Valid, Fifo.Contents, Hears, EndToEnd.HandleAll, DeferQueue.Entries, DeferQueue.Valid;
      var before := |channel.handed|;
      out := channel.Hear(ps, now);
      var drained := channel.handed[before..];
      var surroundings := seq(|drained|, k requires 0 <= k => env(k));
      envs := surroundings;
      EndToEnd.HandleAllGrows(conn.View(), out, envs);
      HandleDrained(drained, out, surroundings);
      Transmit(redial);
    }
  }
}

/**
  Two endpoints over channels that keep the order of PDUs and may lose any of them.
  What an endpoint sent is its log; the channel to its peer is the part of that log the peer has
  not consumed yet, and a PDU is lost by consuming it without handing it up.
 */
module Runs {
  import opened Packets
  import opened SafetyLayer

  // ----- runs -----

  /** `a` opened the connection.  `atB` counts the PDUs of `a` that reached `b` or got lost. */
  datatype Net = Net(a: Conn, b: Conn, atA: nat, atB: nat)

  datatype Step =
    | AReceives(env: Env)
    | BReceives(env: Env)
    | ALoses
    | BLoses
    | ALocal(local: Local, now: nat)
    | BLocal(local: Local, now: nat)

  ghost predicate Init(n: Net) {
    exists ca: Config, cb: Config, now: nat ::
      n == Net(Connected(Fresh(ca), now), Fresh(cb), 0, 0)
  }

  predicate Enabled(n: Net, st: Step) {
    match st
    case AReceives(_) => n.atA < |n.b.log.sent|
    case ALoses => n.atA < |n.b.log.sent|
    case BReceives(_) => n.atB < |n.a.log.sent|
    case BLoses => n.atB < |n.a.log.sent|
    case _ => true
  }

  function Next(n: Net, st: Step): Net
    requires Enabled(n, st)
  {
    match st
    case AReceives(env) => n.(a := Receive(n.a, n.b.log.sent[n.atA], env), atA := n.atA + 1)
    case BReceives(env) => n.(b := Receive(n.b, n.a.log.sent[n.atB], env), atB := n.atB + 1)
    case ALoses => n.(atA := n.atA + 1)
    case BLoses => n.(atB := n.atB + 1)
    case ALocal(e, now) => n.(a := LocalStep(n.a, e, now))
    case BLocal(e, now) => n.(b := LocalStep(n.b, e, now))
  }

  ghost predicate IsRun(run: seq<Net>, steps: seq<Step>) {
    && |run| == |steps| + 1
    && Init(run[0])
    && forall i :: 0 <= i < |steps| ==> Enabled(run[i], steps[i]) && run[i + 1] == Next(run[i], steps[i])
  }

  /** The two directions in which batches travel. */
  datatype Route = ToA | ToB

  function Sender(n: Net, w: Route): Conn {
    if w.ToB? then n.a else n.b
  }

  function Receiver(n: Net, w: Route): Conn {
    if w.ToB? then n.b else n.a
  }

  /** How many PDUs of the sender the receiver has consumed, and the other way round. */
  function Taken(n: Net, w: Route): nat {
    if w.ToB? then n.atB else n.atA
  }

  function TakenBack(n: Net, w: Route): nat {
    if w.ToB? then n.atA else n.atB
  }

  /** The step hands a PDU to the receiver, or to the sender. */
  predicate ReachesReceiver(st: Step, w: Route) {
    if w.ToB? then st.BReceives? else st.AReceives?
  }

  predicate ReachesSender(st: Step, w: Route) {
    if w.ToB? then st.AReceives? else st.BReceives?
  }

  /** The PDU that the step hands over. */
  function Handed(n: Net, st: Step): Packet
    requires Enabled(n, st) && (st.AReceives? || st.BReceives?)
  {
    if st.AReceives? then n.b.log.sent[n.atA] else n.a.log.sent[n.atB]
  }

  // ----- an endpoint as a sender and as a receiver -----

  /** The part of a connection that its role as a sender depends on. */
  datatype Tx = Tx(sent: seq<Packet>, batches: seq<seq<Message>>, fifo: seq<Packet>, snT: nat)

  /** The part of a connection that its role as a receiver depends on. */
  datatype Rx = Rx(state: State, csT: nat, snR: nat, accepted: seq<Packet>, sent: seq<Packet>)

  function TxOf(c: Conn): Tx {
    Tx(c.log.sent, c.log.batches, c.fifoRetr, c.snT)
  }

  function RxOf(c: Conn): Rx {
    Rx(c.state, c.csT, c.snR, c.log.accepted, c.log.sent)
  }

  predicate Waiting(r: Rx) {
    r.state.Closed? || r.state.Down? || r.state.RetrRequested?
  }

  /** Every batch below this index is behind the receiver. */
  function HighWater(r: Rx): nat {
    if r.accepted == [] then 0 else r.accepted[|r.accepted| - 1].origin + 1
  }

  // ----- what a sender does -----

  lemma {:induction false} PopConfirmedIsSuffix(q: seq<Packet>, cs: nat) returns (k: nat)
    ensures k <= |q| && PopConfirmed(q, cs) == q[k..]
  {
    if q == [] {
      k := 0;
    } else if q[0].sn == cs {
      k := 1;
    } else {
      var k' := PopConfirmedIsSuffix(q[1..], cs);
      k := k' + 1;
    }
  }

  /** Of a queue ordered by number nothing up to `cs` survives. */
  lemma {:induction false} PopConfirmedDropsConfirmed(q: seq<Packet>, cs: nat)
    requires forall k, l :: 0 <= k < l < |q| ==> q[k].sn < q[l].sn
    ensures forall k :: 0 <= k < |PopConfirmed(q, cs)| ==> PopConfirmed(q, cs)[k].sn > cs
  {
    if q != [] && q[0].sn != cs {
      PopConfirmedDropsConfirmed(q[1..], cs);
    }
  }

  function WithData(s: Tx, p: Packet): Tx {
    Tx(s.sent + [p], s.batches + [p.batch], s.fifo + [p], s.snT + 1)
  }

  /** A response, the queued batches under new numbers, a heartbeat. */
  function Replied(s: Tx, resp: Packet, b: seq<Packet>, last: Packet): Tx {
    Tx(s.sent + [resp] + b + [last], s.batches, b, s.snT + |b| + 2)
  }

  // ----- what the larger operations leave alone -----

  /** From c to c' the connection only sent PDUs, and no request among them. */
  predicate SentNoRequest(c: Conn, c': Conn) {
    && c.log.sent <= c'.log.sent
    && (forall m :: |c.log.sent| <= m < |c'.log.sent| ==>
          !c'.log.sent[m].kind.RetrReq? && !c'.log.sent[m].kind.ConnReq? && c'.log.sent[m].cs == c.csT)
    && c'.log.accepted == c.log.accepted && c'.csT == c.csT && c'.snR == c.snR && c'.state == c.state
  }

  lemma DataSendQuiet(c: Conn, now: nat)
    ensures SentNoRequest(c, DataSend(c, now))
  {
  }

  lemma RemoveConfirmedQuiet(c: Conn, now: nat)
    ensures SentNoRequest(c, RemoveConfirmed(c, now))
  {
  }

  lemma RespondQuiet(c: Conn, p: Packet, now: nat)
    ensures SentNoRequest(c, Respond(c, p, now))
  {
    var c1 := SendRetrResp(RemoveConfirmed(c.(csR := p.cs), now), now);
    RemoveConfirmedQuiet(c.(csR := p.cs), now);
    var b := Burst(c1, now);
    assert forall k :: 0 <= k < |b| ==> b[k] == Renumbered(c1, k, now);
  }

  lemma {:induction false} EnqueueQuiet(c: Conn, ms: seq<Message>, now: nat)
    ensures SentNoRequest(c, Enqueue(c, ms, now))
    decreases |ms|
  {
    if ms != [] {
      var c' := if SendQueueFull(c) then DataSend(c, now) else c;
      if !SendQueueFull(c') {
        EnqueueQuiet(c'.(fifoSend := c'.fifoSend + [ms[0]],
                     log := c'.log.(submitted := c'.log.submitted + [ms[0]])), ms[1..], now);
      }
    }
  }

  lemma AddAppMessagesRx(c: Conn, p: Packet)
    ensures RxOf(AddAppMessages(c, p)) == RxOf(c).(accepted := c.log.accepted + [p])
  {
  }
}

/**
  The safety and retransmission layer as functions on the value of a connection.
  Class SrConnection.Connection carries the same operations in imperative form and is proved
  against these functions.
 */
module SafetyLayer {
  import opened Packets

  datatype Role = Client | Server

  datatype State = Closed | Down | Start | Up | RetrRequested | RetrRunning

  datatype Config = Config(
    myId: nat, remoteId: nat, initialSn: nat,
    sendMax: nat, maxPacket: nat, tMax: nat,
    retrQueueSize: nat, recvQueueSize: nat)

  datatype Errors = Errors(safety: nat, address: nat, kind: nat, sn: nat, cs: nat)

  const NO_ERRORS := Errors(0, 0, 0, 0, 0)

  /** What a connection has done so far: read by no operation of it, extended by many. */
  datatype Log = Log(
    sent: seq<Packet>,              // every PDU handed to the redundancy layer
    batches: seq<seq<Message>>,     // the payload of every first-time data PDU
    submitted: seq<Message>,        // every message sr_send put into the send queue
    accepted: seq<Packet>,          // every PDU whose messages went to the receive queue
    delivered: seq<Message>,        // every message pushed into the receive queue
    dropped: nat,                   // messages refused because the receive queue was full
    fetched: seq<Message>)          // every message the application read

  const EMPTY_LOG := Log([], [], [], [], [], 0, [])

  datatype Conn = Conn(
    cfg: Config, role: Role, state: State, hbLocked: bool,
    snT: nat, snR: nat, snI: nat, csT: nat, csR: nat, tsR: nat, ctsR: nat,
    fifoSend: seq<Message>, fifoRetr: seq<Packet>, fifoRecv: seq<Message>,
    errors: Errors, log: Log)

  /** What one event takes from its surroundings: the clock and the outcome of version checking. */
  datatype Env = Env(now: nat, versionOk: bool)

  predicate Established(c: Conn) {
    c.state.Up? || c.state.RetrRequested? || c.state.RetrRunning?
  }

  // ----- construction and sending of PDUs -----

  function Pdu(c: Conn, kind: Kind, cts: nat, batch: seq<Message>, origin: nat, now: nat): Packet {
    Packet(kind, c.cfg.remoteId, c.cfg.myId, c.snT, c.csT, now, cts, batch, true, origin)
  }

  function Control(c: Conn, kind: Kind, now: nat): Packet {
    Pdu(c, kind, c.tsR, [], |c.log.batches|, now)
  }

  /** Hands one PDU to the redundancy layer. */
  function Emit(c: Conn, p: Packet): Conn {
    c.(log := c.log.(sent := c.log.sent + [p]))
  }

  /** Sends a PDU that takes a sequence number. */
  function EmitNumbered(c: Conn, p: Packet): Conn {
    Emit(c, p).(snT := c.snT + 1)
  }

  function SendHeartbeat(c: Conn, now: nat): Conn {
    EmitNumbered(c, Control(c, Heartbeat, now))
  }

  function SendRetrReq(c: Conn, now: nat): Conn {
    EmitNumbered(c, Control(c, RetrReq, now))
  }

  function SendRetrResp(c: Conn, now: nat): Conn {
    EmitNumbered(c, Control(c, RetrResp, now))
  }

  /** A disconnection request does not consume its sequence number. */
  function SendDiscReq(c: Conn, now: nat): Conn {
    Emit(c, Control(c, DiscReq, now))
  }

  // ----- closing -----

  function Reset(c: Conn): Conn {
    c.(state := Closed, hbLocked := true, errors := NO_ERRORS)
  }

  function Close(c: Conn, now: nat): Conn {
    if c.state == Down || c.state == Closed then Reset(c) else SendDiscReq(Reset(c), now)
  }

  // ----- queues -----

  function Min(a: nat, b: nat): nat {
    if a <= b then a else b
  }

  function FreeRoom(capacity: nat, used: nat): nat {
    if used <= capacity then capacity - used else 0
  }

  function SendCapacity(c: Conn): nat {
    2 * c.cfg.maxPacket
  }

  predicate SendQueueFull(c: Conn) {
    |c.fifoSend| == SendCapacity(c)
  }

  /** How many queued messages the next data PDU takes. */
  function BatchSize(c: Conn): nat {
    Min(Min(FreeRoom(c.cfg.retrQueueSize, |c.fifoRetr|), |c.fifoSend|), c.cfg.maxPacket)
  }

  function DataPdu(c: Conn, now: nat): Packet {
    Pdu(c, Data, c.tsR, c.fifoSend[..BatchSize(c)], |c.log.batches|, now)
  }

  /** Packs queued messages into one data PDU, if the retransmission queue has room for it. */
  function DataSend(c: Conn, now: nat): Conn {
    if FreeRoom(c.cfg.retrQueueSize, |c.fifoRetr|) == 0 || c.fifoSend == [] then c
    else
      var p := DataPdu(c, now);
      EmitNumbered(c, p).(
      fifoSend := c.fifoSend[BatchSize(c)..],
      fifoRetr := c.fifoRetr + [p],
      log := c.log.(sent := c.log.sent + [p], batches := c.log.batches + [p.batch]))
  }

  /** Pops until the PDU numbered `cs` has been popped, or until nothing is left. */
  function PopConfirmed(q: seq<Packet>, cs: nat): seq<Packet> {
    if q == [] then [] else if q[0].sn == cs then q[1..] else PopConfirmed(q[1..], cs)
  }

  function RemoveConfirmed(c: Conn, now: nat): Conn {
    var c' := c.(fifoRetr := PopConfirmed(c.fifoRetr, c.csR));
    if SendQueueFull(c') then DataSend(c', now) else c'
  }

  /** The i-th of the queued PDUs as it is retransmitted. */
  function Renumbered(c: Conn, i: nat, now: nat): Packet
    requires i < |c.fifoRetr|
  {
    Pdu(c, RetrData, c.tsR, c.fifoRetr[i].batch, c.fifoRetr[i].origin, now).(sn := c.snT + i)
  }

  function Burst(c: Conn, now: nat): (b: seq<Packet>)
    ensures |b| == |c.fifoRetr|
  {
    seq(|c.fifoRetr|, i requires 0 <= i < |c.fifoRetr| => Renumbered(c, i, now))
  }

  /** Sends every unconfirmed PDU again under new numbers and ends with a heartbeat. */
  function Retransmit(c: Conn, now: nat): Conn {
    var b := Burst(c, now);
    SendHeartbeat(c.(fifoRetr := b, snT := c.snT + |b|, log := c.log.(sent := c.log.sent + b)), now)
  }

  /** Pushes the messages of a PDU into the receive queue, as far as it has room. */
  function AddAppMessages(c: Conn, p: Packet): Conn {
    var k := Min(|p.batch|, FreeRoom(c.cfg.recvQueueSize, |c.fifoRecv|));
    c.(fifoRecv := c.fifoRecv + p.batch[..k],
    log := c.log.(
    accepted := c.log.accepted + [p],
    delivered := c.log.delivered + p.batch[..k],
    dropped := c.log.dropped + |p.batch| - k))
  }

  // ----- checks on received PDUs -----

  predicate CtsInSeq(c: Conn, p: Packet) {
    p.kind.Heartbeat? || p.kind.Data? || p.kind.RetrData? ==>
      c.ctsR == 0 || (p.cts >= c.ctsR && p.cts - c.ctsR < c.cfg.tMax)
  }

  predicate SnInSeq(c: Conn, p: Packet) {
    p.kind.ConnReq? || p.kind.ConnResp? || p.kind.RetrResp? || p.kind.DiscReq? || c.snR == p.sn
  }

  predicate SnRangeValid(c: Conn, p: Packet) {
    p.kind.ConnReq? || p.kind.ConnResp? || p.kind.RetrResp? ||
    (p.sn >= c.snR && p.sn - c.snR <= c.cfg.sendMax * 10)
  }

  predicate CsValid(c: Conn, p: Packet) {
    if p.kind == ConnReq then p.cs == 0
    else if p.kind == ConnResp then p.cs == c.snT - 1
    else p.cs >= c.csR && p.cs - c.csR < c.snT - c.csR
  }

  predicate Authentic(c: Conn, p: Packet) {
    p.sender == c.cfg.remoteId && p.receiver == c.cfg.myId
  }

  predicate CheckPacket(c: Conn, p: Packet) {
    p.intact && Authentic(c, p) && SnRangeValid(c, p) && CsValid(c, p) && SnInSeq(c, p) && CtsInSeq(c, p)
  }

  /** A PDU that passes every check made before the dispatch. */
  predicate Admitted(c: Conn, p: Packet) {
    p.intact && Authentic(c, p) && SnRangeValid(c, p) && CsValid(c, p)
  }

  function UpdateConnection(c: Conn, p: Packet): Conn {
    c.(snR := p.sn + 1, csT := p.sn, tsR := p.ts)
  }

  function UpdateConfirmed(c: Conn, p: Packet): Conn {
    c.(ctsR := p.cts, csR := p.cs)
  }

  // ----- handlers, one per PDU type -----

  function HandleDiscReq(c: Conn): Conn {
    Reset(c)
  }

  function HandleData(c: Conn, p: Packet, now: nat): Conn {
    if SnInSeq(c, p) then
      if c.state == Start then Close(c, now)
      else if c.state == Up then
        if CtsInSeq(c, p) then
          RemoveConfirmed(UpdateConfirmed(UpdateConnection(AddAppMessages(c, p), p), p), now)
        else
          Close(c.(errors := c.errors.(cs := c.errors.cs + 1)), now)
      else if c.state == RetrRunning then
        if CtsInSeq(c, p) then UpdateConnection(c, p) else Close(c, now)
      else c
    else if c.state == Start then Close(c, now)
    else if c.state == RetrRunning || c.state == Up then
      SendRetrReq(c.(errors := c.errors.(sn := c.errors.sn + 1)), now).(state := RetrRequested)
    else c
  }

  /** Answers a retransmission request: response, every unconfirmed PDU, heartbeat. */
  function Respond(c: Conn, p: Packet, now: nat): Conn {
    Retransmit(SendRetrResp(RemoveConfirmed(c.(csR := p.cs), now), now), now)
  }

  /** In state RetrRunning the connection is closed and the request answered all the same. */
  function HandleRetrReq(c: Conn, p: Packet, now: nat): Conn {
    if SnInSeq(c, p) then
      var c' := if c.state == RetrRunning then Close(c, now) else c;
      Respond(UpdateConnection(c', p), p, now)
    else
      Respond(c, p, now).(state := RetrRequested)
  }

  function HandleRetrResp(c: Conn, p: Packet, now: nat): Conn {
    if c.state == RetrRequested then
      UpdateConfirmed(UpdateConnection(c.(state := RetrRunning), p), p)
    else
      Close(c, now)
  }

  function HandleRetrData(c: Conn, p: Packet, now: nat): Conn {
    if c.state == Up then Close(c, now)
    else if c.state != RetrRunning then c
    else if !SnInSeq(c, p) then SendRetrReq(c, now).(state := RetrRequested)
    else if !CtsInSeq(c, p) then Close(c, now)
    else UpdateConnection(AddAppMessages(c, p), p).(csR := p.cs)
  }

  /** A heartbeat in state Start: the handshake goes on even after the two closing branches. */
  function HandleFirstHeartbeat(c: Conn, p: Packet, now: nat): Conn {
    var c1 := if !SnInSeq(c, p) then Close(c, now) else c;
    var c2 := if c1.role == Client then Close(c1, now) else c1;
    if CtsInSeq(c2, p) then
      UpdateConnection(c2, p).(csR := p.cs, state := Up, hbLocked := false)
    else
      Close(c2, now)
  }

  /** A heartbeat gap leads to RetrRequested, but no request is sent. */
  function HandleHeartbeat(c: Conn, p: Packet, now: nat): Conn {
    if c.state == Start then HandleFirstHeartbeat(c, p, now)
    else if c.state != Up && c.state != RetrRunning then c
    else if !SnInSeq(c, p) then c.(state := RetrRequested)
    else if !CtsInSeq(c, p) then Close(c, now)
    else RemoveConfirmed(UpdateConfirmed(UpdateConnection(c, p), p), now).(state := Up)
  }

  function HandleConnReq(c: Conn, p: Packet, env: Env): Conn {
    if c.state == Closed || c.state == Down then
      var c1 := Reset(c).(role := Server, snT := c.cfg.initialSn, snI := c.cfg.initialSn, state := Down);
      if !CheckPacket(c1, p) || !env.versionOk then Close(c1, env.now)
      else
        var c2 := UpdateConfirmed(UpdateConnection(c1, p), p);
        EmitNumbered(c2, Control(c2, ConnResp, env.now).(cts := c2.ctsR)).(state := Start)
    else Close(c, env.now)
  }

  function HandleConnResp(c: Conn, p: Packet, env: Env): Conn {
    if !CheckPacket(c, p) then Close(c, env.now)
    else if c.state == Start then
      if c.role == Client && env.versionOk then
        SendHeartbeat(UpdateConnection(c, p).(csR := p.cs, state := Up), env.now).(hbLocked := false)
      else Close(c, env.now)
    else if Established(c) then Close(c, env.now)
    else c
  }

  function HandleChecked(c: Conn, p: Packet, now: nat): Conn {
    match p.kind
    case RetrData => HandleRetrData(c, p, now)
    case Data => HandleData(c, p, now)
    case RetrReq => HandleRetrReq(c, p, now)
    case RetrResp => HandleRetrResp(c, p, now)
    case DiscReq => HandleDiscReq(c)
    case Heartbeat => HandleHeartbeat(c, p, now)
    case _ => c.(errors := c.errors.(kind := c.errors.kind + 1))
  }

  /** Entry point for every PDU the redundancy layer hands up. */
  function Receive(c: Conn, p: Packet, env: Env): Conn {
    if p.kind == ConnReq then HandleConnReq(c, p, env)
    else if p.kind == ConnResp then HandleConnResp(c, p, env)
    else if !p.intact then c.(errors := c.errors.(safety := c.errors.safety + 1))
    else if !Authentic(c, p) then c.(errors := c.errors.(address := c.errors.address + 1))
    else if !SnRangeValid(c, p) then c.(errors := c.errors.(sn := c.errors.sn + 1))
    else if !CsValid(c, p) then c.(errors := c.errors.(cs := c.errors.cs + 1))
    else HandleChecked(c, p, env.now)
  }

  // ----- operations of the application and of the timers -----

  /** Queues messages one by one, flushing when the queue is full; stops when a flush makes no room. */
  function Enqueue(c: Conn, ms: seq<Message>, now: nat): Conn
    decreases |ms|
  {
    if ms == [] then c
    else
      var c' := if SendQueueFull(c) then DataSend(c, now) else c;
      if SendQueueFull(c') then c'
      else
        Enqueue(c'.(fifoSend := c'.fifoSend + [ms[0]],
                log := c'.log.(submitted := c'.log.submitted + [ms[0]])), ms[1..], now)
  }

  function Submit(c: Conn, ms: seq<Message>, now: nat): Conn {
    if c.state == Up then if |ms| > c.cfg.maxPacket then c else Enqueue(c, ms, now)
    else if c.state == Closed || c.state == Down then c.(state := Closed)
    else SendDiscReq(c, now).(state := Closed)
  }

  predicate Timed(c: Conn) {
    !c.hbLocked && Established(c)
  }

  function HeartbeatTick(c: Conn, now: nat): Conn {
    if Timed(c) then SendHeartbeat(c, now) else c
  }

  function Expire(c: Conn, now: nat): Conn {
    if Timed(c) then Close(c, now) else c
  }

  function Fetch(c: Conn): Conn {
    if c.state == Up && c.fifoRecv != [] then
      c.(fifoRecv := c.fifoRecv[1..], log := c.log.(fetched := c.log.fetched + [c.fifoRecv[0]]))
    else c
  }

  /** The client after sr_connect has sent its connection request. */
  function Connected(c: Conn, now: nat): Conn {
    var c1 := Reset(c).(role := Client, snT := c.cfg.initialSn, csT := 0, ctsR := now, snI := c.cfg.initialSn);
    EmitNumbered(c1, Control(c1, ConnReq, now).(cs := 0, cts := 0)).(state := Start)
  }

  /** A connection as it is set up at initialisation. */
  function Fresh(cfg: Config): Conn {
    Conn(cfg, Client, Closed, true, 0, 0, 0, 0, 0, 0, 0, [], [], [], NO_ERRORS, EMPTY_LOG)
  }

  /** Everything that can happen at an endpoint besides receiving a PDU. */
  datatype Local =
    | AppSends(messages: seq<Message>)
    | AppFetches
    | AppDisconnects
    | FlushTimer
    | HeartbeatTimer
    | TimeoutTimer
    | TransportsLost

  function LocalStep(c: Conn, e: Local, now: nat): Conn {
    match e
    case AppSends(ms) => Submit(c, ms, now)
    case AppFetches => Fetch(c)
    case AppDisconnects => Close(c, now)
    case FlushTimer => DataSend(c, now)
    case HeartbeatTimer => HeartbeatTick(c, now)
    case TimeoutTimer => Expire(c, now)
    case TransportsLost => Reset(c)
  }
}
